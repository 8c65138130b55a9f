/** `iaslist` and `aslist`: a term is treated as a list of items, where a
    string, a byte string or a pandas Series counts as a single item. */
module Aslist {

  /** How a term that is kept whole looks to `isinstance`. */
  datatype AtomKind = StrAtom | BytesAtom | SeriesAtom

  /** A Python term.  `Iterable` carries the items its iteration yields, in
      iteration order; `NotIterable` is a term whose iteration raises
      TypeError. */
  datatype Term<T> =
    | Atom(kind: AtomKind, value: T)
    | Iterable(items: seq<T>)
    | NotIterable(value: T)

  /** The items `iaslist(term)` yields. */
  function IAsList<T>(term: Term<T>): (r: seq<T>)
    ensures term.Atom? ==> r == [term.value]
    ensures term.NotIterable? ==> r == [term.value]
    ensures term.Iterable? ==> r == term.items
  {
    match term
    case Atom(_, v) => [v]
    case Iterable(items) => items
    case NotIterable(v) => [v]
  }

  /** `aslist(term)`: the list comprehension over `iaslist(term)`. */
  function AsList<T>(term: Term<T>): (r: seq<T>)
    ensures |r| == |IAsList(term)|
    ensures forall i :: 0 <= i < |r| ==> r[i] == IAsList(term)[i]
  {
    var items := IAsList(term);
    seq(|items|, i requires 0 <= i < |items| => items[i])
  }

  /** `aslist` is exactly the list of what `iaslist` yields. */
  lemma AsListIsIAsList<T>(term: Term<T>)
    ensures AsList(term) == IAsList(term)
  {
  }

  /** Every item of the list comes from the term, and a term kept whole
      gives a one-item list. */
  lemma AsListItems<T>(term: Term<T>, x: T)
    ensures x in AsList(term) <==> (if term.Iterable? then x in term.items else x == term.value)
  {
    AsListIsIAsList(term);
  }

  /** `aslist` of a list is an equal list, so `aslist` is idempotent. */
  lemma AsListIdempotent<T>(term: Term<T>)
    ensures AsList(Iterable(AsList(term))) == AsList(term)
  {
    AsListIsIAsList(term);
    AsListIsIAsList(Iterable(AsList(term)));
  }
}
