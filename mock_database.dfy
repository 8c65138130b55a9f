/** The test helper that turns the mock database's version-3 content into
    version-2 content: every integer value of an entry becomes its decimal
    string, on a copy of one entry or of a list of entries. */
module MockDatabase {
  import opened Strings

  /** A JSON value of an entry: a bool is not an integer here. */
  datatype Field = FInt(i: int) | FBool(b: bool) | FStr(s: string) | FOther

  type Entry = map<string, Field>

  /** One entry (a dict) or a list of entries. */
  datatype Content = One(entry: Entry) | Many(entries: seq<Entry>)

  /** str() of an integer; every other value as it is. */
  function ConvertField(f: Field): (r: Field)
    ensures f.FInt? ==> r == FStr(DecimalString(f.i))
    ensures !f.FInt? ==> r == f
  {
    if f.FInt? then FStr(DecimalString(f.i)) else f
  }

  /** The converted entry: the same keys, each value converted. */
  function ConvertEntry(e: Entry): (r: Entry)
    ensures r.Keys == e.Keys
    ensures forall k :: k in e ==> r[k] == ConvertField(e[k])
  {
    map k | k in e :: ConvertField(e[k])
  }

  function ConvertEntries(es: seq<Entry>): (r: seq<Entry>)
    ensures |r| == |es|
    ensures forall i :: 0 <= i < |es| ==> r[i] == ConvertEntry(es[i])
  {
    seq(|es|, i requires 0 <= i < |es| => ConvertEntry(es[i]))
  }

  /** v2_convert as a value. */
  function Convert(data: Content): Content {
    match data
    case One(e) => One(ConvertEntry(e))
    case Many(es) => Many(ConvertEntries(es))
  }

  /** After conversion no value is an integer. */
  predicate NoInts(e: Entry) {
    forall k :: k in e ==> !e[k].FInt?
  }

  /** A converted value reads back as the integer it was. */
  lemma {:induction false} ConvertFieldReadsBack(f: Field)
    requires f.FInt?
    ensures ConvertField(f).FStr? && ParseDecimal(ConvertField(f).s) == f.i
  {
    DecimalRoundTrip(f.i);
  }

  /** Distinct integers stay distinct, so ids stay unique. */
  lemma {:induction false} ConvertFieldInjective(f: Field, g: Field)
    requires f.FInt? && g.FInt? && ConvertField(f) == ConvertField(g)
    ensures f == g
  {
    DecimalInjective(f.i, g.i);
  }

  /** Conversion leaves no integer and a second conversion changes nothing. */
  lemma ConvertIdempotent(data: Content)
    ensures data.One? ==> NoInts(Convert(data).entry)
    ensures data.Many? ==> forall i :: 0 <= i < |data.entries| ==> NoInts(Convert(data).entries[i])
    ensures Convert(Convert(data)) == Convert(data)
  {
    match data
    case One(e) =>
      assert ConvertEntry(ConvertEntry(e)) == ConvertEntry(e);
    case Many(es) =>
      var c := ConvertEntries(es);
      forall i | 0 <= i < |c|
        ensures ConvertEntry(c[i]) == c[i]
      {
        assert ConvertEntry(ConvertEntry(es[i])) == ConvertEntry(es[i]);
      }
      assert ConvertEntries(c) == c;
  }

  /** The loop over one entry's keys, overwriting each integer value. */
  method ConvertEntryInPlace(e: Entry) returns (r: Entry)
    ensures r == ConvertEntry(e)
  {
    r := e;
    var todo := e.Keys;
    while todo != {}
      invariant todo <= e.Keys && r.Keys == e.Keys
      invariant forall k :: k in todo ==> r[k] == e[k]
      invariant forall k :: k in e && k !in todo ==> r[k] == ConvertField(e[k])
      decreases |todo|
    {
      var k :| k in todo;
      if r[k].FInt? {
        r := r[k := FStr(DecimalString(r[k].i))];
      }
      todo := todo - {k};
    }
  }

  /** v2_convert: a copy of the content, converted entry by entry. */
  method V2Convert(data: Content) returns (r: Content)
    ensures r == Convert(data)
  {
    match data
    case One(e) =>
      var c := ConvertEntryInPlace(e);
      r := One(c);
    case Many(es) =>
      var out := es;
      for i := 0 to |es|
        invariant |out| == |es|
        invariant forall j :: 0 <= j < i ==> out[j] == ConvertEntry(es[j])
        invariant forall j :: i <= j < |es| ==> out[j] == es[j]
      {
        var c := ConvertEntryInPlace(out[i]);
        out := out[i := c];
      }
      r := Many(out);
  }
}
