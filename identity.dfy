/** Identity resolution shared by every entity kind: filter a listing, then
    insist on exactly one match. */
module Identity {
  import opened Wrappers

  /** The rows that satisfy `keep`, in listing order (a pandas boolean mask). */
  function Filter<T(!new)>(rows: seq<T>, keep: T -> bool): (r: seq<T>)
    ensures |r| <= |rows|
    ensures forall x :: x in r <==> x in rows && keep(x)
  {
    if rows == [] then []
    else (if keep(rows[0]) then [rows[0]] else []) + Filter(rows[1..], keep)
  }

  /** Filtering distributes over concatenation, so it keeps listing order. */
  lemma {:induction false} FilterAppend<T(!new)>(a: seq<T>, b: seq<T>, keep: T -> bool)
    ensures Filter(a + b, keep) == Filter(a, keep) + Filter(b, keep)
    decreases |a|
  {
    if a != [] {
      assert (a + b)[1..] == a[1..] + b;
      FilterAppend(a[1..], b, keep);
    } else {
      assert a + b == b;
    }
  }

  /** One row more is at most one row more in the filter. */
  lemma FilterSnoc<T(!new)>(rows: seq<T>, x: T, keep: T -> bool)
    ensures Filter(rows + [x], keep) == Filter(rows, keep) + (if keep(x) then [x] else [])
  {
    FilterAppend(rows, [x], keep);
    assert Filter([x], keep) == (if keep(x) then [x] else []) by {
      assert [x][1..] == [];
    }
  }

  /** A filter that keeps everything is the identity. */
  lemma {:induction false} FilterAll<T(!new)>(rows: seq<T>, keep: T -> bool)
    requires forall x :: x in rows ==> keep(x)
    ensures Filter(rows, keep) == rows
    decreases |rows|
  {
    if rows != [] {
      FilterAll(rows[1..], keep);
    }
  }

  /** Filtering twice with the same mask is filtering once. */
  lemma {:induction false} FilterIdempotent<T(!new)>(rows: seq<T>, keep: T -> bool)
    ensures Filter(Filter(rows, keep), keep) == Filter(rows, keep)
  {
    FilterAll(Filter(rows, keep), keep);
  }

  /** Row `i` is the one and only row of `rows` that satisfies `keep`. */
  predicate UniqueMatch<T(!new)>(rows: seq<T>, keep: T -> bool, i: int) {
    0 <= i < |rows| && keep(rows[i]) &&
    forall j :: 0 <= j < |rows| && keep(rows[j]) ==> j == i
  }

  /** How an accessor names its entity in its two errors: the singular for
      "No matching ...", the plural for "Multiple matching ...". */
  datatype Noun = Noun(one: string, many: string)

  function NoMatch(noun: Noun): Error {
    ValueError("No matching " + noun.one + " found")
  }

  function ManyMatch(noun: Noun): Error {
    ValueError("Multiple matching " + noun.many + " found")
  }

  /** The exactly-one rule of every `get_x` accessor: one row is returned,
      zero rows and several rows are two different ValueErrors. */
  function SelectOne<T(!new)>(rows: seq<T>, noun: Noun): (r: Result<T>)
    ensures r.Ok? <==> |rows| == 1
    ensures r.Ok? ==> r.value == rows[0] && rows == [r.value]
    ensures |rows| == 0 ==> r == Err(NoMatch(noun))
    ensures |rows| > 1 ==> r == Err(ManyMatch(noun))
  {
    if |rows| == 1 then Ok(rows[0])
    else if |rows| == 0 then Err(NoMatch(noun))
    else Err(ManyMatch(noun))
  }

  /** When one row matches, the filter holds exactly that row. */
  lemma {:induction false} FilterOfUnique<T(!new)>(rows: seq<T>, keep: T -> bool, i: int)
    requires UniqueMatch(rows, keep, i)
    ensures Filter(rows, keep) == [rows[i]]
    decreases |rows|
  {
    if i == 0 {
      assert forall x :: x in rows[1..] ==> !keep(x) by {
        forall x | x in rows[1..] ensures !keep(x) {
          var k :| 0 <= k < |rows[1..]| && rows[1..][k] == x;
          assert rows[k + 1] == x;
        }
      }
      FilterNone(rows[1..], keep);
    } else {
      assert !keep(rows[0]);
      assert UniqueMatch(rows[1..], keep, i - 1) by {
        forall j | 0 <= j < |rows[1..]| && keep(rows[1..][j]) ensures j == i - 1 {
          assert rows[j + 1] == rows[1..][j];
        }
      }
      FilterOfUnique(rows[1..], keep, i - 1);
    }
  }

  /** When no row matches, the filter is empty. */
  lemma FilterNone<T(!new)>(rows: seq<T>, keep: T -> bool)
    requires forall x :: x in rows ==> !keep(x)
    ensures Filter(rows, keep) == []
  {
    if Filter(rows, keep) != [] {
      assert Filter(rows, keep)[0] in Filter(rows, keep);
    }
  }

  /** A filter with exactly one row came from a unique match. */
  lemma {:induction false} UniqueOfSingletonFilter<T(!new)>(rows: seq<T>, keep: T -> bool)
    requires |Filter(rows, keep)| == 1
    ensures exists i :: UniqueMatch(rows, keep, i) && Filter(rows, keep) == [rows[i]]
    decreases |rows|
  {
    var rest := Filter(rows[1..], keep);
    if keep(rows[0]) {
      assert |rest| == 0;
      forall j | 1 <= j < |rows| ensures !keep(rows[j]) {
        assert rows[j] == rows[1..][j - 1];
        assert rows[j] in rows[1..];
      }
      assert UniqueMatch(rows, keep, 0);
    } else {
      UniqueOfSingletonFilter(rows[1..], keep);
      var i :| UniqueMatch(rows[1..], keep, i) && rest == [rows[1..][i]];
      assert UniqueMatch(rows, keep, i + 1) by {
        forall j | 0 <= j < |rows| && keep(rows[j]) ensures j == i + 1 {
          assert j != 0;
          assert rows[j] == rows[1..][j - 1];
        }
      }
    }
  }

  /** Filter-then-select succeeds exactly when one row matches, and then it
      returns that row. */
  lemma SelectOneOfFilter<T(!new)>(rows: seq<T>, keep: T -> bool, noun: Noun)
    ensures SelectOne(Filter(rows, keep), noun).Ok? <==> exists i :: UniqueMatch(rows, keep, i)
    ensures forall i :: UniqueMatch(rows, keep, i) ==> SelectOne(Filter(rows, keep), noun) == Ok(rows[i])
  {
    forall i | UniqueMatch(rows, keep, i) ensures SelectOne(Filter(rows, keep), noun) == Ok(rows[i]) {
      FilterOfUnique(rows, keep, i);
    }
    if SelectOne(Filter(rows, keep), noun).Ok? {
      UniqueOfSingletonFilter(rows, keep);
    }
  }

  /** Filter-then-select reports "No matching" exactly when no row matches. */
  lemma SelectOneOfFilterNone<T(!new)>(rows: seq<T>, keep: T -> bool, noun: Noun)
    ensures SelectOne(Filter(rows, keep), noun) == Err(NoMatch(noun))
            <==> forall x :: x in rows ==> !keep(x)
  {
    if forall x :: x in rows ==> !keep(x) {
      FilterNone(rows, keep);
    } else {
      var x :| x in rows && keep(x);
      assert x in Filter(rows, keep);
      assert NoMatch(noun) != ManyMatch(noun) by {
        assert NoMatch(noun).msg[0] == 'N';
      }
    }
  }
}
