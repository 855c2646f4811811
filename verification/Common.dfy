/** Small value types and sequence facts shared by the connection engine and the scanner. */
module Common {

  datatype Option<+T> = None | Some(value: T)

  /** A notification; `serial` is its position among all values the server passed to Notify. */
  datatype Note = Note(serial: nat, payload: string)

  /** The elements of a sequence, as a set. */
  function Elements<T>(s: seq<T>): set<T> {
    set x | x in s
  }

  /** No element occurs at two positions. */
  ghost predicate Distinct<T>(s: seq<T>) {
    forall i, j :: 0 <= i < j < |s| ==> s[i] != s[j]
  }

  lemma {:induction false} DistinctSize<T>(s: seq<T>)
    ensures |Elements(s)| <= |s|
    ensures Distinct(s) ==> |Elements(s)| == |s|
  {
    if s == [] {
      assert Elements(s) == {};
    } else {
      var n := |s| - 1;
      DistinctSize(s[..n]);
      assert Elements(s) == Elements(s[..n]) + {s[n]};
      if Distinct(s) {
        assert s[n] !in Elements(s[..n]);
      }
    }
  }

  /** A repetition-free sequence over the elements of another is no longer than it. */
  lemma Pigeonhole<T>(s: seq<T>, t: seq<T>)
    requires Distinct(s)
    requires forall i :: 0 <= i < |s| ==> s[i] in t
    ensures |s| <= |t|
    ensures |s| == |t| ==> forall x :: x in t ==> x in s
  {
    DistinctSize(s);
    DistinctSize(t);
    assert Elements(s) <= Elements(t);
    SubsetSize(Elements(s), Elements(t));
    if |s| == |t| {
      assert Elements(s) == Elements(t) by {
        if Elements(s) != Elements(t) {
          SubsetSize(Elements(s), Elements(t));
        }
      }
      forall x | x in t ensures x in s {
        assert x in Elements(t);
      }
    }
  }

  lemma {:induction false} SubsetSize<T>(a: set<T>, b: set<T>)
    requires a <= b
    ensures |a| <= |b|
    ensures a != b ==> |a| < |b|
  {
    if a != {} {
      var x :| x in a;
      SubsetSize(a - {x}, b - {x});
    } else if b != {} {
      var y :| y in b;
      assert |b - {y}| == |b| - 1;
    }
  }
}
