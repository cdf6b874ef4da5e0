/** Small shared datatypes and the sequence facts several modules use. */
module Common {
  datatype Option<+T> = None | Some(value: T)

  datatype Result<+T, +E> = Ok(value: T) | Err(error: E)

  ghost predicate NoDup<T>(s: seq<T>) {
    forall i, j :: 0 <= i < j < |s| ==> s[i] != s[j]
  }

  /** The elements of a list of lists, in order. */
  function Flatten<T>(ss: seq<seq<T>>): seq<T> {
    if ss == [] then [] else ss[0] + Flatten(ss[1..])
  }

  predicate IsMin(s: set<nat>, m: nat) {
    m in s && forall x :: x in s ==> m <= x
  }

  /** The least element of a non-empty set of naturals. */
  function MinOf(s: set<nat>): (m: nat)
    requires s != {}
    ensures IsMin(s, m)
  {
    HasMin(s);
    var m :| IsMin(s, m);
    m
  }

  lemma HasMin(s: set<nat>)
    requires s != {}
    ensures exists m :: IsMin(s, m)
  {
    var m := MinExists(s);
  }

  lemma {:induction false} MinExists(s: set<nat>) returns (m: nat)
    requires s != {}
    ensures IsMin(s, m)
    decreases |s|
  {
    var y :| y in s;
    var rest := s - {y};
    m := y;
    if rest != {} {
      var least := MinExists(rest);
      if least < y { m := least; }
      forall x | x in s ensures m <= x {
        assert x == y || x in rest;
      }
    } else {
      assert s == {y};
    }
  }

  /** A set of naturals listed in increasing order. */
  function Sorted(s: set<nat>): (r: seq<nat>)
    ensures forall x :: x in r <==> x in s
    ensures forall i, j :: 0 <= i < j < |r| ==> r[i] < r[j]
    decreases |s|
  {
    if s == {} then [] else
      var m := MinOf(s);
      [m] + Sorted(s - {m})
  }
}
