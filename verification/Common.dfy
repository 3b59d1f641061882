/** Shared vocabulary: optional values, row identities and ascending listings of id sets. */
module Common {

  datatype Option<+T> = None | Some(value: T)

  /** A row or point identity. The store compares UUIDs in one total order, so a number stands for one. */
  type Id = nat

  lemma {:induction false} FindLeast(s: set<Id>) returns (least: Id)
    requires s != {}
    ensures least in s && forall x :: x in s ==> least <= x
    decreases s
  {
    var y :| y in s;
    least := y;
    if s != {y} {
      var m := FindLeast(s - {y});
      least := if y < m then y else m;
      assert forall x :: x in s ==> x == y || x in s - {y};
    }
  }

  function Least(s: set<Id>): (m: Id)
    requires s != {}
    ensures m in s && forall x :: x in s ==> m <= x
  {
    assert exists m :: m in s && forall x :: x in s ==> m <= x by { var least := FindLeast(s); }
    var m :| m in s && forall x :: x in s ==> m <= x;
    m
  }

  predicate Ascending(ids: seq<Id>) {
    forall i, j :: 0 <= i < j < |ids| ==> ids[i] < ids[j]
  }

  /** The ids of a set in ascending order, each once. */
  function Sorted(s: set<Id>): (ids: seq<Id>)
    ensures Ascending(ids)
    ensures forall x :: x in ids <==> x in s
    ensures |ids| == |s|
  {
    if s == {} then [] else
      var m := Least(s);
      [m] + Sorted(s - {m})
  }

  function Elements(ids: seq<Id>): (s: set<Id>)
    ensures forall x :: x in s <==> x in ids
  {
    set x | x in ids
  }

  /** An ascending listing is determined by its elements. */
  lemma {:induction false} AscendingUnique(a: seq<Id>, b: seq<Id>)
    requires Ascending(a) && Ascending(b)
    requires forall x :: x in a <==> x in b
    ensures a == b
    decreases |a|
  {
    if a == [] {
      assert forall i :: 0 <= i < |b| ==> b[i] in a;
    } else {
      assert a[0] in b && b != [];
      assert b[0] in a;
      assert a[0] == b[0];
      forall x ensures x in a[1..] <==> x in b[1..] {
        if x in a[1..] { assert x in a && x != a[0]; assert x in b; }
        if x in b[1..] { assert x in b && x != b[0]; assert x in a; }
      }
      AscendingUnique(a[1..], b[1..]);
      assert a == [a[0]] + a[1..] && b == [b[0]] + b[1..];
    }
  }

  lemma AscendingSize(ids: seq<Id>)
    requires Ascending(ids)
    ensures |Elements(ids)| == |ids|
  {
    AscendingUnique(ids, Sorted(Elements(ids)));
  }

  /** What str.strip removes. */
  predicate Space(c: char) {
    var n := c as int;
    9 <= n <= 13 || 28 <= n <= 32 || n == 0x85 || n == 0xA0 || n == 0x1680 || 0x2000 <= n <= 0x200A
    || n == 0x2028 || n == 0x2029 || n == 0x202F || n == 0x205F || n == 0x3000
  }

  function Stripped(s: string): string
    decreases |s|
  {
    if s != [] && Space(s[0]) then Stripped(s[1..])
    else if s != [] && Space(s[|s| - 1]) then Stripped(s[..|s| - 1])
    else s
  }

  lemma {:induction false} BlankIff(s: string)
    ensures Stripped(s) == [] <==> forall i :: 0 <= i < |s| ==> Space(s[i])
    decreases |s|
  {
    if s != [] && Space(s[0]) {
      BlankIff(s[1..]);
      assert forall i :: 1 <= i < |s| ==> s[i] == s[1..][i - 1];
    } else if s != [] && Space(s[|s| - 1]) {
      BlankIff(s[..|s| - 1]);
      assert forall i :: 0 <= i < |s| - 1 ==> s[i] == s[..|s| - 1][i];
    }
  }

  /** What is kept is the stretch between the outer spaces. */
  ghost predicate IsTrimmed(s: string, kept: string, lo: int, hi: int) {
    && 0 <= lo <= hi <= |s| && kept == s[lo..hi]
    && (forall i :: 0 <= i < lo || hi <= i < |s| ==> Space(s[i]))
    && (lo < hi ==> !Space(s[lo]) && !Space(s[hi - 1]))
  }

  lemma {:induction false} StrippedIsTrimmed(s: string)
    ensures exists lo, hi :: IsTrimmed(s, Stripped(s), lo, hi)
    decreases |s|
  {
    hide Space;
    if s != [] && Space(s[0]) {
      StrippedIsTrimmed(s[1..]);
      var lo, hi :| IsTrimmed(s[1..], Stripped(s[1..]), lo, hi);
      assert s[1..][lo..hi] == s[lo + 1..hi + 1];
      assert forall i :: 1 <= i < |s| ==> s[i] == s[1..][i - 1];
      assert IsTrimmed(s, Stripped(s), lo + 1, hi + 1);
    } else if s != [] && Space(s[|s| - 1]) {
      var shorter := s[..|s| - 1];
      StrippedIsTrimmed(shorter);
      var lo, hi :| IsTrimmed(shorter, Stripped(shorter), lo, hi);
      assert shorter[lo..hi] == s[lo..hi];
      assert forall i :: 0 <= i < |s| - 1 ==> s[i] == shorter[i];
      assert IsTrimmed(s, Stripped(s), lo, hi);
    } else {
      assert s[0..|s|] == s;
      assert IsTrimmed(s, Stripped(s), 0, |s|);
    }
  }
}
