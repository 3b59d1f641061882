/** Turn-aligned chunk packing (eval/run_system_benchmark.py). */
module Packing {

  function Total(lines: seq<string>): nat {
    if lines == [] then 0 else Total(lines[..|lines| - 1]) + |lines[|lines| - 1]|
  }

  /** The first chunk followed by every later chunk without its first line. */
  function Joined(chunks: seq<seq<string>>): seq<string> {
    if chunks == [] then []
    else if |chunks| == 1 then chunks[0]
    else
      var last := chunks[|chunks| - 1];
      Joined(chunks[..|chunks| - 1]) + (if last == [] then [] else last[1..])
  }

  /** The fewest lines the i-th chunk can have: its own, after the one carried over. */
  function Least(i: nat): nat { if i == 0 then 1 else 2 }

  /** Chunk i is long enough to exist, within the limit unless it has no line to spare. */
  predicate Fits(chunks: seq<seq<string>>, limit: int, i: nat)
    requires i < |chunks|
  {
    |chunks[i]| >= Least(i) && (|chunks[i]| > Least(i) ==> Total(chunks[i]) <= limit)
  }

  /** The next chunk starts with this one's last line, and this one had no room for the line after it. */
  predicate Follows(chunks: seq<seq<string>>, limit: int, i: nat)
    requires i + 1 < |chunks|
  {
    && |chunks[i]| >= 1 && |chunks[i + 1]| >= 2
    && chunks[i + 1][0] == chunks[i][|chunks[i]| - 1]
    && Total(chunks[i]) + |chunks[i + 1][1]| > limit
  }

  ghost predicate Packed(chunks: seq<seq<string>>, limit: int) {
    && (forall i :: 0 <= i < |chunks| ==> Fits(chunks, limit, i))
    && (forall i :: 0 <= i < |chunks| - 1 ==> Follows(chunks, limit, i))
  }

  /** Loses and reorders nothing, shares one line between neighbours, and goes over the limit only in a chunk with no
      line to spare; every chunk is as long as the limit allows. */
  method PackTurns(lines: seq<string>, limit: int) returns (chunks: seq<seq<string>>)
    ensures Joined(chunks) == lines && Packed(chunks, limit)
    ensures chunks == [] <==> lines == []
  {
    hide Packed, Joined, Total;
    chunks := [];
    var current, currentLen := [], 0;
    assert Total(current) == 0 by { TotalNothing(); }
    for i := 0 to |lines|
      invariant current == [] <==> i == 0
      invariant current == [] ==> chunks == []
      invariant currentLen == Total(current)
      invariant current != [] ==> Packed(chunks + [current], limit) && Joined(chunks + [current]) == lines[..i]
    {
      var line := lines[i];
      assert lines[..i + 1] == lines[..i] + [line];
      ghost var before, was := chunks, current;
      if current != [] && currentLen + |line| > limit {
        chunks := chunks + [current];
        current, currentLen := [current[|current| - 1]], |current[|current| - 1]|;
        Turn(before, was, line, limit);
        TotalMore([], current[0]);
        assert current + [line] == [was[|was| - 1], line] && [] + current == current;
        TotalNothing();
      } else if current == [] {
        Begin(line, limit);
        assert current + [line] == [line] && chunks == [];
      } else {
        Grow(chunks, current, line, limit);
      }
      TotalMore(current, line);
      current, currentLen := current + [line], currentLen + |line|;
      assert chunks == [] ==> chunks + [current] == [current];
    }
    assert lines[..|lines|] == lines;
    NothingPacked(limit);
    if current != [] { chunks := chunks + [current]; }
  }

  lemma TotalNothing()
    ensures Total([]) == 0
  {
  }

  lemma NothingPacked(limit: int)
    ensures Packed([], limit) && Joined([]) == []
  {
  }

  lemma TotalMore(lines: seq<string>, line: string)
    ensures Total(lines + [line]) == Total(lines) + |line|
  {
    assert (lines + [line])[..|lines|] == lines;
  }

  lemma Begin(line: string, limit: int)
    ensures Packed([[line]], limit) && Joined([[line]]) == [line]
  {
    assert Fits([[line]], limit, 0);
  }

  lemma Grow(chunks: seq<seq<string>>, current: seq<string>, line: string, limit: int)
    requires current != [] && Packed(chunks + [current], limit) && Total(current) + |line| <= limit
    ensures Packed(chunks + [current + [line]], limit)
    ensures Joined(chunks + [current + [line]]) == Joined(chunks + [current]) + [line]
  {
    var was, now := chunks + [current], chunks + [current + [line]];
    var n := |chunks|;
    assert (current + [line])[..|current|] == current;
    assert was[..n] == chunks && now[..n] == chunks;
    forall i | 0 <= i <= n ensures Fits(now, limit, i) { assert Fits(was, limit, i); }
    forall i | 0 <= i < n ensures Follows(now, limit, i) { assert Follows(was, limit, i); }
    if n > 0 { assert (current + [line])[1..] == current[1..] + [line]; }
  }

  lemma Turn(chunks: seq<seq<string>>, current: seq<string>, line: string, limit: int)
    requires current != [] && Packed(chunks + [current], limit) && Total(current) + |line| > limit
    ensures var next := [current[|current| - 1], line];
            Packed(chunks + [current] + [next], limit) && Joined(chunks + [current] + [next]) == Joined(chunks + [current]) + [line]
  {
    var next := [current[|current| - 1], line];
    var was, now := chunks + [current], chunks + [current] + [next];
    assert now[..|was|] == was;
    forall i | 0 <= i < |now| ensures Fits(now, limit, i) { if i < |was| { assert Fits(was, limit, i); } }
    forall i | 0 <= i < |was| ensures Follows(now, limit, i) { if i < |was| - 1 { assert Follows(was, limit, i); } }
    assert next[1..] == [line];
  }

  // ── the packing is the only one ────────────────────────────────────────────

  /** Where chunk i starts in the joined lines. */
  function Start(chunks: seq<seq<string>>, i: nat): int
    requires i <= |chunks|
  {
    if i == 0 then 0 else Start(chunks, i - 1) + |chunks[i - 1]| - 1
  }

  lemma {:induction false} ChunkIsStretch(chunks: seq<seq<string>>, limit: int, i: nat)
    requires Packed(chunks, limit) && i < |chunks|
    ensures var s := Start(chunks, i);
            0 <= s && s + |chunks[i]| <= |Joined(chunks)| && chunks[i] == Joined(chunks)[s..s + |chunks[i]|]
    ensures i == |chunks| - 1 ==> Start(chunks, i) + |chunks[i]| == |Joined(chunks)|
    decreases |chunks|, i
  {
    var n := |chunks| - 1;
    assert Fits(chunks, limit, i);
    if n > 0 {
      var shorter := chunks[..n];
      PrefixPacked(chunks, limit, n);
      if i < n {
        ChunkIsStretch(shorter, limit, i);
        StartOfPrefix(chunks, n, i);
      } else {
        ChunkIsStretch(shorter, limit, n - 1);
        StartOfPrefix(chunks, n, n - 1);
        assert Follows(chunks, limit, n - 1);
        var last, lines := chunks[n], Joined(shorter);
        assert Fits(chunks, limit, n - 1);
        assert lines[|lines| - 1] == chunks[n - 1][|chunks[n - 1]| - 1];
        assert Start(chunks, n) == |lines| - 1;
        assert last == [last[0]] + last[1..];
      }
    }
  }

  lemma PrefixPacked(chunks: seq<seq<string>>, limit: int, n: nat)
    requires Packed(chunks, limit) && n <= |chunks|
    ensures Packed(chunks[..n], limit)
  {
    forall i | 0 <= i < n ensures Fits(chunks[..n], limit, i) { assert Fits(chunks, limit, i); }
    forall i | 0 <= i < n - 1 ensures Follows(chunks[..n], limit, i) { assert Follows(chunks, limit, i); }
  }

  lemma {:induction false} StartOfPrefix(chunks: seq<seq<string>>, n: nat, i: nat)
    requires i <= n <= |chunks|
    ensures Start(chunks[..n], i) == Start(chunks, i)
    decreases i
  {
    if i > 0 { StartOfPrefix(chunks, n, i - 1); }
  }

  lemma {:induction false} SamePrefixSameStart(a: seq<seq<string>>, b: seq<seq<string>>, i: nat)
    requires i <= |a| && i <= |b| && a[..i] == b[..i]
    ensures Start(a, i) == Start(b, i)
  {
    StartOfPrefix(a, i, i);
    StartOfPrefix(b, i, i);
  }

  lemma {:induction false} TotalGrows(lines: seq<string>, n: nat)
    requires n < |lines|
    ensures Total(lines) >= Total(lines[..n]) + |lines[n]|
  {
    if n < |lines| - 1 {
      TotalGrows(lines[..|lines| - 1], n);
      assert lines[..|lines| - 1][..n] == lines[..n];
    }
  }

  lemma NextLine(a: seq<seq<string>>, limit: int, i: nat)
    requires Packed(a, limit) && i < |a| - 1
    ensures |a[i + 1]| >= 2 && 0 <= Start(a, i) && Start(a, i) + |a[i]| < |Joined(a)|
    ensures a[i + 1][1] == Joined(a)[Start(a, i) + |a[i]|]
    ensures Total(a[i]) + |a[i + 1][1]| > limit
  {
    hide Joined, Total;
    ChunkIsStretch(a, limit, i);
    ChunkIsStretch(a, limit, i + 1);
    assert Follows(a, limit, i);
  }

  /** A chunk cannot be shorter than the chunk another packing has at the same place. */
  lemma NotShorter(a: seq<seq<string>>, b: seq<seq<string>>, limit: int, i: nat)
    requires Packed(a, limit) && Packed(b, limit) && Joined(a) == Joined(b) && i < |a| && i < |b| && a[..i] == b[..i]
    ensures |a[i]| >= |b[i]|
  {
    hide Joined, Total, Start, Follows, Packed, Fits;
    FitsAt(b, limit, i);
    FitsAt(a, limit, i);
    SamePrefixSameStart(a, b, i);
    ChunkIsStretch(a, limit, i);
    ChunkIsStretch(b, limit, i);
    if |a[i]| < |b[i]| {
      NextLine(a, limit, i);
      Overfull(Joined(a), Start(a, i), a[i], b[i]);
    }
  }

  lemma FitsAt(a: seq<seq<string>>, limit: int, i: nat)
    requires Packed(a, limit) && i < |a|
    ensures |a[i]| >= Least(i) && (|a[i]| > Least(i) ==> Total(a[i]) <= limit)
  {
    assert Fits(a, limit, i);
  }

  lemma Overfull(lines: seq<string>, s: nat, short: seq<string>, long: seq<string>)
    requires |short| < |long| && s + |long| <= |lines|
    requires short == lines[s..s + |short|] && long == lines[s..s + |long|]
    ensures Total(long) >= Total(short) + |lines[s + |short|]|
  {
    assert long[..|short|] == short;
    TotalGrows(long, |short|);
  }

  lemma NothingJoined(b: seq<seq<string>>, limit: int)
    requires Packed(b, limit) && Joined(b) == []
    ensures b == []
  {
    hide Joined;
    if b != [] {
      ChunkIsStretch(b, limit, 0);
      FitsAt(b, limit, 0);
    }
  }

  lemma NoLonger(a: seq<seq<string>>, b: seq<seq<string>>, limit: int)
    requires Packed(a, limit) && Packed(b, limit) && Joined(a) == Joined(b) && |a| <= |b| && b[..|a|] == a
    ensures a == b
  {
    hide Total, Start, Packed, Joined;
    if a == [] {
      NothingPacked(limit);
      NothingJoined(b, limit);
    } else if |a| < |b| {
      var n := |a|;
      ChunkIsStretch(a, limit, n - 1);
      StartOfPrefix(b, n, n - 1);
      NextLine(b, limit, n - 1);
    }
  }

  lemma {:induction false} SameFrom(a: seq<seq<string>>, b: seq<seq<string>>, limit: int, i: nat)
    requires Packed(a, limit) && Packed(b, limit) && Joined(a) == Joined(b)
    requires i <= |a| && i <= |b| && a[..i] == b[..i]
    ensures a == b
    decreases |a| - i
  {
    hide Packed, Joined;
    if i < |a| && i < |b| {
      NotShorter(a, b, limit, i);
      NotShorter(b, a, limit, i);
      SamePrefixSameStart(a, b, i);
      ChunkIsStretch(a, limit, i);
      ChunkIsStretch(b, limit, i);
      assert a[..i + 1] == a[..i] + [a[i]] && b[..i + 1] == b[..i] + [b[i]];
      SameFrom(a, b, limit, i + 1);
    } else if i == |b| {
      assert a[..i] == b;
      NoLonger(b, a, limit);
    } else {
      assert b[..i] == a;
      NoLonger(a, b, limit);
    }
  }

  /** Greedy packing is the only packing of the lines with these properties. */
  lemma PackingIsUnique(a: seq<seq<string>>, b: seq<seq<string>>, limit: int)
    requires Packed(a, limit) && Packed(b, limit) && Joined(a) == Joined(b)
    ensures a == b
  {
    SameFrom(a, b, limit, 0);
  }
}
