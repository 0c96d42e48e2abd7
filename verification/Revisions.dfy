/** Counting PDF revisions: the chunked scan with carry finds every occurrence
    of the end-of-revision token exactly once, wherever the chunks are cut. */
module Revisions {

  type Byte = b: int | 0 <= b < 256

  /** "startxref" */
  const TOKEN: seq<Byte> := [115, 116, 97, 114, 116, 120, 114, 101, 102]

  predicate TokenAt(s: seq<Byte>, i: int) {
    0 <= i <= |s| - |TOKEN| && s[i..i + |TOKEN|] == TOKEN
  }

  /** How many positions of `s` the token starts at. */
  function Occurrences(s: seq<Byte>): nat {
    if |s| < |TOKEN| then 0 else (if TokenAt(s, 0) then 1 else 0) + Occurrences(s[1..])
  }

  /** String#scan: left to right, each match taken off before the next search. */
  function ScanCount(s: seq<Byte>): nat {
    if |s| < |TOKEN| then 0
    else if TokenAt(s, 0) then 1 + ScanCount(s[|TOKEN|..])
    else ScanCount(s[1..])
  }

  // ---- The count is the number of positions

  function Positions(s: seq<Byte>, end: nat): set<nat> {
    set i: nat | i < end && TokenAt(s, i)
  }

  function CountBelow(s: seq<Byte>, end: nat): nat {
    if end == 0 then 0 else CountBelow(s, end - 1) + (if TokenAt(s, end - 1) then 1 else 0)
  }

  lemma {:induction false} CountIsSize(s: seq<Byte>, end: nat)
    ensures CountBelow(s, end) == |Positions(s, end)|
  {
    if end > 0 {
      CountIsSize(s, end - 1);
      assert Positions(s, end) == Positions(s, end - 1) + (if TokenAt(s, end - 1) then {end - 1} else {});
    }
  }

  lemma {:induction false} CountFrom(s: seq<Byte>, i: nat)
    requires i <= |s|
    ensures Occurrences(s[i..]) + CountBelow(s, i) == CountBelow(s, |s|)
    decreases |s| - i
  {
    if i < |s| {
      CountFrom(s, i + 1);
      assert s[i..][1..] == s[i + 1..];
      if |s[i..]| >= |TOKEN| {
        assert s[i..][0..|TOKEN|] == s[i..i + |TOKEN|];
      }
    }
  }

  /** Occurrences is the size of the set of positions the token starts at. */
  lemma OccurrencesCountPositions(s: seq<Byte>)
    ensures Occurrences(s) == |Positions(s, |s|)|
  {
    CountFrom(s, 0);
    CountIsSize(s, |s|);
    assert s[0..] == s;
  }

  // ---- The token has no border, so non-overlapping search misses nothing

  lemma NoOverlap(s: seq<Byte>, i: int)
    requires TokenAt(s, 0) && 0 < i < |TOKEN|
    ensures !TokenAt(s, i)
  {
    assert s[i] == s[0..|TOKEN|][i] == TOKEN[i];
    assert i + |TOKEN| <= |s| ==> s[i] == s[i..i + |TOKEN|][0];
  }

  /** Nothing starts in the rest of a match. */
  lemma {:induction false} SkipMatch(s: seq<Byte>, i: nat)
    requires TokenAt(s, 0) && 1 <= i <= |TOKEN|
    ensures Occurrences(s[i..]) == Occurrences(s[|TOKEN|..])
    decreases |TOKEN| - i
  {
    if i < |TOKEN| {
      assert s[i..][1..] == s[i + 1..];
      SkipMatch(s, i + 1);
      NoOverlap(s, i);
      if |s[i..]| >= |TOKEN| {
        assert s[i..][0..|TOKEN|] == s[i..i + |TOKEN|];
      } else {
        assert |s[|TOKEN|..]| < |TOKEN|;
      }
    }
  }

  lemma {:induction false} ScanFindsEverything(s: seq<Byte>)
    ensures ScanCount(s) == Occurrences(s)
    decreases |s|
  {
    if |s| >= |TOKEN| {
      if TokenAt(s, 0) {
        ScanFindsEverything(s[|TOKEN|..]);
        SkipMatch(s, 1);
      } else {
        ScanFindsEverything(s[1..]);
      }
    }
  }

  // ---- Chunks

  /** window.byteslice(-8..) || window */
  function Tail(s: seq<Byte>): seq<Byte> {
    if |s| < |TOKEN| - 1 then s else s[|s| - (|TOKEN| - 1)..]
  }

  /** What `next` adds is exactly what a window over the last eight bytes sees. */
  lemma {:induction false} WindowSeesTheRest(read: seq<Byte>, next: seq<Byte>)
    ensures Occurrences(read + next) == Occurrences(read) + Occurrences(Tail(read) + next)
  {
    if |read| >= |TOKEN| {
      WindowSeesTheRest(read[1..], next);
      assert (read + next)[1..] == read[1..] + next;
      assert (read + next)[0..|TOKEN|] == read[0..|TOKEN|];
      assert Tail(read[1..]) == Tail(read);
    } else if |read| == |TOKEN| - 1 {
      assert Tail(read) == read;
    }
  }

  lemma TailOfWindow(read: seq<Byte>, next: seq<Byte>)
    ensures Tail(Tail(read) + next) == Tail(read + next)
  {
    var (window, whole) := (Tail(read) + next, read + next);
    if |window| >= |TOKEN| - 1 {
      var skipped := |whole| - |window|;
      assert forall i :: 0 <= i < |window| ==> window[i] == whole[skipped + i];
      assert Tail(window) == Tail(whole);
    }
  }

  /** revision_count, reading `chunkSize` bytes at a time until the end of the file. */
  method RevisionCount(file: seq<Byte>, chunkSize: nat) returns (count: nat)
    requires chunkSize >= 1
    ensures count == Occurrences(file)
  {
    count := 0;
    var carry: seq<Byte>, pos := [], 0;
    while pos < |file|
      invariant pos <= |file|
      invariant carry == Tail(file[..pos])
      invariant count == Occurrences(file[..pos])
    {
      var end := if chunkSize < |file| - pos then pos + chunkSize else |file|;
      var chunk := file[pos..end];
      var window := carry + chunk;
      count := count + ScanCount(window);
      ScanFindsEverything(window);
      WindowSeesTheRest(file[..pos], chunk);
      TailOfWindow(file[..pos], chunk);
      assert file[..pos] + chunk == file[..end];
      carry := if |window| < |TOKEN| - 1 then window else window[|window| - (|TOKEN| - 1)..];
      pos := end;
    }
    assert file[..pos] == file;
  }
}
