/** The similarity ratio `difflib.SequenceMatcher(None, a, b).ratio()` that the
    fuzzy fallback of the guess evaluator compares against 0.85: the total
    length M of the matching blocks found greedily, longest block first. */
module Similarity {

  /** A matching block: `a[i..i+k] == b[j..j+k]`. */
  datatype Block = Block(i: nat, j: nat, k: nat)

  predicate InRange(a: seq<char>, b: seq<char>, alo: nat, ahi: nat, blo: nat, bhi: nat) {
    alo <= ahi <= |a| && blo <= bhi <= |b|
  }

  /** Length of the longest common run of `a[i..ahi]` and `b[j..bhi]` that starts at `(i, j)`. */
  function RunLen(a: seq<char>, b: seq<char>, i: nat, ahi: nat, j: nat, bhi: nat): (k: nat)
    requires i <= ahi <= |a| && j <= bhi <= |b|
    ensures i + k <= ahi && j + k <= bhi
    ensures forall t :: i <= t < i + k ==> a[t] == b[j + (t - i)]
    ensures k > 0 ==> a[i] == b[j]
    ensures i + k == ahi || j + k == bhi || a[i + k] != b[j + k]
    decreases ahi - i
  {
    if i < ahi && j < bhi && a[i] == b[j] then 1 + RunLen(a, b, i + 1, ahi, j + 1, bhi) else 0
  }

  /** `RunLen` seen from the start position alone; the predicates below quantify
      over start positions through it. */
  function RunAt(a: seq<char>, b: seq<char>, ahi: nat, bhi: nat, i: nat, j: nat): nat
    requires i <= ahi <= |a| && j <= bhi <= |b|
  {
    RunLen(a, b, i, ahi, j, bhi)
  }

  /** Position `(i, j)` comes before `(i2, j2)` in the order difflib breaks ties in:
      earlier in `a`, then earlier in `b`. */
  predicate Before(i: nat, j: nat, i2: nat, j2: nat) {
    i < i2 || (i == i2 && j < j2)
  }

  /** What the scan has established about `best` once every position before `(i, j)` was seen. */
  predicate ScanState(a: seq<char>, b: seq<char>, alo: nat, ahi: nat, blo: nat, bhi: nat, i: nat, j: nat, best: Block)
    requires InRange(a, b, alo, ahi, blo, bhi)
  {
    (best.k == 0 ==> best == Block(alo, blo, 0)) &&
    (best.k > 0 ==>
       alo <= best.i < ahi && blo <= best.j < bhi && Before(best.i, best.j, i, j) &&
       RunAt(a, b, ahi, bhi, best.i, best.j) == best.k) &&
    (forall i2, j2 :: alo <= i2 < ahi && blo <= j2 < bhi && Before(i2, j2, i, j) ==>
       RunAt(a, b, ahi, bhi, i2, j2) <= best.k &&
       (RunAt(a, b, ahi, bhi, i2, j2) == best.k && best.k > 0 ==> !Before(i2, j2, best.i, best.j)))
  }

  /** The answer of `find_longest_match`: the longest block, earliest in `a`, then earliest in `b`. */
  predicate IsLongestMatch(a: seq<char>, b: seq<char>, alo: nat, ahi: nat, blo: nat, bhi: nat, m: Block)
    requires InRange(a, b, alo, ahi, blo, bhi)
  {
    (m.k == 0 ==> m.i == alo && m.j == blo) &&
    (m.k > 0 ==>
       alo <= m.i < ahi && blo <= m.j < bhi && RunAt(a, b, ahi, bhi, m.i, m.j) == m.k) &&
    (forall i2, j2 :: alo <= i2 < ahi && blo <= j2 < bhi ==>
       RunAt(a, b, ahi, bhi, i2, j2) <= m.k &&
       (RunAt(a, b, ahi, bhi, i2, j2) == m.k && m.k > 0 ==> !Before(i2, j2, m.i, m.j)))
  }

  /** Once every position has been seen, the scan's best block is the answer. */
  lemma ScanDone(a: seq<char>, b: seq<char>, alo: nat, ahi: nat, blo: nat, bhi: nat, j: nat, best: Block)
    requires InRange(a, b, alo, ahi, blo, bhi)
    requires ScanState(a, b, alo, ahi, blo, bhi, ahi, j, best)
    ensures IsLongestMatch(a, b, alo, ahi, blo, bhi, best)
  {
  }

  /** Finishing a row: `(i, bhi)` and `(i + 1, blo)` have the same positions before them. */
  lemma ScanNextRow(a: seq<char>, b: seq<char>, alo: nat, ahi: nat, blo: nat, bhi: nat, i: nat, best: Block)
    requires InRange(a, b, alo, ahi, blo, bhi) && alo <= i < ahi
    requires ScanState(a, b, alo, ahi, blo, bhi, i, bhi, best)
    ensures ScanState(a, b, alo, ahi, blo, bhi, i + 1, blo, best)
  {
  }

  /** Seeing position `(i, j)`: a strictly longer run there replaces the best block. */
  lemma ScanVisit(a: seq<char>, b: seq<char>, alo: nat, ahi: nat, blo: nat, bhi: nat, i: nat, j: nat, best: Block)
    requires InRange(a, b, alo, ahi, blo, bhi) && alo <= i < ahi && blo <= j < bhi
    requires ScanState(a, b, alo, ahi, blo, bhi, i, j, best)
    ensures var k := RunLen(a, b, i, ahi, j, bhi);
      ScanState(a, b, alo, ahi, blo, bhi, i, j + 1, if k > best.k then Block(i, j, k) else best)
  {
    var k := RunLen(a, b, i, ahi, j, bhi);
    var next := if k > best.k then Block(i, j, k) else best;
    forall i2, j2 | alo <= i2 < ahi && blo <= j2 < bhi && Before(i2, j2, i, j + 1)
      ensures RunLen(a, b, i2, ahi, j2, bhi) <= next.k
      ensures RunLen(a, b, i2, ahi, j2, bhi) == next.k && next.k > 0 ==> !Before(i2, j2, next.i, next.j)
    {
      if !Before(i2, j2, i, j) {
        assert i2 == i && j2 == j;
      }
    }
  }

  /** Row-major scan over every start position, keeping the first strictly longer run. */
  function Scan(a: seq<char>, b: seq<char>, alo: nat, ahi: nat, blo: nat, bhi: nat, i: nat, j: nat, best: Block): (m: Block)
    requires InRange(a, b, alo, ahi, blo, bhi)
    requires alo <= i <= ahi && blo <= j <= bhi
    requires ScanState(a, b, alo, ahi, blo, bhi, i, j, best)
    ensures IsLongestMatch(a, b, alo, ahi, blo, bhi, m)
    decreases ahi - i, bhi - j
  {
    if i == ahi then
      ScanDone(a, b, alo, ahi, blo, bhi, j, best);
      best
    else if j == bhi then
      ScanNextRow(a, b, alo, ahi, blo, bhi, i, best);
      Scan(a, b, alo, ahi, blo, bhi, i + 1, blo, best)
    else
      var k := RunLen(a, b, i, ahi, j, bhi);
      ScanVisit(a, b, alo, ahi, blo, bhi, i, j, best);
      Scan(a, b, alo, ahi, blo, bhi, i, j + 1, if k > best.k then Block(i, j, k) else best)
  }

  /** `SequenceMatcher.find_longest_match(alo, ahi, blo, bhi)` with no junk. */
  function LongestMatch(a: seq<char>, b: seq<char>, alo: nat, ahi: nat, blo: nat, bhi: nat): (m: Block)
    requires InRange(a, b, alo, ahi, blo, bhi)
    ensures IsLongestMatch(a, b, alo, ahi, blo, bhi, m)
    ensures m.i + m.k <= ahi && m.j + m.k <= bhi
  {
    Scan(a, b, alo, ahi, blo, bhi, alo, blo, Block(alo, blo, 0))
  }

  /** Sum of the sizes of the blocks `get_matching_blocks` finds in the given ranges:
      the longest block, then recursively the parts left of it and right of it. */
  function MatchTotal(a: seq<char>, b: seq<char>, alo: nat, ahi: nat, blo: nat, bhi: nat): (total: nat)
    requires InRange(a, b, alo, ahi, blo, bhi)
    ensures total <= ahi - alo && total <= bhi - blo
    decreases (ahi - alo) + (bhi - blo)
  {
    var m := LongestMatch(a, b, alo, ahi, blo, bhi);
    if m.k == 0 then 0
    else
      m.k + MatchTotal(a, b, alo, m.i, blo, m.j)
          + MatchTotal(a, b, m.i + m.k, ahi, m.j + m.k, bhi)
  }

  /** M for the whole of both strings; it never exceeds the shorter string. */
  function Matches(a: seq<char>, b: seq<char>): (m: nat)
    ensures m <= |a| && m <= |b|
  {
    MatchTotal(a, b, 0, |a|, 0, |b|)
  }

  /** `ratio() >= 0.85`, with ratio = 2M / (|a| + |b|), compared in integers.
      Passing needs comparable lengths: the longer string is at most 23/17
      times the shorter, because M cannot exceed the shorter one. */
  predicate CloseEnough(a: seq<char>, b: seq<char>)
    ensures CloseEnough(a, b) ==> 17 * |a| <= 23 * |b| && 17 * |b| <= 23 * |a|
  {
    40 * Matches(a, b) >= 17 * (|a| + |b|)
  }

  lemma {:induction false} RunLenSelf(a: seq<char>, i: nat)
    requires i <= |a|
    ensures RunLen(a, a, i, |a|, i, |a|) == |a| - i
    decreases |a| - i
  {
    if i < |a| {
      RunLenSelf(a, i + 1);
    }
  }

  /** A string matches itself completely: M(a, a) = |a|, so the ratio is 1. */
  lemma SelfMatch(a: seq<char>)
    ensures Matches(a, a) == |a|
  {
    var n := |a|;
    if n > 0 {
      var m := LongestMatch(a, a, 0, n, 0, n);
      RunLenSelf(a, 0);
      assert RunAt(a, a, n, n, 0, 0) <= m.k;
      assert m.i == 0 && m.j == 0 && m.k == n;
      assert MatchTotal(a, a, 0, 0, 0, 0) == 0;
      assert MatchTotal(a, a, n, n, n, n) == 0;
    }
  }

  /** Identical non-empty strings always pass the 0.85 threshold. */
  lemma SelfCloseEnough(a: seq<char>)
    ensures CloseEnough(a, a)
  {
    SelfMatch(a);
  }

  /** Strings with no character in common have M = 0 and never pass, unless both are empty. */
  lemma {:induction false} DisjointNoMatch(a: seq<char>, b: seq<char>)
    requires forall x, y :: 0 <= x < |a| && 0 <= y < |b| ==> a[x] != b[y]
    ensures Matches(a, b) == 0
    ensures CloseEnough(a, b) <==> a == [] && b == []
  {
    var m := LongestMatch(a, b, 0, |a|, 0, |b|);
  }
}
