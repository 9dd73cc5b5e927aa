/**
 * The part of Python's `difflib.SequenceMatcher(None, a, b)` that `ratio()` depends on:
 * the number of characters in the matching blocks. `find_longest_match` picks the longest
 * common block, the earliest in `a` and then in `b` among equally long ones, and
 * `get_matching_blocks` recurses on the pieces to its left and to its right.
 * With no junk function the block found is already maximal, so the junk-extension
 * steps of `find_longest_match` change nothing.
 *
 * The functions carry only their bounds; what the blocks are (common, and longest) is
 * stated by the lemmas after them.
 */
module SequenceMatcher {

  /** `a[i..i + size] == b[j..j + size]`, as `find_longest_match` returns it. */
  datatype Block = Block(i: nat, j: nat, size: nat)

  /** Length of the common run of `a[i..ahi]` and `b[j..bhi]` starting at `i` and `j`. */
  function RunLen(a: string, b: string, i: nat, j: nat, ahi: nat, bhi: nat): (k: nat)
    requires ahi <= |a| && bhi <= |b|
    ensures k > 0 ==> i + k <= ahi && j + k <= bhi
    decreases ahi - i
  {
    if i < ahi && j < bhi && a[i] == b[j] then 1 + RunLen(a, b, i + 1, j + 1, ahi, bhi) else 0
  }

  /** The run is common to both strings and cannot be extended. */
  lemma {:induction false} RunLenCommon(a: string, b: string, i: nat, j: nat, ahi: nat, bhi: nat)
    requires ahi <= |a| && bhi <= |b|
    ensures var k := RunLen(a, b, i, j, ahi, bhi);
      && (k > 0 ==> a[i..i + k] == b[j..j + k])
      && (i + k < ahi && j + k < bhi ==> a[i + k] != b[j + k])
    decreases ahi - i
  {
    if i < ahi && j < bhi && a[i] == b[j] {
      RunLenCommon(a, b, i + 1, j + 1, ahi, bhi);
      var rest := RunLen(a, b, i + 1, j + 1, ahi, bhi);
      assert a[i..i + 1 + rest] == [a[i]] + a[i + 1..i + 1 + rest];
      assert b[j..j + 1 + rest] == [b[j]] + b[j + 1..j + 1 + rest];
    }
  }

  /** A common block is never longer than the run starting where it starts. */
  lemma {:induction false} RunLenAtLeast(a: string, b: string, i: nat, j: nat, ahi: nat, bhi: nat, p: nat)
    requires ahi <= |a| && bhi <= |b| && i + p <= ahi && j + p <= bhi
    requires a[i..i + p] == b[j..j + p]
    ensures RunLen(a, b, i, j, ahi, bhi) >= p
    decreases p
  {
    if p > 0 {
      assert a[i] == a[i..i + p][0] == b[j..j + p][0] == b[j];
      assert a[i + 1..i + p] == a[i..i + p][1..];
      assert b[j + 1..j + p] == b[j..j + p][1..];
      RunLenAtLeast(a, b, i + 1, j + 1, ahi, bhi, p - 1);
    }
  }

  /** The block lies within `a[alo..ahi]` and `b[blo..bhi]`. */
  predicate InRange(alo: nat, ahi: nat, blo: nat, bhi: nat, m: Block) {
    alo <= m.i && m.i + m.size <= ahi && blo <= m.j && m.j + m.size <= bhi
  }

  /** Scan the starts `(i, j')` for `j'` in `[j, bhi)`, keeping the first strictly longer run. */
  function ScanRow(a: string, b: string, i: nat, j: nat, ahi: nat, bhi: nat, best: Block): (m: Block)
    requires i < ahi <= |a| && bhi <= |b|
    ensures m == best || (m.i == i && j <= m.j < bhi && m.size == RunLen(a, b, i, m.j, ahi, bhi) && m.size > best.size)
    decreases bhi - j
  {
    if j >= bhi then best
    else
      var k := RunLen(a, b, i, j, ahi, bhi);
      ScanRow(a, b, i, j + 1, ahi, bhi, if k > best.size then Block(i, j, k) else best)
  }

  /** Scan the rows `i'` in `[i, ahi)`, each over `[blo, bhi)`. */
  function Scan(a: string, b: string, i: nat, ahi: nat, blo: nat, bhi: nat, best: Block): (m: Block)
    requires ahi <= |a| && bhi <= |b|
    ensures m == best || (i <= m.i < ahi && blo <= m.j < bhi && m.size == RunLen(a, b, m.i, m.j, ahi, bhi) && m.size > best.size)
    decreases ahi - i
  {
    if i >= ahi then best
    else Scan(a, b, i + 1, ahi, blo, bhi, ScanRow(a, b, i, blo, ahi, bhi, best))
  }

  /** `find_longest_match(alo, ahi, blo, bhi)` with no junk: `(alo, blo, 0)` when nothing matches. */
  function LongestMatch(a: string, b: string, alo: nat, ahi: nat, blo: nat, bhi: nat): (m: Block)
    requires alo <= ahi <= |a| && blo <= bhi <= |b|
    ensures InRange(alo, ahi, blo, bhi, m)
  {
    Scan(a, b, alo, ahi, blo, bhi, Block(alo, blo, 0))
  }

  /** A row scan ends with a block at least as long as every run it passed. */
  lemma {:induction false} ScanRowMaximal(a: string, b: string, i: nat, j: nat, ahi: nat, bhi: nat, best: Block, j': nat)
    requires i < ahi <= |a| && bhi <= |b| && j <= j' < bhi
    ensures RunLen(a, b, i, j', ahi, bhi) <= ScanRow(a, b, i, j, ahi, bhi, best).size
    ensures best.size <= ScanRow(a, b, i, j, ahi, bhi, best).size
    decreases bhi - j
  {
    var k := RunLen(a, b, i, j, ahi, bhi);
    var next := if k > best.size then Block(i, j, k) else best;
    if j + 1 < bhi {
      ScanRowMaximal(a, b, i, j + 1, ahi, bhi, next, if j' == j then j + 1 else j');
    } else {
      assert ScanRow(a, b, i, j + 1, ahi, bhi, next) == next;
    }
  }

  /** A row scan never shortens the best block so far. */
  lemma {:induction false} ScanRowGrows(a: string, b: string, i: nat, j: nat, ahi: nat, bhi: nat, best: Block)
    requires i < ahi <= |a| && bhi <= |b|
    ensures best.size <= ScanRow(a, b, i, j, ahi, bhi, best).size
    decreases bhi - j
  {
    if j < bhi {
      var k := RunLen(a, b, i, j, ahi, bhi);
      ScanRowGrows(a, b, i, j + 1, ahi, bhi, if k > best.size then Block(i, j, k) else best);
    }
  }

  /** The whole scan ends with a block at least as long as every run in its range. */
  lemma {:induction false} ScanMaximal(a: string, b: string, i: nat, ahi: nat, blo: nat, bhi: nat, best: Block, i': nat, j': nat)
    requires ahi <= |a| && bhi <= |b| && i <= i' < ahi && blo <= j' < bhi
    ensures RunLen(a, b, i', j', ahi, bhi) <= Scan(a, b, i, ahi, blo, bhi, best).size
    decreases ahi - i
  {
    var row := ScanRow(a, b, i, blo, ahi, bhi, best);
    if i' == i {
      ScanRowMaximal(a, b, i, blo, ahi, bhi, best, j');
      ScanGrows(a, b, i + 1, ahi, blo, bhi, row);
    } else {
      ScanMaximal(a, b, i + 1, ahi, blo, bhi, row, i', j');
    }
  }

  /** A scan never shortens the best block so far. */
  lemma {:induction false} ScanGrows(a: string, b: string, i: nat, ahi: nat, blo: nat, bhi: nat, best: Block)
    requires ahi <= |a| && bhi <= |b|
    ensures best.size <= Scan(a, b, i, ahi, blo, bhi, best).size
    decreases ahi - i
  {
    if i < ahi {
      ScanRowGrows(a, b, i, blo, ahi, bhi, best);
      ScanGrows(a, b, i + 1, ahi, blo, bhi, ScanRow(a, b, i, blo, ahi, bhi, best));
    }
  }

  /** `find_longest_match` finds a common block, and no run in its range is longer. */
  lemma {:induction false} LongestMatchIsLongest(a: string, b: string, alo: nat, ahi: nat, blo: nat, bhi: nat)
    requires alo <= ahi <= |a| && blo <= bhi <= |b|
    ensures var m := LongestMatch(a, b, alo, ahi, blo, bhi);
      && a[m.i..m.i + m.size] == b[m.j..m.j + m.size]
      && forall i, j :: alo <= i < ahi && blo <= j < bhi ==> RunLen(a, b, i, j, ahi, bhi) <= m.size
  {
    var m := LongestMatch(a, b, alo, ahi, blo, bhi);
    if m.size > 0 {
      RunLenCommon(a, b, m.i, m.j, ahi, bhi);
    }
    forall i, j | alo <= i < ahi && blo <= j < bhi ensures RunLen(a, b, i, j, ahi, bhi) <= m.size {
      ScanMaximal(a, b, alo, ahi, blo, bhi, Block(alo, blo, 0), i, j);
    }
  }

  /**
   * The number of characters in `get_matching_blocks()` over `a[alo..ahi]` and `b[blo..bhi]`:
   * the longest block plus, recursively, the matches to its left and to its right.
   * Never more than either range holds.
   */
  function Matches(a: string, b: string, alo: nat, ahi: nat, blo: nat, bhi: nat): (n: nat)
    requires alo <= ahi <= |a| && blo <= bhi <= |b|
    ensures n <= ahi - alo && n <= bhi - blo
    decreases (ahi - alo) + (bhi - blo)
  {
    var m := LongestMatch(a, b, alo, ahi, blo, bhi);
    if m.size == 0 then 0
    else m.size + Matches(a, b, alo, m.i, blo, m.j) + Matches(a, b, m.i + m.size, ahi, m.j + m.size, bhi)
  }

  /** The matched characters of the whole of `a` against the whole of `b`. */
  function MatchCount(a: string, b: string): (n: nat)
    ensures n <= |a| && n <= |b|
  {
    Matches(a, b, 0, |a|, 0, |b|)
  }

  /** Any common block bounds the match count from below. */
  lemma {:induction false} CommonBlockBound(a: string, b: string, i: nat, j: nat, p: nat)
    requires i + p <= |a| && j + p <= |b| && a[i..i + p] == b[j..j + p]
    ensures MatchCount(a, b) >= p
  {
    if p > 0 {
      RunLenAtLeast(a, b, i, j, |a|, |b|, p);
      LongestMatchIsLongest(a, b, 0, |a|, 0, |b|);
    }
  }

  /** A non-empty longest block starts with a character the two texts share. */
  lemma {:induction false} LongestMatchShares(a: string, b: string)
    ensures var m := LongestMatch(a, b, 0, |a|, 0, |b|);
      m.size > 0 ==> m.i < |a| && m.j < |b| && a[m.i] == b[m.j]
  {
    LongestMatchIsLongest(a, b, 0, |a|, 0, |b|);
    var m := LongestMatch(a, b, 0, |a|, 0, |b|);
    if m.size > 0 {
      assert a[m.i..m.i + m.size][0] == a[m.i];
      assert b[m.j..m.j + m.size][0] == b[m.j];
    }
  }

  /** Texts that share no character have no matching block at all. */
  lemma {:induction false} DisjointMatchesNothing(a: string, b: string)
    requires forall i, j :: 0 <= i < |a| && 0 <= j < |b| ==> a[i] != b[j]
    ensures MatchCount(a, b) == 0
  {
    LongestMatchShares(a, b);
  }

  /** A string matched against itself matches every character. */
  lemma {:induction false} MatchSelf(x: string)
    ensures MatchCount(x, x) == |x|
  {
    CommonBlockBound(x, x, 0, 0, |x|);
  }
}
