/**
 * The shared helpers of the reconciliation: the status-line format, the lookup of a
 * playlist name in a name-to-id index, the delta between two track lists, the
 * similarity test on two track descriptions and the key under which unmatched
 * tracks are reported.
 */
module MainFuncs {
  import opened Text
  import SequenceMatcher

  /** The platform label of a status line, chosen by the lower-cased platform letter. */
  function Label(plat: char): (r: string)
    ensures r == "Spotify: " <==> plat == 's' || plat == 'S'
    ensures r == "Youtube: " <==> plat == 'y' || plat == 'Y'
    ensures r == "Tidal: " <==> plat == 't' || plat == 'T'
    ensures r == "Apple: " <==> plat == 'a' || plat == 'A'
    ensures r == "" <==> plat !in "sSyYtTaA"
  {
    if plat == 's' || plat == 'S' then "Spotify: "
    else if plat == 'y' || plat == 'Y' then "Youtube: "
    else if plat == 't' || plat == 'T' then "Tidal: "
    else if plat == 'a' || plat == 'A' then "Apple: "
    else ""
  }

  /**
   * The line `message(bit, msg)` prints: the status code (second character of `bit`)
   * in brackets, the platform label chosen by the first character, then `msg`.
   */
  function Message(bit: string, msg: string): (r: string)
    requires |bit| >= 2
    ensures |r| == 4 + |Label(bit[0])| + |msg|
    ensures r[0] == '[' && r[1] == bit[1] && r[2] == ']' && r[3] == ' '
    ensures r[4..] == Label(bit[0]) + msg
  {
    "[" + [bit[1]] + "] " + Label(bit[0]) + msg
  }

  /** An ASCII lower-case letter and its upper-case form. */
  function UpperAscii(c: char): (u: char)
    requires 'a' <= c <= 'z'
    ensures 'A' <= u <= 'Z'
  {
    (c as int - 32) as char
  }

  /** The platform letter is matched without regard to case; a corollary of `Label`'s definition. */
  lemma {:induction false} MessageCaseInsensitive(plat: char, code: char, msg: string)
    requires 'a' <= plat <= 'z'
    ensures Message([UpperAscii(plat), code], msg) == Message([plat, code], msg)
  {
    var u := UpperAscii(plat);
    assert Label(u) == Label(plat) by {
      if plat == 's' { assert u == 'S'; }
      else if plat == 'y' { assert u == 'Y'; }
      else if plat == 't' { assert u == 'T'; }
      else if plat == 'a' { assert u == 'A'; }
      else { assert u !in "sSyYtTaA"; }
    }
  }

  /** `keys[k]` is the first of `keys` stored in `index`. */
  predicate FirstStoredAt(keys: seq<string>, index: map<string, string>, k: nat) {
    k < |keys| && keys[k] in index && forall j :: 0 <= j < k ==> keys[j] !in index
  }

  /** The value of the first of `keys` present in `index`, if any: the reference for the lookup chain. */
  function FirstPresent(keys: seq<string>, index: map<string, string>): (r: Option<string>)
    ensures r.None? <==> forall k :: 0 <= k < |keys| ==> keys[k] !in index
    ensures r.Some? ==> exists k: nat :: FirstStoredAt(keys, index, k) && index[keys[k]] == r.value
  {
    if keys == [] then None
    else if keys[0] in index then
      assert FirstStoredAt(keys, index, 0);
      Some(index[keys[0]])
    else
      var r := FirstPresent(keys[1..], index);
      if r.Some? then
        var k: nat :| FirstStoredAt(keys[1..], index, k) && index[keys[1..][k]] == r.value;
        assert FirstStoredAt(keys, index, k + 1) by {
          forall j | 0 <= j < k + 1 ensures keys[j] !in index {
            if j > 0 { assert keys[j] == keys[1..][j - 1]; }
          }
        }
        r
      else
        r
  }

  /** The three spellings `confirm_playlist_exist` tries, in order. */
  function Candidates(name: string): seq<string> {
    [name, name + " ", RStrip(name)]
  }

  /**
   * `confirm_playlist_exist`: the id stored under the exact name, else under the name with
   * one trailing space, else under the name with trailing whitespace removed; `None` otherwise.
   */
  function ConfirmPlaylistExist(name: string, index: map<string, string>): (r: Option<string>)
    ensures r.None? <==> name !in index && name + " " !in index && RStrip(name) !in index
  {
    if name in index then Some(index[name])
    else if name + " " in index then Some(index[name + " "])
    else if RStrip(name) in index then Some(index[RStrip(name)])
    else None
  }

  /** The lookup chain returns the value of the first stored candidate spelling. */
  lemma {:induction false} ConfirmIsFirstPresent(name: string, index: map<string, string>)
    ensures ConfirmPlaylistExist(name, index) == FirstPresent(Candidates(name), index)
  {
    var c := Candidates(name);
    var c1, c2 := [name + " ", RStrip(name)], [RStrip(name)];
    assert c[1..] == c1 && c1[1..] == c2 && c2[1..] == [];
    if name !in index {
      assert FirstPresent(c, index) == FirstPresent(c1, index);
      if name + " " !in index {
        assert FirstPresent(c1, index) == FirstPresent(c2, index);
      }
    }
  }

  /**
   * A name typed with extra trailing whitespace still finds the stored name, once neither
   * the typed name nor the typed name plus a space is stored itself.
   */
  lemma {:induction false} ConfirmIgnoresTrailingWhitespace(stored: string, pad: string, index: map<string, string>)
    requires stored in index
    requires stored == [] || !IsSpace(stored[|stored| - 1])
    requires forall k :: 0 <= k < |pad| ==> IsSpace(pad[k])
    requires stored + pad !in index && stored + pad + " " !in index
    ensures ConfirmPlaylistExist(stored + pad, index) == Some(index[stored])
  {
    RStripDropsTrailingSpace(stored, pad);
  }

  /** A stored name is found under its own id; a corollary of the first branch of the lookup. */
  lemma {:induction false} ConfirmFindsStored(name: string, index: map<string, string>)
    requires name in index
    ensures ConfirmPlaylistExist(name, index) == Some(index[name])
  {
  }

  /** No element occurs twice. */
  predicate NoDuplicates<T(==)>(s: seq<T>) {
    forall i, j :: 0 <= i < j < |s| ==> s[i] != s[j]
  }

  /**
   * `what_to_move(old, new)`, here with `current` for `old` and `incoming` for `new`: the
   * tracks of `incoming` that are not in `current`, each once. Python
   * returns them in set order, which it does not specify; this model keeps first occurrences
   * in the order of `incoming`.
   */
  function WhatToMove(current: seq<string>, incoming: seq<string>): (r: seq<string>)
    ensures NoDuplicates(r)
    ensures forall x :: x in r <==> x in incoming && x !in current
    ensures |r| <= |incoming|
    decreases |incoming|
  {
    if incoming == [] then []
    else
      var front := incoming[..|incoming| - 1];
      var x := incoming[|incoming| - 1];
      assert forall y :: y in incoming <==> y in front || y == x by {
        assert incoming == front + [x];
      }
      var r := WhatToMove(current, front);
      if x in current || x in r then r else r + [x]
  }

  /** Nothing moves when every track of `incoming` is already in `current`, in particular when they are equal. */
  lemma {:induction false} NothingToMove(current: seq<string>, incoming: seq<string>)
    requires forall x :: x in incoming ==> x in current
    ensures WhatToMove(current, incoming) == []
    decreases |incoming|
  {
    if incoming != [] {
      var front, x := incoming[..|incoming| - 1], incoming[|incoming| - 1];
      assert incoming == front + [x];
      NothingToMove(current, front);
    }
  }

  /** A duplicate-free sequence has as many elements as the set of its elements. */
  lemma {:induction false} DistinctCard(s: seq<string>)
    requires NoDuplicates(s)
    ensures |set x | x in s| == |s|
    decreases |s|
  {
    if s != [] {
      var front := s[..|s| - 1];
      var x := s[|s| - 1];
      assert NoDuplicates(front);
      DistinctCard(front);
      assert x !in front;
      assert (set y | y in s) == (set y | y in front) + {x} by {
        assert s == front + [x];
      }
    }
  }

  /** The delta holds exactly as many tracks as the set difference `set(incoming) - set(current)`. */
  lemma {:induction false} WhatToMoveCount(current: seq<string>, incoming: seq<string>)
    ensures |WhatToMove(current, incoming)| == |(set x | x in incoming) - (set x | x in current)|
  {
    var r := WhatToMove(current, incoming);
    DistinctCard(r);
    assert (set x | x in r) == (set x | x in incoming) - (set x | x in current);
  }

  /**
   * `compare(first, second)`: difflib's ratio `2M / (|first| + |second|)` is above 0.45, with
   * the ratio 1 for two empty strings; in integers, `40M > 9(|first| + |second|)`.
   */
  predicate Compare(first: string, second: string) {
    var total := |first| + |second|;
    total == 0 || 40 * SequenceMatcher.MatchCount(first, second) > 9 * total
  }

  /** A description always matches itself. */
  lemma {:induction false} CompareSelf(x: string)
    ensures Compare(x, x)
  {
    SequenceMatcher.MatchSelf(x);
  }

  /** A common block long enough for the threshold makes two descriptions match. */
  lemma {:induction false} CompareCommonBlock(a: string, b: string, i: nat, j: nat, p: nat)
    requires i + p <= |a| && j + p <= |b| && a[i..i + p] == b[j..j + p]
    requires 40 * p > 9 * (|a| + |b|)
    ensures Compare(a, b)
  {
    SequenceMatcher.CommonBlockBound(a, b, i, j, p);
  }

  /**
   * Descriptions whose lengths differ by too much never match, whatever their text; a
   * corollary of `MatchCount`'s bound by the length of either text.
   */
  lemma {:induction false} CompareNeedsComparableLengths(a: string, b: string)
    requires Compare(a, b) && |a| + |b| > 0
    ensures 31 * |a| > 9 * |b| && 31 * |b| > 9 * |a|
  {
  }

  /** Only the empty description matches the empty one; a corollary of `MatchCount`'s bound. */
  lemma {:induction false} CompareEmpty(x: string)
    ensures Compare(x, "") <==> x == ""
  {
  }

  /** The spelling variant `Bohemian Rhapsody - Queen` matches `Bohemian Rhapsody Queen`. */
  lemma {:induction false} CompareDashVariant()
    ensures Compare("Bohemian Rhapsody Queen", "Bohemian Rhapsody - Queen")
  {
    var a, b := "Bohemian Rhapsody Queen", "Bohemian Rhapsody - Queen";
    assert a[0..18] == b[0..18];
    CompareCommonBlock(a, b, 0, 0, 18);
  }

  /** Descriptions that share no character never match. */
  lemma {:induction false} CompareDisjoint(a: string, b: string)
    requires forall i, j :: 0 <= i < |a| && 0 <= j < |b| ==> a[i] != b[j]
    requires |a| + |b| > 0
    ensures !Compare(a, b)
  {
    SequenceMatcher.DisjointMatchesNothing(a, b);
  }

  /** Two artist names without a common letter are rejected: `Queen` against `Abba`. */
  lemma {:induction false} CompareRejectsOtherArtist()
    ensures !Compare("Queen", "Abba")
  {
    var a, b := "Queen", "Abba";
    forall i, j | 0 <= i < |a| && 0 <= j < |b| ensures a[i] != b[j] {
      assert a[i] in {'Q', 'u', 'e', 'n'};
      assert b[j] in {'A', 'b', 'a'};
    }
    CompareDisjoint(a, b);
  }

  /**
   * A fragment is rejected even though the description contains it: `Queen`, 5 characters,
   * against `Bohemian Rhapsody Queen`, 23, a length ratio above the 31/9 that
   * `CompareNeedsComparableLengths` allows a match.
   */
  lemma {:induction false} CompareRejectsFragment()
    ensures !Compare("Queen", "Bohemian Rhapsody Queen")
  {
    var a, b := "Queen", "Bohemian Rhapsody Queen";
    assert SequenceMatcher.MatchCount(a, b) <= |a|;
    assert 40 * |a| <= 9 * (|a| + |b|);
  }

  /** The key under which `write_to_file` records the unmatched tracks of one transfer. */
  function NotFoundKey(source: string, dest: string, playlist: string): (key: string)
    ensures |key| == |source| + |dest| + |playlist| + 5
    ensures key[|key| - 1] == '\''
  {
    source + "->" + dest + " '" + playlist + "'"
  }

  /** For one pair of platforms, the key tells the playlists apart. */
  lemma {:induction false} NotFoundKeyInjective(source: string, dest: string, p: string, q: string)
    requires NotFoundKey(source, dest, p) == NotFoundKey(source, dest, q)
    ensures p == q
  {
    var prefix := source + "->" + dest + " '";
    var kp, kq := NotFoundKey(source, dest, p), NotFoundKey(source, dest, q);
    assert |p| == |q|;
    assert kp == prefix + p + "'" && kq == prefix + q + "'";
    assert p == kp[|prefix|..|prefix| + |p|];
    assert q == kq[|prefix|..|prefix| + |q|];
  }
}
