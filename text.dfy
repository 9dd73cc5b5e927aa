/**
 * The handful of Python string operations the reconciliation code relies on:
 * `in`, `str.split`, `str.join`, `str.replace`, `str.rstrip`, `str.split(sep, 1)`
 * and the one regular expression it uses, `re.sub(r"\(.*?\)", "", s)`.
 */
module Text {

  datatype Option<T> = None | Some(value: T)

  /** `sub` starts at index `k` of `s`. */
  predicate OccursAt(s: string, sub: string, k: nat) {
    k + |sub| <= |s| && s[k..k + |sub|] == sub
  }

  /** The first index at or after `k` where `sub` occurs in `s`. */
  function IndexFrom(s: string, sub: string, k: nat): (r: Option<nat>)
    ensures r.Some? ==> k <= r.value && OccursAt(s, sub, r.value)
    ensures r.Some? ==> forall j :: k <= j < r.value ==> !OccursAt(s, sub, j)
    ensures r.None? ==> forall j :: k <= j ==> !OccursAt(s, sub, j)
    decreases |s| - k
  {
    if k + |sub| > |s| then None
    else if s[k..k + |sub|] == sub then Some(k)
    else IndexFrom(s, sub, k + 1)
  }

  /** Python's `s.find(sub)`, as an option. */
  function IndexOf(s: string, sub: string): Option<nat> {
    IndexFrom(s, sub, 0)
  }

  /** Python's `sub in s`. */
  predicate Contains(s: string, sub: string) {
    IndexOf(s, sub).Some?
  }

  lemma {:induction false} ContainsMeansOccurs(s: string, sub: string)
    ensures Contains(s, sub) <==> exists k: nat :: OccursAt(s, sub, k)
  {
    if !Contains(s, sub) {
      forall k: nat ensures !OccursAt(s, sub, k) {
      }
    }
  }

  /** An occurrence inside a prefix of `s` is an occurrence in `s`. */
  lemma {:induction false} OccursInPrefix(s: string, sub: string, n: nat, j: nat)
    requires n <= |s| && OccursAt(s[..n], sub, j)
    ensures OccursAt(s, sub, j)
  {
    assert s[..n][j..j + |sub|] == s[j..j + |sub|];
  }

  /** Python's `s.split(sep)` for a non-empty separator. */
  function Split(s: string, sep: string): (parts: seq<string>)
    requires sep != ""
    ensures |parts| >= 1
    decreases |s|
  {
    match IndexOf(s, sep)
    case None => [s]
    case Some(k) => [s[..k]] + Split(s[k + |sep|..], sep)
  }

  /** Python's `sep.join(parts)`. */
  function Join(parts: seq<string>, sep: string): string {
    if |parts| == 0 then ""
    else if |parts| == 1 then parts[0]
    else parts[0] + sep + Join(parts[1..], sep)
  }

  /** Python's `s.replace(old, new)`: every non-overlapping occurrence, left to right. */
  function Replace(s: string, target: string, replacement: string): string
    requires target != ""
  {
    Join(Split(s, target), replacement)
  }

  /** Splitting loses nothing: joining the pieces back with the separator gives `s`. */
  lemma {:induction false} JoinSplit(s: string, sep: string)
    requires sep != ""
    ensures Join(Split(s, sep), sep) == s
    decreases |s|
  {
    var i := IndexOf(s, sep);
    if i.Some? {
      var k := i.value;
      var rest := s[k + |sep|..];
      var pieces := Split(rest, sep);
      assert Split(s, sep) == [s[..k]] + pieces;
      JoinSplit(rest, sep);
      assert Join([s[..k]] + pieces, sep) == s[..k] + sep + Join(pieces, sep);
      assert s[k..k + |sep|] == sep;
      assert s == s[..k] + sep + rest;
    }
  }

  /** No proper prefix of `sep` is also a suffix of it, so two occurrences cannot overlap. */
  predicate Borderless(sep: string) {
    forall m :: 0 < m < |sep| ==> sep[m..] != sep[..|sep| - m]
  }

  /** When `a` holds no `sep`, the first `sep` in `a + sep + b` is the one right after `a`. */
  lemma {:induction false} FirstAfterPrefix(a: string, sep: string, b: string)
    requires sep != "" && Borderless(sep) && !Contains(a, sep)
    ensures IndexOf(a + sep + b, sep) == Some(|a|)
  {
    var s := a + sep + b;
    assert OccursAt(s, sep, |a|) by { assert s[|a|..|a| + |sep|] == sep; }
    forall j | 0 <= j < |a| ensures !OccursAt(s, sep, j) {
      if j + |sep| <= |a| {
        assert s[j..j + |sep|] == a[j..j + |sep|];
        assert !OccursAt(a, sep, j);
      } else {
        var m := |a| - j;
        assert s[|a|..j + |sep|] == sep[..|sep| - m];
        assert sep[m..] != sep[..|sep| - m];
        assert s[j..j + |sep|][m..] == s[|a|..j + |sep|];
      }
    }
  }

  /** Fields free of the separator come back out of `split` exactly as they went into `join`. */
  lemma {:induction false} SplitJoin(parts: seq<string>, sep: string)
    requires sep != "" && Borderless(sep) && |parts| >= 1
    requires forall k :: 0 <= k < |parts| ==> !Contains(parts[k], sep)
    ensures Split(Join(parts, sep), sep) == parts
    decreases |parts|
  {
    if |parts| > 1 {
      var head, tail := parts[0], parts[1..];
      var rest := Join(tail, sep);
      var s := head + sep + rest;
      assert Join(parts, sep) == s;
      FirstAfterPrefix(head, sep, rest);
      assert s[..|head|] == head;
      assert s[|head| + |sep|..] == rest;
      assert Split(s, sep) == [head] + Split(rest, sep);
      SplitJoin(tail, sep);
      assert parts == [head] + tail;
    }
  }

  /** Python's `str.isspace()` for one character. */
  predicate IsSpace(c: char) {
    || ('\t' <= c <= '\r')
    || ('\U{1C}' <= c <= ' ')
    || c == '\U{85}' || c == '\U{A0}' || c == '\U{1680}'
    || ('\U{2000}' <= c <= '\U{200A}')
    || c == '\U{2028}' || c == '\U{2029}' || c == '\U{202F}' || c == '\U{205F}' || c == '\U{3000}'
  }

  /** Python's `s.rstrip()`: the longest prefix that does not end in whitespace. */
  function RStrip(s: string): (r: string)
    ensures r <= s
    ensures r == [] || !IsSpace(r[|r| - 1])
    ensures forall k :: |r| <= k < |s| ==> IsSpace(s[k])
  {
    if |s| > 0 && IsSpace(s[|s| - 1]) then RStrip(s[..|s| - 1]) else s
  }

  /** `rstrip` undoes appending whitespace to a name that does not already end in whitespace. */
  lemma {:induction false} RStripDropsTrailingSpace(name: string, pad: string)
    requires name == [] || !IsSpace(name[|name| - 1])
    requires forall k :: 0 <= k < |pad| ==> IsSpace(pad[k])
    ensures RStrip(name + pad) == name
    decreases |pad|
  {
    if pad != [] {
      var shorter := pad[..|pad| - 1];
      assert (name + pad)[..|name + pad| - 1] == name + shorter;
      assert IsSpace(pad[|pad| - 1]);
      RStripDropsTrailingSpace(name, shorter);
    } else {
      assert name + pad == name;
    }
  }

  /**
   * Python's `s.split(sep, 1)` when `sep` occurs in `s`: the text before the first
   * occurrence and everything after it, further separators included.
   */
  function SplitOnce(s: string, sep: string): (r: (string, string))
    requires sep != "" && Contains(s, sep)
    ensures s == r.0 + sep + r.1
    ensures !Contains(r.0, sep)
  {
    var k := IndexOf(s, sep).value;
    NoneBeforeFirst(s, sep, k);
    assert s == s[..k] + sep + s[k + |sep|..];
    (s[..k], s[k + |sep|..])
  }

  /** The text before the first occurrence of `sep` holds no `sep`. */
  lemma {:induction false} NoneBeforeFirst(s: string, sep: string, k: nat)
    requires sep != "" && IndexOf(s, sep) == Some(k)
    ensures k <= |s| && !Contains(s[..k], sep)
  {
    forall j: nat ensures !OccursAt(s[..k], sep, j) {
      if j + |sep| <= k {
        assert s[..k][j..j + |sep|] == s[j..j + |sep|];
        assert !OccursAt(s, sep, j);
      }
    }
    ContainsMeansOccurs(s[..k], sep);
  }

  /**
   * The index of the first `)` at or after `k` that the lazy `.*?` of `\(.*?\)` can
   * reach: `.` does not match a newline, so a newline first means no match.
   */
  function CloseParen(s: string, k: nat): (r: Option<nat>)
    ensures r.Some? ==> k <= r.value < |s| && s[r.value] == ')'
    ensures r.Some? ==> forall j :: k <= j < r.value ==> s[j] != ')' && s[j] != '\n'
    decreases |s| - k
  {
    if k >= |s| || s[k] == '\n' then None
    else if s[k] == ')' then Some(k)
    else CloseParen(s, k + 1)
  }

  /** `re.sub(r"\(.*?\)", "", s)`: every shortest parenthesised span, left to right, removed. */
  function StripParens(s: string): (r: string)
    decreases |s|
  {
    if s == [] then []
    else if s[0] == '(' && CloseParen(s, 1).Some? then StripParens(s[CloseParen(s, 1).value + 1..])
    else [s[0]] + StripParens(s[1..])
  }

  /** Stripping never lengthens the text and leaves text without `(` untouched. */
  lemma {:induction false} StripParensShape(s: string)
    ensures |StripParens(s)| <= |s|
    ensures (forall k :: 0 <= k < |s| ==> s[k] != '(') ==> StripParens(s) == s
    decreases |s|
  {
    if s != [] {
      if s[0] == '(' && CloseParen(s, 1).Some? {
        StripParensShape(s[CloseParen(s, 1).value + 1..]);
      } else {
        StripParensShape(s[1..]);
        if forall k :: 0 <= k < |s| ==> s[k] != '(' {
          assert forall k :: 0 <= k < |s[1..]| ==> s[1..][k] != '(' by {
            forall k | 0 <= k < |s[1..]| ensures s[1..][k] != '(' {
              assert s[1..][k] == s[k + 1];
            }
          }
          assert s == [s[0]] + s[1..];
        }
      }
    }
  }
}
