/**
 * The JavaScript built-ins the dashboard's services rely on, written over
 * sequences: for strings, the whitespace class shared by `trim()` and `\s`,
 * ASCII case mapping, `includes`, `split(/\s+/)`, `replace(/\s+/g, ...)`,
 * `join` and number-to-decimal conversion; for arrays, `filter` and
 * `findIndex`, and a name order and an insertion sort that stand in for
 * `localeCompare` and `Array.prototype.sort`.
 */
module Text {

  /** ECMAScript WhiteSpace and LineTerminator code points: the set that
      `String.prototype.trim` removes and that the regular expression `\s`
      matches. */
  predicate IsSpace(c: char) {
    c as int in SpaceCodes
  }

  const SpaceCodes: set<int> :=
    {0x09, 0x0A, 0x0B, 0x0C, 0x0D, 0x20, 0xA0, 0x1680, 0x2028, 0x2029, 0x202F, 0x205F, 0x3000, 0xFEFF}
    + set n | 0x2000 <= n <= 0x200A

  predicate NoSpace(s: string) {
    forall k :: 0 <= k < |s| ==> !IsSpace(s[k])
  }

  predicate AllSpace(s: string) {
    forall k :: 0 <= k < |s| ==> IsSpace(s[k])
  }

  // ---------------------------------------------------------------------
  // Case mapping (ASCII letters only)
  // ---------------------------------------------------------------------

  function LowerChar(c: char): (r: char)
    ensures 'A' <= c <= 'Z' ==> r as int == c as int + 32
    ensures !('A' <= c <= 'Z') ==> r == c
  {
    if 'A' <= c <= 'Z' then (c as int + 32) as char else c
  }

  function UpperChar(c: char): (r: char)
    ensures 'a' <= c <= 'z' ==> r as int == c as int - 32
    ensures !('a' <= c <= 'z') ==> r == c
  {
    if 'a' <= c <= 'z' then (c as int - 32) as char else c
  }

  /** `toLowerCase()`, restricted to ASCII letters. */
  function Lower(s: string): (r: string)
    ensures |r| == |s|
    ensures forall k :: 0 <= k < |s| ==> r[k] == LowerChar(s[k])
  {
    seq(|s|, k requires 0 <= k < |s| => LowerChar(s[k]))
  }

  /** `toUpperCase()`, restricted to ASCII letters. */
  function Upper(s: string): (r: string)
    ensures |r| == |s|
    ensures forall k :: 0 <= k < |s| ==> r[k] == UpperChar(s[k])
  {
    seq(|s|, k requires 0 <= k < |s| => UpperChar(s[k]))
  }

  /** Lower-casing works character by character, so it distributes over
      concatenation. */
  lemma LowerAround(a: string, c: char, b: string)
    ensures Lower(a + [c] + b) == Lower(a) + [LowerChar(c)] + Lower(b)
  {
    var s := a + [c] + b;
    var r := Lower(a) + [LowerChar(c)] + Lower(b);
    forall k | 0 <= k < |s| ensures Lower(s)[k] == r[k] {
      if k < |a| {
        assert s[k] == a[k];
      } else if k > |a| {
        assert s[k] == b[k - |a| - 1];
      }
    }
  }

  /** Lower-casing brings in no whitespace: only capitals change, and they
      become small letters. */
  lemma LowerKeepsNoSpace(s: string)
    ensures NoSpace(s) ==> NoSpace(Lower(s))
  {
    if NoSpace(s) {
      forall k | 0 <= k < |s| ensures !IsSpace(Lower(s)[k]) {
        if 'A' <= s[k] <= 'Z' {
          assert 'a' <= Lower(s)[k] <= 'z';
        }
      }
    }
  }

  // ---------------------------------------------------------------------
  // String.prototype.includes
  // ---------------------------------------------------------------------

  /** `q` occurs in `s` starting at index `i`. */
  predicate OccursAt(s: string, q: string, i: int) {
    0 <= i && i + |q| <= |s| && s[i..i + |q|] == q
  }

  /** `s.includes(q)`. */
  predicate Includes(s: string, q: string) {
    exists i | 0 <= i <= |s| - |q| :: OccursAt(s, q, i)
  }

  /** A text that includes `q` includes every prefix of `q`. */
  lemma IncludesPrefix(s: string, q: string, n: nat)
    requires n <= |q| && Includes(s, q)
    ensures Includes(s, q[..n])
  {
    var i :| 0 <= i <= |s| - |q| && OccursAt(s, q, i);
    assert s[i..i + n] == s[i..i + |q|][..n];
    assert OccursAt(s, q[..n], i);
  }

  // ---------------------------------------------------------------------
  // String.prototype.trim
  // ---------------------------------------------------------------------

  /** Index of the first character of `s` at or after `from` that is not
      whitespace, or `|s|`. */
  function LeadEnd(s: string, from: nat): (i: nat)
    requires from <= |s|
    ensures from <= i <= |s|
    ensures forall k :: from <= k < i ==> IsSpace(s[k])
    ensures i < |s| ==> !IsSpace(s[i])
    decreases |s| - from
  {
    if from < |s| && IsSpace(s[from]) then LeadEnd(s, from + 1) else from
  }

  /** Index just past the last character of `s[..hi]` that is not
      whitespace, or 0. */
  function TrailStart(s: string, hi: nat): (j: nat)
    requires hi <= |s|
    ensures j <= hi
    ensures forall k :: j <= k < hi ==> IsSpace(s[k])
    ensures 0 < j ==> !IsSpace(s[j - 1])
    decreases hi
  {
    if 0 < hi && IsSpace(s[hi - 1]) then TrailStart(s, hi - 1) else hi
  }

  function TrimStart(s: string): (r: string)
    ensures |r| <= |s| && r == s[|s| - |r|..]
    ensures AllSpace(s[..|s| - |r|])
    ensures r == [] || !IsSpace(r[0])
  {
    s[LeadEnd(s, 0)..]
  }

  function TrimEnd(s: string): (r: string)
    ensures |r| <= |s| && r == s[..|r|]
    ensures AllSpace(s[|r|..])
    ensures r == [] || !IsSpace(r[|r| - 1])
  {
    s[..TrailStart(s, |s|)]
  }

  /** `s.trim()`: `s` without its leading and trailing whitespace. */
  function Trim(s: string): (r: string)
    ensures r == [] || (!IsSpace(r[0]) && !IsSpace(r[|r| - 1]))
    ensures exists i, j :: 0 <= i <= j <= |s| && r == s[i..j] && AllSpace(s[..i]) && AllSpace(s[j..])
  {
    var t := TrimStart(s);
    var r := TrimEnd(t);
    var i := |s| - |t|;
    assert r == s[i..i + |r|];
    assert s[i + |r|..] == t[|r|..];
    r
  }

  /** A text with no whitespace at either end is its own trim. */
  lemma TrimKeepsTrimmed(s: string)
    requires s == [] || (!IsSpace(s[0]) && !IsSpace(s[|s| - 1]))
    ensures Trim(s) == s
  {
    assert TrimStart(s) == s[0..] == s;
  }

  /** `!s.trim()`: the string is empty or made of whitespace only. */
  predicate IsBlank(s: string) {
    Trim(s) == []
  }

  lemma BlankIffAllSpace(s: string)
    ensures IsBlank(s) <==> AllSpace(s)
  {
    var a := TrimStart(s);
    if Trim(s) == [] {
      assert a == [];
      assert s[..|s| - |a|] == s;
    }
    if AllSpace(s) {
      assert LeadEnd(s, 0) == |s|;
    }
  }

  // ---------------------------------------------------------------------
  // split(/\s+/) and replace(/\s+/g, sep)
  //
  // Written for any character class `p`, then taken at `IsSpace`: the
  // proofs about runs and pieces do not depend on which characters `\s`
  // matches.
  // ---------------------------------------------------------------------

  predicate NoneIn(s: string, p: char -> bool) {
    forall k :: 0 <= k < |s| ==> !p(s[k])
  }

  /** No character of `s` between `lo` and `hi` is in the class. */
  predicate NoneBetween(s: string, p: char -> bool, lo: nat, hi: nat)
    requires lo <= hi <= |s|
  {
    forall k :: lo <= k < hi ==> !p(s[k])
  }

  lemma NoneBetweenSlice(s: string, p: char -> bool, lo: nat, hi: nat)
    requires lo <= hi <= |s| && NoneBetween(s, p, lo, hi)
    ensures NoneIn(s[lo..hi], p)
  {
    forall k | 0 <= k < hi - lo ensures !p(s[lo..hi][k]) {
      assert s[lo..hi][k] == s[lo + k];
    }
  }

  /** Index of the first class character of `s` at or after `from`, or
      `|s|`. */
  function FirstFrom(s: string, p: char -> bool, from: nat): (i: nat)
    requires from <= |s|
    ensures from <= i <= |s|
    ensures i < |s| ==> p(s[i])
    decreases |s| - from
  {
    if from == |s| || p(s[from]) then from else FirstFrom(s, p, from + 1)
  }

  /** No character before the first class character is in the class. */
  lemma {:induction false} BeforeFirstFrom(s: string, p: char -> bool, from: nat)
    requires from <= |s|
    ensures NoneBetween(s, p, from, FirstFrom(s, p, from))
    decreases |s| - from
  {
    if from < |s| && !p(s[from]) {
      BeforeFirstFrom(s, p, from + 1);
    }
  }

  /** Index just past the run of class characters starting at `from`. */
  function RunEnd(s: string, p: char -> bool, from: nat): (j: nat)
    requires from <= |s|
    ensures from <= j <= |s|
    ensures j < |s| ==> !p(s[j])
    ensures from < |s| && p(s[from]) ==> from < j && p(s[j - 1])
    decreases |s| - from
  {
    if from < |s| && p(s[from]) then RunEnd(s, p, from + 1) else from
  }

  /** The pieces of `s[from..]` between maximal runs of class characters.
      A leading or trailing run yields an empty first or last piece, and
      the empty string yields one empty piece. */
  function SplitFrom(s: string, p: char -> bool, from: nat): (words: seq<string>)
    requires from <= |s|
    ensures |words| >= 1
    ensures words[0] == s[from..FirstFrom(s, p, from)]
    decreases |s| - from
  {
    var i := FirstFrom(s, p, from);
    if i == |s| then [s[from..]] else [s[from..i]] + SplitFrom(s, p, RunEnd(s, p, i))
  }

  /** `s` split at every maximal run of class characters. */
  function SplitRuns(s: string, p: char -> bool): (words: seq<string>)
    ensures |words| >= 1
    ensures words[0] == s[..FirstFrom(s, p, 0)]
  {
    SplitFrom(s, p, 0)
  }

  /** No piece holds a class character. */
  lemma {:induction false} PiecesHaveNoneIn(s: string, p: char -> bool, from: nat, k: nat)
    requires from <= |s| && k < |SplitFrom(s, p, from)|
    ensures NoneIn(SplitFrom(s, p, from)[k], p)
    decreases |s| - from
  {
    var i := FirstFrom(s, p, from);
    if k == 0 {
      BeforeFirstFrom(s, p, from);
      NoneBetweenSlice(s, p, from, i);
    } else {
      PiecesHaveNoneIn(s, p, RunEnd(s, p, i), k - 1);
    }
  }

  /** Where the last piece of `SplitFrom(s, p, from)` starts. */
  function LastStart(s: string, p: char -> bool, from: nat): (k: nat)
    requires from <= |s|
    ensures from <= k <= |s|
    ensures k > from ==> p(s[k - 1])
    ensures from < |s| && !p(s[|s| - 1]) ==> k < |s|
    decreases |s| - from
  {
    var i := FirstFrom(s, p, from);
    if i == |s| then from else LastStart(s, p, RunEnd(s, p, i))
  }

  /** The last piece is the text from `LastStart` on. */
  lemma {:induction false} LastPiece(s: string, p: char -> bool, from: nat)
    requires from <= |s|
    ensures var words := SplitFrom(s, p, from); words[|words| - 1] == s[LastStart(s, p, from)..]
    decreases |s| - from
  {
    var i := FirstFrom(s, p, from);
    if i < |s| {
      var j := RunEnd(s, p, i);
      LastPiece(s, p, j);
      LastOfCons(s[from..i], SplitFrom(s, p, j));
    }
  }

  lemma LastOfCons<T>(x: T, rest: seq<T>)
    requires rest != []
    ensures var xs := [x] + rest; xs[|xs| - 1] == rest[|rest| - 1]
  {
  }

  /** The split has one piece exactly when no character is in the class. */
  lemma OnePieceIffNoneIn(s: string, p: char -> bool)
    ensures |SplitRuns(s, p)| == 1 <==> NoneIn(s, p)
  {
    var i := FirstFrom(s, p, 0);
    if i == |s| {
      BeforeFirstFrom(s, p, 0);
    }
  }

  lemma NoneInJoined(a: string, b: string, c: string, p: char -> bool)
    ensures NoneIn(a, p) && NoneIn(b, p) && NoneIn(c, p) ==> NoneIn(a + b + c, p)
  {
    if NoneIn(a, p) && NoneIn(b, p) && NoneIn(c, p) {
      forall k | 0 <= k < |a + b + c| ensures !p((a + b + c)[k]) {
        if k < |a| {
          assert (a + b + c)[k] == a[k];
        } else if k < |a| + |b| {
          assert (a + b + c)[k] == b[k - |a|];
        } else {
          assert (a + b + c)[k] == c[k - |a| - |b|];
        }
      }
    }
  }

  /** Every maximal run of class characters in `s[from..]` replaced by
      `sep`. */
  function ReplaceFrom(s: string, p: char -> bool, sep: string, from: nat): (r: string)
    requires from <= |s|
    ensures NoneIn(sep, p) ==> NoneIn(r, p)
    ensures NoneBetween(s, p, from, |s|) ==> r == s[from..]
    ensures forall c :: c in r ==> c in s || c in sep
    decreases |s| - from
  {
    var i := FirstFrom(s, p, from);
    BeforeFirstFrom(s, p, from);
    NoneBetweenSlice(s, p, from, i);
    if i == |s| then
      assert forall c :: c in s[from..] ==> c in s;
      s[from..]
    else
      var rest := ReplaceFrom(s, p, sep, RunEnd(s, p, i));
      assert forall c :: c in s[from..i] ==> c in s;
      NoneInJoined(s[from..i], sep, rest, p);
      s[from..i] + sep + rest
  }

  /** Every maximal run of class characters in `s` replaced by `sep`. */
  function ReplaceRuns(s: string, p: char -> bool, sep: string): (r: string)
    ensures NoneIn(sep, p) ==> NoneIn(r, p)
    ensures NoneIn(s, p) ==> r == s
    ensures forall c :: c in r ==> c in s || c in sep
  {
    assert s[0..] == s;
    ReplaceFrom(s, p, sep, 0)
  }

  /** `s.split(/\s+/)`. */
  function SplitSpaces(s: string): (words: seq<string>)
    ensures |words| >= 1
    ensures |words| == 1 <==> NoSpace(s)
  {
    OnePieceIffNoneIn(s, IsSpace);
    SplitRuns(s, IsSpace)
  }

  /** `s.replace(/\s+/g, sep)`. */
  function ReplaceSpaceRuns(s: string, sep: string): (r: string)
    ensures NoSpace(sep) ==> NoSpace(r)
    ensures NoSpace(s) ==> r == s
    ensures forall c :: c in r ==> c in s || c in sep
  {
    ReplaceRuns(s, IsSpace, sep)
  }

  /** `s.replace(/\s+/g, sep)` is `s.split(/\s+/).join(sep)`. */
  lemma ReplaceSpaceRunsIsJoin(s: string, sep: string)
    ensures ReplaceSpaceRuns(s, sep) == Join(sep, SplitSpaces(s))
  {
    ReplaceFromIsJoin(s, IsSpace, sep, 0);
  }

  /** Replacing every run by `sep` is splitting at the runs and joining the
      pieces with `sep`. */
  lemma {:induction false} ReplaceFromIsJoin(s: string, p: char -> bool, sep: string, from: nat)
    requires from <= |s|
    ensures ReplaceFrom(s, p, sep, from) == Join(sep, SplitFrom(s, p, from))
    decreases |s| - from
  {
    var i := FirstFrom(s, p, from);
    if i < |s| {
      var rest := SplitFrom(s, p, RunEnd(s, p, i));
      ReplaceFromIsJoin(s, p, sep, RunEnd(s, p, i));
      assert ([s[from..i]] + rest)[1..] == rest;
    }
  }

  /** A single class character between two pieces without any becomes
      `sep`. */
  lemma ReplaceRunsOneBreak(a: string, c: char, b: string, p: char -> bool, sep: string)
    requires NoneIn(a, p) && p(c) && NoneIn(b, p)
    ensures ReplaceRuns(a + [c] + b, p, sep) == a + sep + b
  {
    var s := a + [c] + b;
    BeforeFirstFrom(s, p, 0);
    assert forall k :: 0 <= k < |a| ==> s[k] == a[k];
    assert s[|a|] == c;
    var i := FirstFrom(s, p, 0);
    assert i == |a|;
    assert forall k :: |a| < k < |s| ==> s[k] == b[k - |a| - 1];
    var j := RunEnd(s, p, i);
    assert j == |a| + 1;
    assert s[j..] == b;
    assert s[0..i] == a;
  }

  /** The pieces of a split on the class `p` (`split(/\s+/)` when `p` is
      whitespace) hold none of it; the first runs up to the first character
      of the class, and the last is the suffix from `LastStart` on, which
      follows a class character unless it is all of `s`. */
  lemma SplitRunsPieces(s: string, p: char -> bool)
    ensures var words := SplitRuns(s, p); var k := LastStart(s, p, 0);
      && (forall i :: 0 <= i < |words| ==> NoneIn(words[i], p))
      && words[0] == s[..FirstFrom(s, p, 0)]
      && words[|words| - 1] == s[k..]
      && (k > 0 ==> p(s[k - 1]))
      && (s != [] && !p(s[|s| - 1]) ==> k < |s|)
  {
    forall i | 0 <= i < |SplitRuns(s, p)| ensures NoneIn(SplitRuns(s, p)[i], p) {
      PiecesHaveNoneIn(s, p, 0, i);
    }
    LastPiece(s, p, 0);
  }

  // ---------------------------------------------------------------------
  // Array.prototype.join
  // ---------------------------------------------------------------------

  /** `parts.join(sep)`. */
  function Join(sep: string, parts: seq<string>): (r: string)
    ensures parts == [] ==> r == []
    ensures |parts| == 1 ==> r == parts[0]
  {
    if parts == [] then []
    else if |parts| == 1 then parts[0]
    else parts[0] + sep + Join(sep, parts[1..])
  }

  /** Where part `k` starts in `Join(sep, parts)`: past every earlier part
      and the separator after it. */
  function JoinOffset(sep: string, parts: seq<string>, k: nat): nat
    requires k <= |parts|
  {
    if k == 0 then 0 else |parts[0]| + |sep| + JoinOffset(sep, parts[1..], k - 1)
  }

  /** Each part starts one part and one separator after the one before it. */
  lemma {:induction false} JoinOffsetStep(sep: string, parts: seq<string>, k: nat)
    requires k < |parts|
    ensures JoinOffset(sep, parts, k + 1) == JoinOffset(sep, parts, k) + |parts[k]| + |sep|
  {
    if k > 0 {
      JoinOffsetStep(sep, parts[1..], k - 1);
    }
  }

  /** The layout of the joined text: part `k` at its offset, followed by the
      separator when another part comes after it, and by the end of the
      text when it is the last. */
  lemma {:induction false} JoinLayout(sep: string, parts: seq<string>, k: nat)
    requires k < |parts|
    ensures var j := Join(sep, parts); var i := JoinOffset(sep, parts, k);
      && OccursAt(j, parts[k], i)
      && (k + 1 < |parts| ==> OccursAt(j, sep, i + |parts[k]|))
      && (k + 1 == |parts| ==> |j| == i + |parts[k]|)
  {
    if |parts| == 1 {
      assert parts[0][0..|parts[0]|] == parts[0];
    } else {
      var rest := Join(sep, parts[1..]);
      assert Join(sep, parts) == parts[0] + sep + rest;
      if k == 0 {
        OccursInThree(parts[0], sep, rest);
      } else {
        JoinLayout(sep, parts[1..], k - 1);
        var i := JoinOffset(sep, parts[1..], k - 1);
        assert parts[1..][k - 1] == parts[k];
        assert JoinOffset(sep, parts, k) == |parts[0]| + |sep| + i;
        OccursAfterTwo(parts[0], sep, rest, parts[k], i);
        if k + 1 < |parts| {
          OccursAfterTwo(parts[0], sep, rest, sep, i + |parts[k]|);
        }
      }
    }
  }

  lemma OccursInThree(a: string, b: string, c: string)
    ensures OccursAt(a + b + c, a, 0) && OccursAt(a + b + c, b, |a|)
  {
    assert (a + b + c)[0..|a|] == a;
    assert (a + b + c)[|a|..|a| + |b|] == b;
  }

  lemma OccursAfterTwo(a: string, b: string, c: string, q: string, i: nat)
    requires OccursAt(c, q, i)
    ensures OccursAt(a + b + c, q, |a| + |b| + i)
  {
    assert (a + b + c)[|a| + |b| + i..|a| + |b| + i + |q|] == c[i..i + |q|];
  }

  lemma OccursShifted(a: string, b: string, q: string, i: nat)
    requires OccursAt(b, q, i)
    ensures OccursAt(a + b, q, |a| + i)
  {
    assert (a + b)[|a| + i..|a| + i + |q|] == b[i..i + |q|];
  }

  /** Part `k` sits in `m` where a text of `base` characters followed by
      `Join(sep, parts)` puts it: after the earlier parts and their
      separators.  The separator follows it unless it is the last part,
      which ends `m`. */
  predicate PartAt(m: string, base: nat, sep: string, parts: seq<string>, k: nat)
    requires k < |parts|
  {
    var at := base + JoinOffset(sep, parts, k);
    && OccursAt(m, parts[k], at)
    && (k + 1 < |parts| ==> OccursAt(m, sep, at + |parts[k]|) && base + JoinOffset(sep, parts, k + 1) == at + |parts[k]| + |sep|)
    && (k + 1 == |parts| ==> |m| == at + |parts[k]|)
  }

  /** A prefix followed by joined parts is laid out part by part. */
  lemma JoinAfterPrefix(prefix: string, sep: string, parts: seq<string>, k: nat, m: string)
    requires k < |parts| && m == prefix + Join(sep, parts)
    ensures PartAt(m, |prefix|, sep, parts, k)
  {
    var j := Join(sep, parts);
    var i := JoinOffset(sep, parts, k);
    JoinLayout(sep, parts, k);
    OccursShifted(prefix, j, parts[k], i);
    if k + 1 < |parts| {
      JoinOffsetStep(sep, parts, k);
      OccursShifted(prefix, j, sep, i + |parts[k]|);
    }
  }

  /** Every part can be found in the joined text. */
  lemma JoinContains(sep: string, parts: seq<string>, k: nat)
    requires k < |parts|
    ensures Includes(Join(sep, parts), parts[k])
  {
    JoinLayout(sep, parts, k);
  }

  /** Parts come in their order: part `k` ends, and a separator follows it,
      before part `m` starts for every later `m`. */
  lemma {:induction false} JoinOrder(sep: string, parts: seq<string>, k: nat, m: nat)
    requires k < m < |parts|
    ensures JoinOffset(sep, parts, k) + |parts[k]| + |sep| <= JoinOffset(sep, parts, m)
    decreases m
  {
    JoinOffsetStep(sep, parts, m - 1);
    if k < m - 1 {
      JoinOrder(sep, parts, k, m - 1);
    }
  }

  /** Joining one more part adds the separator and that part at the end. */
  lemma {:induction false} JoinSnoc(sep: string, parts: seq<string>, p: string)
    requires parts != []
    ensures Join(sep, parts + [p]) == Join(sep, parts) + sep + p
  {
    if |parts| == 1 {
      assert (parts + [p])[1..] == [p];
    } else {
      assert (parts + [p])[1..] == parts[1..] + [p];
      JoinSnoc(sep, parts[1..], p);
    }
  }

  // ---------------------------------------------------------------------
  // Numbers as decimal text (String(n) and template interpolation)
  // ---------------------------------------------------------------------

  function DigitChar(d: nat): (c: char)
    requires d < 10
    ensures '0' <= c <= '9' && c as int - '0' as int == d
  {
    ('0' as int + d) as char
  }

  /** Decimal text of a natural number, as `String(n)` prints it. */
  function NatToString(n: nat): (s: string)
    ensures |s| >= 1
    ensures forall k :: 0 <= k < |s| ==> '0' <= s[k] <= '9'
    ensures DecimalValue(s) == n
    ensures s[0] == '0' ==> n == 0
  {
    if n < 10 then [DigitChar(n)]
    else
      var p := NatToString(n / 10);
      var s := p + [DigitChar(n % 10)];
      assert s[..|s| - 1] == p;
      s
  }

  /** Value of a string of decimal digits, read most significant first. */
  function DecimalValue(s: string): nat
    requires forall k :: 0 <= k < |s| ==> '0' <= s[k] <= '9'
  {
    if s == [] then 0
    else DecimalValue(s[..|s| - 1]) * 10 + (s[|s| - 1] as int - '0' as int)
  }

  // ---------------------------------------------------------------------
  // Array.prototype.filter and Array.prototype.findIndex
  // ---------------------------------------------------------------------

  /** `a` is `b` with some elements left out, the rest in their order. */
  ghost predicate IsSubsequence<T>(a: seq<T>, b: seq<T>)
    decreases |b|
  {
    a == [] || (b != [] && ((a[0] == b[0] && IsSubsequence(a[1..], b[1..])) || IsSubsequence(a, b[1..])))
  }

  /** `s.filter(p)`: the elements that satisfy `p`, in their order. */
  function Filter<T>(s: seq<T>, p: T -> bool): (r: seq<T>)
    ensures |r| <= |s|
    ensures forall x :: x in r ==> p(x)
  {
    if s == [] then []
    else if p(s[0]) then [s[0]] + Filter(s[1..], p)
    else Filter(s[1..], p)
  }

  /** An element is kept exactly when it is in the input and satisfies `p`. */
  lemma {:induction false} FilterMembers<T>(s: seq<T>, p: T -> bool, x: T)
    ensures x in Filter(s, p) <==> x in s && p(x)
  {
    if s != [] {
      FilterMembers(s[1..], p, x);
      assert x in s <==> x == s[0] || x in s[1..];
    }
  }

  /** The kept elements keep their order, and none is repeated or invented. */
  lemma {:induction false} FilterIsSubsequence<T>(s: seq<T>, p: T -> bool)
    ensures IsSubsequence(Filter(s, p), s)
    ensures multiset(Filter(s, p)) <= multiset(s)
  {
    if s != [] {
      FilterIsSubsequence(s[1..], p);
      assert s == [s[0]] + s[1..];
      var r := Filter(s, p);
      if p(s[0]) {
        assert r[0] == s[0] && r[1..] == Filter(s[1..], p);
      } else {
        SubsequenceOfTail(r, s);
      }
    }
  }

  /** Each value occurs in the result as often as in the input when it
      satisfies `p`, and not at all otherwise. */
  lemma {:induction false} FilterMultiplicity<T>(s: seq<T>, p: T -> bool, x: T)
    ensures multiset(Filter(s, p))[x] == if p(x) then multiset(s)[x] else 0
  {
    if s != [] {
      FilterMultiplicity(s[1..], p, x);
      assert s == [s[0]] + s[1..];
    }
  }

  /** How many elements of `s` satisfy `p`, counted from the back. */
  function Count<T>(s: seq<T>, p: T -> bool): nat
    decreases |s|
  {
    if s == [] then 0
    else Count(s[..|s| - 1], p) + (if p(s[|s| - 1]) then 1 else 0)
  }

  /** The filtered list is as long as the number of elements that satisfy
      the test. */
  lemma {:induction false} FilterLength<T>(s: seq<T>, p: T -> bool)
    ensures |Filter(s, p)| == Count(s, p)
    decreases |s|
  {
    if s != [] {
      var init := s[..|s| - 1];
      FilterLength(init, p);
      FilterSnoc(init, s[|s| - 1], p);
      assert s == init + [s[|s| - 1]];
    }
  }

  /** Filtering a list with one more element at the end. */
  lemma {:induction false} FilterSnoc<T>(s: seq<T>, x: T, p: T -> bool)
    ensures Filter(s + [x], p) == Filter(s, p) + (if p(x) then [x] else [])
    decreases |s|
  {
    if s == [] {
      assert [x][1..] == [];
    } else {
      assert (s + [x])[0] == s[0] && (s + [x])[1..] == s[1..] + [x];
      FilterSnoc(s[1..], x, p);
    }
  }

  lemma SubsequenceOfTail<T>(a: seq<T>, b: seq<T>)
    requires b != [] && IsSubsequence(a, b[1..])
    ensures IsSubsequence(a, b)
  {
  }

  /** Filtering with a test every element passes changes nothing. */
  lemma {:induction false} FilterAll<T>(s: seq<T>, p: T -> bool)
    requires forall k :: 0 <= k < |s| ==> p(s[k])
    ensures Filter(s, p) == s
  {
    if s != [] {
      FilterAll(s[1..], p);
    }
  }

  /** Filtering twice with the same test is filtering once. */
  lemma {:induction false} FilterIdempotent<T>(s: seq<T>, p: T -> bool)
    ensures Filter(Filter(s, p), p) == Filter(s, p)
  {
    var r := Filter(s, p);
    forall k | 0 <= k < |r| ensures p(r[k]) {
      assert r[k] in r;
    }
    FilterAll(r, p);
  }

  /** `s.findIndex(p)`: the first index whose element satisfies `p`, or -1. */
  function FindIndex<T>(s: seq<T>, p: T -> bool): (i: int)
    ensures -1 <= i < |s|
    ensures i >= 0 ==> p(s[i]) && forall k :: 0 <= k < i ==> !p(s[k])
    ensures i < 0 ==> forall k :: 0 <= k < |s| ==> !p(s[k])
  {
    if s == [] then -1
    else if p(s[0]) then 0
    else
      var j := FindIndex(s[1..], p);
      if j < 0 then -1 else j + 1
  }

  // ---------------------------------------------------------------------
  // Name order and an insertion sort (stand-ins for localeCompare and sort)
  // ---------------------------------------------------------------------

  /** Code-point lexicographic order: `a` sorts before or level with `b`. */
  predicate NameLe(a: string, b: string) {
    a == [] || (b != [] && (a[0] < b[0] || (a[0] == b[0] && NameLe(a[1..], b[1..]))))
  }

  lemma {:induction false} NameLeTotal(a: string, b: string)
    ensures NameLe(a, b) || NameLe(b, a)
  {
    if a != [] && b != [] && a[0] == b[0] {
      NameLeTotal(a[1..], b[1..]);
    }
  }

  lemma {:induction false} NameLeTransitive(a: string, b: string, c: string)
    requires NameLe(a, b) && NameLe(b, c)
    ensures NameLe(a, c)
  {
    if a != [] && b != [] && c != [] && a[0] == b[0] && b[0] == c[0] {
      NameLeTransitive(a[1..], b[1..], c[1..]);
    }
  }

  /** `s` is in ascending order of `key`. */
  ghost predicate SortedBy<T>(s: seq<T>, key: T -> string) {
    forall i, j :: 0 <= i < j < |s| ==> NameLe(key(s[i]), key(s[j]))
  }

  /** A head whose key is below every key of a sorted tail gives a sorted
      sequence. */
  lemma ConsSorted<T>(h: T, t: seq<T>, key: T -> string)
    requires SortedBy(t, key)
    requires forall j :: 0 <= j < |t| ==> NameLe(key(h), key(t[j]))
    ensures SortedBy([h] + t, key)
  {
    var r := [h] + t;
    forall i, j | 0 <= i < j < |r| ensures NameLe(key(r[i]), key(r[j])) {
      if i > 0 {
        assert r[i] == t[i - 1] && r[j] == t[j - 1];
      }
    }
  }

  /** Every element of a sorted sequence has a key at least its head's. */
  lemma HeadLeAll<T>(x: T, s: seq<T>, key: T -> string)
    requires s != [] && SortedBy(s, key) && NameLe(key(x), key(s[0]))
    ensures forall j :: 0 <= j < |s| ==> NameLe(key(x), key(s[j]))
  {
    forall j | 0 < j < |s| ensures NameLe(key(x), key(s[j])) {
      NameLeTransitive(key(x), key(s[0]), key(s[j]));
    }
  }

  /** Anything in the tail's multiset plus `x` is `x` or a later element. */
  lemma TailBelowHead<T>(x: T, s: seq<T>, t: seq<T>, key: T -> string)
    requires s != [] && SortedBy(s, key) && NameLe(key(s[0]), key(x))
    requires multiset(t) == multiset(s[1..]) + multiset{x}
    ensures forall j :: 0 <= j < |t| ==> NameLe(key(s[0]), key(t[j]))
  {
    forall j | 0 <= j < |t| ensures NameLe(key(s[0]), key(t[j])) {
      assert t[j] in multiset(t);
      if t[j] != x {
        assert t[j] in multiset(s[1..]);
        var k :| 0 <= k < |s[1..]| && s[1..][k] == t[j];
        assert s[k + 1] == t[j];
      }
    }
  }

  /** Puts `x` in front of the first element whose key is not below its own. */
  function InsertBy<T>(x: T, s: seq<T>, key: T -> string): (r: seq<T>)
    requires SortedBy(s, key)
    ensures SortedBy(r, key)
    ensures multiset(r) == multiset(s) + multiset{x}
    ensures |r| == |s| + 1
    ensures r[0] == x || (s != [] && r[0] == s[0])
  {
    if s == [] then [x]
    else if NameLe(key(x), key(s[0])) then
      HeadLeAll(x, s, key);
      ConsSorted(x, s, key);
      [x] + s
    else
      NameLeTotal(key(x), key(s[0]));
      assert s == [s[0]] + s[1..];
      var t := InsertBy(x, s[1..], key);
      TailBelowHead(x, s, t, key);
      ConsSorted(s[0], t, key);
      [s[0]] + t
  }

  /** Sort by `key`: an insertion sort that puts each element ahead of the
      first one whose key is not smaller.  Its contract states the order and
      the permutation; that equal keys keep their relative order, as
      `Array.prototype.sort` promises, is not stated. */
  function SortBy<T>(s: seq<T>, key: T -> string): (r: seq<T>)
    ensures SortedBy(r, key)
    ensures multiset(r) == multiset(s)
    ensures |r| == |s|
  {
    if s == [] then []
    else
      assert s == [s[0]] + s[1..];
      InsertBy(s[0], SortBy(s[1..], key), key)
  }
}
