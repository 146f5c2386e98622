/** The few ECMAScript string operations the registrars and the request handler
    rely on: `toLowerCase`, `split` on a one-character separator, `includes`,
    `replace` with a string pattern (first occurrence only) and `trim`. */
module JsStrings {
  import opened Optional

  // ---------------------------------------------------------------------------
  // String.prototype.toLowerCase

  predicate IsAsciiUpper(c: char) {
    'A' <= c <= 'Z'
  }

  function LowerChar(c: char): char {
    if IsAsciiUpper(c) then (c as int - 'A' as int + 'a' as int) as char else c
  }

  /** `s.toLowerCase()`, restricted to the ASCII letters (HTTP method names). */
  function ToLower(s: string): (r: string)
    ensures |r| == |s|
    ensures forall i :: 0 <= i < |s| ==> r[i] == LowerChar(s[i])
    ensures forall i :: 0 <= i < |r| ==> !IsAsciiUpper(r[i])
    decreases |s|
  {
    if s == [] then [] else [LowerChar(s[0])] + ToLower(s[1..])
  }

  /** Lowering a second time changes nothing. */
  lemma {:induction false} ToLowerIdempotent(s: string)
    ensures ToLower(ToLower(s)) == ToLower(s)
  {
    var once := ToLower(s);
    var twice := ToLower(once);
    forall i | 0 <= i < |s|
      ensures twice[i] == once[i]
    {
      assert !IsAsciiUpper(once[i]);
    }
  }

  /** The method name of the examples. */
  lemma ToLowerGet()
    ensures ToLower("GET") == "get"
  {
    assert ToLower("GET") == [LowerChar('G'), LowerChar('E'), LowerChar('T')];
  }

  // ---------------------------------------------------------------------------
  // String.prototype.split with a one-character separator

  /** The index of the first `c` in `s`, if any. */
  function FindChar(s: string, c: char): (r: Option<nat>)
    ensures r.Some? ==> r.value < |s| && s[r.value] == c && c !in s[..r.value]
    ensures r.None? ==> c !in s
    decreases |s|
  {
    if s == [] then None
    else if s[0] == c then Some(0)
    else match FindChar(s[1..], c)
      case None => None
      case Some(k) =>
        assert s[..k + 1] == [s[0]] + s[1..][..k];
        Some(k + 1)
  }

  /** `parts.join(sep)`. */
  function Join(parts: seq<string>, sep: char): string
    requires |parts| > 0
    decreases |parts|
  {
    if |parts| == 1 then parts[0] else parts[0] + [sep] + Join(parts[1..], sep)
  }

  predicate NoSeparator(parts: seq<string>, sep: char) {
    forall k :: 0 <= k < |parts| ==> sep !in parts[k]
  }

  /** `s.split(sep)`: the maximal runs between occurrences of `sep`; there is
      always at least one part, and exactly one when `sep` does not occur. */
  function Split(s: string, sep: char): (parts: seq<string>)
    ensures |parts| > 0
    ensures |parts| == 1 <==> sep !in s
    ensures NoSeparator(parts, sep)
    ensures Join(parts, sep) == s
    decreases |s|
  {
    match FindChar(s, sep)
    case None => [s]
    case Some(i) =>
      var rest := Split(s[i + 1..], sep);
      SplitAt(s, sep, i, rest);
      [s[..i]] + rest
  }

  /** Cutting `s` at its first separator `s[i]` and prefixing the parts of
      what follows gives the parts of `s`. */
  lemma SplitAt(s: string, sep: char, i: nat, rest: seq<string>)
    requires i < |s| && s[i] == sep && sep !in s[..i]
    requires |rest| > 0 && NoSeparator(rest, sep) && Join(rest, sep) == s[i + 1..]
    ensures var parts := [s[..i]] + rest;
      |parts| > 1 && NoSeparator(parts, sep) && Join(parts, sep) == s
  {
    var parts := [s[..i]] + rest;
    assert parts[1..] == rest;
    assert s == s[..i] + [sep] + s[i + 1..];
  }

  lemma FindCharAfterPrefix(a: string, c: char, b: string)
    requires c !in a
    ensures FindChar(a + [c] + b, c) == Some(|a|)
    decreases |a|
  {
    if a != [] {
      assert (a + [c] + b)[1..] == a[1..] + [c] + b;
      FindCharAfterPrefix(a[1..], c, b);
    }
  }

  /** Splitting undoes joining parts that do not contain the separator. */
  lemma {:induction false} SplitJoin(parts: seq<string>, sep: char)
    requires |parts| > 0
    requires NoSeparator(parts, sep)
    ensures Split(Join(parts, sep), sep) == parts
    decreases |parts|
  {
    if |parts| == 1 {
      assert Join(parts, sep) == parts[0];
    } else {
      var rest := Join(parts[1..], sep);
      var s := parts[0] + [sep] + rest;
      assert Join(parts, sep) == s;
      FindCharAfterPrefix(parts[0], sep, rest);
      assert s[..|parts[0]|] == parts[0];
      assert s[|parts[0]| + 1..] == rest;
      assert NoSeparator(parts[1..], sep) by {
        forall k | 0 <= k < |parts| - 1 ensures sep !in parts[1..][k] {
          assert parts[1..][k] == parts[k + 1];
        }
      }
      SplitJoin(parts[1..], sep);
    }
  }

  /** When `sep` occurs, the second part is the text right after the first
      separator, up to the next one. */
  lemma SecondPart(s: string, sep: char)
    requires sep in s
    ensures var parts := Split(s, sep);
      var k := |parts[0]|;
      |parts| > 1 && k < |s| && s[k] == sep &&
      k + 1 + |parts[1]| <= |s| && parts[1] == s[k + 1..k + 1 + |parts[1]|] && sep !in parts[1]
  {
    JoinSecond(Split(s, sep), sep);
  }

  /** In the join of two or more parts, the second part follows the first
      separator. */
  lemma JoinSecond(parts: seq<string>, sep: char)
    requires |parts| > 1
    ensures var s := Join(parts, sep);
      var k := |parts[0]|;
      k < |s| && s[k] == sep &&
      k + 1 + |parts[1]| <= |s| && parts[1] == s[k + 1..k + 1 + |parts[1]|]
  {
    var rest := Join(parts[1..], sep);
    var k := |parts[0]|;
    var s := parts[0] + [sep] + rest;
    assert Join(parts, sep) == s;
    var b := parts[1];
    assert |b| <= |rest| && rest[..|b|] == b by {
      if |parts| > 2 {
        assert rest == b + [sep] + Join(parts[2..], sep) by {
          assert parts[1..][1..] == parts[2..];
        }
      }
    }
    assert s[k + 1..] == rest;
  }

  /** Two space-free words joined by one space split back into the two. */
  lemma SplitTwo(s: string, a: string, b: string)
    requires ' ' !in a && ' ' !in b && s == a + " " + b
    ensures Split(s, ' ') == [a, b]
  {
    var parts := [a, b];
    assert NoSeparator(parts, ' ') by {
      assert ' ' !in parts[0];
      assert ' ' !in parts[1];
    }
    assert Join(parts, ' ') == s by {
      assert Join(parts[1..], ' ') == parts[1];
    }
    SplitJoin(parts, ' ');
  }

  /** The first part is the text before the first `sep`; when there is a
      second part, it follows that separator. */
  lemma SplitHead(s: string, sep: char)
    ensures var parts := Split(s, sep);
      |parts[0]| <= |s| && parts[0] == s[..|parts[0]|] &&
      (|parts| == 1 ==> parts[0] == s) &&
      (|parts| > 1 ==> s[|parts[0]|] == sep && parts[1..] == Split(s[|parts[0]| + 1..], sep))
  {
    match FindChar(s, sep)
    case None =>
    case Some(i) =>
      var parts := Split(s, sep);
      assert parts == [s[..i]] + Split(s[i + 1..], sep);
  }

  // ---------------------------------------------------------------------------
  // String.prototype.includes and String.prototype.replace (string pattern)

  predicate OccursAt(s: string, pat: string, j: int) {
    0 <= j && j + |pat| <= |s| && s[j..j + |pat|] == pat
  }

  lemma OccursAtTail(s: string, pat: string, j: int)
    requires |s| > 0 && 0 <= j
    ensures OccursAt(s[1..], pat, j) <==> OccursAt(s, pat, j + 1)
  {
    if 0 <= j && j + |pat| <= |s| - 1 {
      assert s[1..][j..j + |pat|] == s[j + 1..j + 1 + |pat|];
    }
  }

  /** `s.indexOf(pat)`: the first position where `pat` occurs. */
  function IndexOf(s: string, pat: string): (r: Option<nat>)
    ensures r.Some? ==> OccursAt(s, pat, r.value)
    ensures r.Some? ==> forall j :: 0 <= j < r.value ==> !OccursAt(s, pat, j)
    ensures r.None? ==> forall j :: !OccursAt(s, pat, j)
    decreases |s|
  {
    if OccursAt(s, pat, 0) then Some(0)
    else if s == [] then None
    else match IndexOf(s[1..], pat)
      case None =>
        assert forall j :: !OccursAt(s, pat, j) by {
          forall j ensures !OccursAt(s, pat, j) {
            if j > 0 { OccursAtTail(s, pat, j - 1); }
          }
        }
        None
      case Some(k) =>
        assert forall j :: 0 <= j < k + 1 ==> !OccursAt(s, pat, j) by {
          forall j | 0 <= j < k + 1 ensures !OccursAt(s, pat, j) {
            if j > 0 { OccursAtTail(s, pat, j - 1); }
          }
        }
        OccursAtTail(s, pat, k);
        Some(k + 1)
  }

  /** `s.includes(pat)`. */
  predicate Includes(s: string, pat: string)
    ensures Includes(s, pat) <==> exists j :: OccursAt(s, pat, j)
  {
    IndexOf(s, pat).Some?
  }

  /** `s.replace(pat, rep)` with a string pattern: only the first occurrence
      is replaced; without one, `s` is returned as it is. */
  function ReplaceFirst(s: string, pat: string, rep: string): (r: string)
    ensures !Includes(s, pat) ==> r == s
    ensures Includes(s, pat) ==> |r| == |s| - |pat| + |rep|
  {
    match IndexOf(s, pat)
    case None => s
    case Some(i) => s[..i] + rep + s[i + |pat|..]
  }

  /** Replacing the first occurrence by nothing removes exactly that one copy
      of `pat` and keeps the text around it. */
  lemma RemoveFirst(s: string, pat: string)
    requires Includes(s, pat)
    ensures var i := IndexOf(s, pat).value;
      var r := ReplaceFirst(s, pat, "");
      |r| == |s| - |pat| && r == s[..i] + s[i + |pat|..] && s == r[..i] + pat + r[i..]
  {
    CutOut(s, pat, IndexOf(s, pat).value);
  }

  lemma CutOut(s: string, pat: string, i: nat)
    requires i + |pat| <= |s| && s[i..i + |pat|] == pat
    ensures var r := s[..i] + s[i + |pat|..];
      |r| == |s| - |pat| && s == r[..i] + pat + r[i..]
  {
    var r := s[..i] + s[i + |pat|..];
    assert r[..i] == s[..i];
    assert r[i..] == s[i + |pat|..];
    assert s == s[..i] + s[i..i + |pat|] + s[i + |pat|..];
  }

  // ---------------------------------------------------------------------------
  // String.prototype.trim

  /** ECMAScript WhiteSpace and LineTerminator code points, the characters
      `trim` removes. */
  predicate IsWhiteSpace(c: char) {
    if c <= '\U{0020}' then c == '\U{0020}' || '\U{0009}' <= c <= '\U{000D}'
    else if c < '\U{00A0}' then false
    else
      c == '\U{00A0}' || c == '\U{1680}' || '\U{2000}' <= c <= '\U{200A}' ||
      c == '\U{2028}' || c == '\U{2029}' || c == '\U{202F}' || c == '\U{205F}' ||
      c == '\U{3000}' || c == '\U{FEFF}'
  }

  /** Neither end of `s` is white space. */
  predicate IsTrimmed(s: string) {
    s == [] || (!IsWhiteSpace(s[0]) && !IsWhiteSpace(s[|s| - 1]))
  }

  /** How many white-space characters `s` starts with. */
  function LeadingWhiteSpace(s: string): (n: nat)
    ensures n <= |s|
    ensures forall k :: 0 <= k < n ==> IsWhiteSpace(s[k])
    ensures n == |s| || !IsWhiteSpace(s[n])
    decreases |s|
  {
    if s != [] && IsWhiteSpace(s[0]) then 1 + LeadingWhiteSpace(s[1..]) else 0
  }

  /** How many white-space characters `s` ends with. */
  function TrailingWhiteSpace(s: string): (n: nat)
    ensures n <= |s|
    ensures forall k :: |s| - n <= k < |s| ==> IsWhiteSpace(s[k])
    ensures n == |s| || !IsWhiteSpace(s[|s| - n - 1])
    decreases |s|
  {
    if s != [] && IsWhiteSpace(s[|s| - 1]) then 1 + TrailingWhiteSpace(s[..|s| - 1]) else 0
  }

  /** `s.trim()`: `s` without its leading and trailing white space. The result
      is the piece of `s` that starts at `TrimOffset(s)`, and only white space
      is cut off on either side. */
  function Trim(s: string): (r: string)
    ensures IsTrimmed(r)
    ensures TrimOffset(s) + |r| <= |s|
    ensures r == s[TrimOffset(s)..TrimOffset(s) + |r|]
    ensures forall k :: 0 <= k < TrimOffset(s) ==> IsWhiteSpace(s[k])
    ensures forall k :: TrimOffset(s) + |r| <= k < |s| ==> IsWhiteSpace(s[k])
  {
    var i := LeadingWhiteSpace(s);
    var t := s[i..];
    var r := t[..|t| - TrailingWhiteSpace(t)];
    TrimmedPiece(s, i, t, TrailingWhiteSpace(t), r);
    TrimmedTail(s, i, t, TrailingWhiteSpace(t), r);
    r
  }

  /** Cutting `i` characters off the front of `s`, the first of them that
      remains not white space, and then `n` off the back, the last remaining
      one not white space, leaves a piece of `s` with no white space at
      either end. */
  lemma TrimmedPiece(s: string, i: nat, t: string, n: nat, r: string)
    requires i <= |s| && (i == |s| || !IsWhiteSpace(s[i])) && t == s[i..]
    requires n <= |t| && (n == |t| || !IsWhiteSpace(t[|t| - n - 1])) && r == t[..|t| - n]
    ensures IsTrimmed(r) && r == s[i..i + |r|]
  {
    if r != [] {
      assert r[0] == s[i];
    }
  }

  /** When the `n` characters cut off the back are white space, everything
      after the piece is white space. */
  lemma TrimmedTail(s: string, i: nat, t: string, n: nat, r: string)
    requires i <= |s| && t == s[i..] && n <= |t| && r == t[..|t| - n]
    requires forall k :: |t| - n <= k < |t| ==> IsWhiteSpace(t[k])
    ensures forall k :: i + |r| <= k < |s| ==> IsWhiteSpace(s[k])
  {
    forall k | i + |r| <= k < |s|
      ensures IsWhiteSpace(s[k])
    {
      assert t[k - i] == s[k];
    }
  }

  /** How many characters `trim` removes from the front. */
  function TrimOffset(s: string): nat {
    LeadingWhiteSpace(s)
  }

  /** Trimming a second time changes nothing. */
  lemma TrimIdempotent(s: string)
    ensures Trim(Trim(s)) == Trim(s)
  {
    TrimmedIsFixed(Trim(s));
  }

  /** A string with no white space at either end is its own trim. */
  lemma TrimmedIsFixed(s: string)
    requires IsTrimmed(s)
    ensures Trim(s) == s
  {
  }
}
