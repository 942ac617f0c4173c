/** The few Python `str` operations the core relies on, over ASCII text.
    Characters outside ASCII are left unchanged by case mapping and are
    never whitespace. */
module Strings {

  predicate IsUpperAscii(c: char) { 'A' <= c <= 'Z' }
  predicate IsLowerAscii(c: char) { 'a' <= c <= 'z' }
  predicate IsLetter(c: char) { IsUpperAscii(c) || IsLowerAscii(c) }
  predicate IsDigit(c: char) { '0' <= c <= '9' }

  /** The characters Python's `str.isspace` accepts below code point 128. */
  predicate IsSpace(c: char) {
    c == ' ' || c == '\t' || c == '\n' || c == '\r' || c == '\U{B}' || c == '\U{C}'
    || ('\U{1C}' <= c <= '\U{1F}')
  }

  function LowerChar(c: char): (r: char)
    ensures IsUpperAscii(c) ==> IsLowerAscii(r)
    ensures !IsUpperAscii(c) ==> r == c
  {
    if IsUpperAscii(c) then (c as int + 32) as char else c
  }

  function UpperChar(c: char): (r: char)
    ensures IsLowerAscii(c) ==> IsUpperAscii(r)
    ensures !IsLowerAscii(c) ==> r == c
  {
    if IsLowerAscii(c) then (c as int - 32) as char else c
  }

  /** `str.lower()` */
  function Lower(s: string): (r: string)
    ensures |r| == |s|
    ensures forall i :: 0 <= i < |s| ==> r[i] == LowerChar(s[i])
    ensures forall i :: 0 <= i < |s| ==> !IsUpperAscii(r[i])
  {
    if s == [] then [] else [LowerChar(s[0])] + Lower(s[1..])
  }

  /** Lower-casing twice changes nothing more. */
  lemma LowerIdempotent(s: string)
    ensures Lower(Lower(s)) == Lower(s)
  {
    var l := Lower(s);
    assert forall i :: 0 <= i < |l| ==> Lower(l)[i] == l[i];
  }

  /** Text without capitals is its own lower-case form. */
  lemma LowerFixed(s: string)
    requires forall i :: 0 <= i < |s| ==> !IsUpperAscii(s[i])
    ensures Lower(s) == s
  {
    assert forall i :: 0 <= i < |s| ==> Lower(s)[i] == s[i];
  }

  /** No ASCII capital letter occurs. */
  predicate NoUpper(s: string) {
    s == [] || (!IsUpperAscii(s[0]) && NoUpper(s[1..]))
  }

  /** Text without capitals is its own lower-case form. */
  lemma {:induction false} LowerNoUpper(s: string)
    requires NoUpper(s)
    ensures Lower(s) == s
  {
    if s != [] {
      LowerNoUpper(s[1..]);
    }
  }

  /** `str.upper()` */
  function Upper(s: string): (r: string)
    ensures |r| == |s|
    ensures forall i :: 0 <= i < |s| ==> r[i] == UpperChar(s[i])
  {
    if s == [] then [] else [UpperChar(s[0])] + Upper(s[1..])
  }

  /** `s.startswith(p)` */
  predicate StartsWith(s: string, p: string) {
    |p| <= |s| && s[..|p|] == p
  }

  /** `sub in s` */
  predicate Contains(s: string, sub: string)
    decreases |s|
  {
    StartsWith(s, sub) || (|s| > 0 && Contains(s[1..], sub))
  }

  /** A prefix of the text is found in it. */
  lemma {:induction false} ContainsPrefix(s: string, p: string)
    requires StartsWith(s, p)
    ensures Contains(s, p)
  {
  }

  /** Anything found in the tail of a text is found in the text. */
  lemma {:induction false} ContainsAfter(pre: string, s: string, sub: string)
    requires Contains(s, sub)
    ensures Contains(pre + s, sub)
    decreases |pre|
  {
    if pre != [] {
      ContainsAfter(pre[1..], s, sub);
      assert (pre + s)[1..] == pre[1..] + s;
    } else {
      assert pre + s == s;
    }
  }

  /** Anything found at the front of a text is still found when more follows. */
  lemma {:induction false} ContainsBefore(s: string, post: string, sub: string)
    requires Contains(s, sub)
    ensures Contains(s + post, sub)
    decreases |s|
  {
    if StartsWith(s, sub) {
      assert (s + post)[..|sub|] == s[..|sub|];
    } else {
      ContainsBefore(s[1..], post, sub);
      assert (s + post)[1..] == s[1..] + post;
    }
  }

  /** A text built as `pre + mid + post` starts with `pre` and contains `mid`. */
  lemma ContainsMiddle(pre: string, mid: string, post: string)
    ensures StartsWith(pre + mid + post, pre)
    ensures Contains(pre + mid + post, mid)
  {
    assert (pre + mid + post)[..|pre|] == pre;
    assert StartsWith(mid + post, mid) by {
      assert (mid + post)[..|mid|] == mid;
    }
    ContainsPrefix(mid + post, mid);
    ContainsAfter(pre, mid + post, mid);
    assert pre + (mid + post) == pre + mid + post;
  }

  /** `any(w in s for w in words)` */
  predicate ContainsAny(s: string, words: seq<string>) {
    exists i :: 0 <= i < |words| && Contains(s, words[i])
  }

  /** `s.replace(a, b)` for one-character `a` and `b`. */
  function ReplaceChar(s: string, a: char, b: char): (r: string)
    ensures |r| == |s|
    ensures forall i :: 0 <= i < |s| ==> r[i] == (if s[i] == a then b else s[i])
  {
    if s == [] then [] else [if s[0] == a then b else s[0]] + ReplaceChar(s[1..], a, b)
  }

  /** `str.lstrip()`: what follows the leading run of whitespace. */
  function StripLeft(s: string): (r: string)
    ensures r == [] || !IsSpace(r[0])
    ensures |r| <= |s| && r == s[|s| - |r|..]
  {
    StripFrom(s, 0)
  }

  /** What follows the run of whitespace that starts at `i`. */
  function StripFrom(s: string, i: nat): (r: string)
    requires i <= |s|
    ensures r == [] || !IsSpace(r[0])
    ensures |r| <= |s| - i && r == s[|s| - |r|..]
    decreases |s| - i
  {
    if i < |s| && IsSpace(s[i]) then StripFrom(s, i + 1) else s[i..]
  }

  /** `StripFrom` skips exactly the run `SpaceRun` counts. */
  lemma {:induction false} StripFromRun(s: string, i: nat)
    requires i <= |s|
    ensures StripFrom(s, i) == s[i + SpaceRun(s, i)..]
    decreases |s| - i
  {
    if i < |s| && IsSpace(s[i]) {
      StripFromRun(s, i + 1);
    }
  }

  /** `str.rstrip()`: what precedes the trailing run of whitespace. */
  function StripRight(s: string): (r: string)
    ensures r == [] || !IsSpace(r[|r| - 1])
    ensures |r| <= |s| && r == s[..|r|]
  {
    StripTo(s, |s|)
  }

  /** What precedes the run of whitespace that ends just before `j`. */
  function StripTo(s: string, j: nat): (r: string)
    requires j <= |s|
    ensures r == [] || !IsSpace(r[|r| - 1])
    ensures |r| <= j && r == s[..|r|]
  {
    if j > 0 && IsSpace(s[j - 1]) then StripTo(s, j - 1) else s[..j]
  }

  /** `StripTo` drops exactly the run `TrailingSpaceRun` counts. */
  lemma {:induction false} StripToRun(s: string, j: nat)
    requires j <= |s|
    ensures StripTo(s, j) == s[..j - TrailingSpaceRun(s, j)]
  {
    if j > 0 && IsSpace(s[j - 1]) {
      StripToRun(s, j - 1);
    }
  }

  /** The number of whitespace characters just before position `j`. */
  function TrailingSpaceRun(s: string, j: nat): (n: nat)
    requires j <= |s|
    ensures n <= j
    ensures forall m :: j - n <= m < j ==> IsSpace(s[m])
    ensures n == j || !IsSpace(s[j - n - 1])
  {
    if j > 0 && IsSpace(s[j - 1]) then 1 + TrailingSpaceRun(s, j - 1) else 0
  }

  /** `str.strip()`: no leading or trailing whitespace remains. */
  function Strip(s: string): (r: string)
    ensures r == [] || (!IsSpace(r[0]) && !IsSpace(r[|r| - 1]))
    ensures |r| <= |s|
  {
    StripRight(StripLeft(s))
  }

  /** `str.title()` restricted to ASCII letters: a letter is upper-cased when
      the character before it is not a letter, lower-cased otherwise. */
  function Title(s: string): (r: string)
    ensures |r| == |s|
  {
    TitleAfter(s, false)
  }

  function TitleAfter(s: string, afterLetter: bool): (r: string)
    ensures |r| == |s|
    ensures forall i :: 0 <= i < |s| ==> IsLetter(r[i]) == IsLetter(s[i])
    ensures s != [] ==> r[0] == (if afterLetter then LowerChar(s[0]) else UpperChar(s[0]))
  {
    if s == [] then []
    else
      var c := if afterLetter then LowerChar(s[0]) else UpperChar(s[0]);
      [c] + TitleAfter(s[1..], IsLetter(s[0]))
  }

  /** The number of whitespace characters from position `i` on. */
  function SpaceRun(s: string, i: nat): (n: nat)
    requires i <= |s|
    ensures i + n <= |s|
    ensures forall m :: i <= m < i + n ==> IsSpace(s[m])
    ensures i + n == |s| || !IsSpace(s[i + n])
    decreases |s| - i
  {
    if i < |s| && IsSpace(s[i]) then 1 + SpaceRun(s, i + 1) else 0
  }

  /** Text that neither starts nor ends with whitespace is already stripped. */
  lemma StripFixed(s: string)
    requires s != [] && !IsSpace(s[0]) && !IsSpace(s[|s| - 1])
    ensures Strip(s) == s
  {
    assert StripLeft(s) == s[0..];
    assert StripRight(s) == s[..|s|];
  }

  /** Stripping twice removes nothing more. */
  lemma StripIdempotent(s: string)
    ensures Strip(Strip(s)) == Strip(s)
  {
    var t := Strip(s);
    if t != [] {
      StripFixed(t);
    }
  }

  lemma StripLeftLower(s: string)
    ensures StripLeft(Lower(s)) == Lower(StripLeft(s))
  {
    StripFromLower(s, 0);
  }

  /** Lower-casing keeps whitespace where it is, so skipping the run from
      `i` commutes with it. */
  lemma {:induction false} StripFromLower(s: string, i: nat)
    requires i <= |s|
    ensures StripFrom(Lower(s), i) == Lower(StripFrom(s, i))
    decreases |s| - i
  {
    var l := Lower(s);
    if i < |s| && IsSpace(s[i]) {
      assert l[i] == s[i];
      StripFromLower(s, i + 1);
    } else {
      assert i < |s| ==> !IsSpace(l[i]);
      assert forall j :: 0 <= j < |s| - i ==> l[i..][j] == Lower(s[i..])[j];
    }
  }

  lemma StripRightLower(s: string)
    ensures StripRight(Lower(s)) == Lower(StripRight(s))
  {
    StripToLower(s, |s|);
  }

  /** Lower-casing keeps whitespace where it is, so dropping the run before
      `j` commutes with it. */
  lemma {:induction false} StripToLower(s: string, j: nat)
    requires j <= |s|
    ensures StripTo(Lower(s), j) == Lower(StripTo(s, j))
  {
    var l := Lower(s);
    if j > 0 && IsSpace(s[j - 1]) {
      assert l[j - 1] == s[j - 1];
      StripToLower(s, j - 1);
    } else {
      assert j > 0 ==> !IsSpace(l[j - 1]);
      assert forall m :: 0 <= m < j ==> l[..j][m] == Lower(s[..j])[m];
    }
  }

  /** Lower-casing and stripping can be done in either order. */
  lemma StripLower(s: string)
    ensures Strip(Lower(s)) == Lower(Strip(s))
  {
    StripLeftLower(s);
    StripRightLower(StripLeft(s));
  }

  /** Upper-casing twice changes nothing more. */
  lemma UpperIdempotent(s: string)
    ensures Upper(Upper(s)) == Upper(s)
  {
    var u := Upper(s);
    assert forall i :: 0 <= i < |u| ==> Upper(u)[i] == u[i];
  }

  /** A text cannot contain a word with a character the text lacks. */
  lemma {:induction false} NotContainedByChar(s: string, w: string, c: char)
    requires c in w && c !in s
    ensures !Contains(s, w)
    decreases |s|
  {
    if |s| > 0 {
      NotContainedByChar(s[1..], w, c);
    }
  }

  /** None of `words` occurs in `s` when each has a character, the one
      `marks` gives, that `s` lacks. */
  lemma NoneContained(s: string, words: seq<string>, marks: seq<char>)
    requires |marks| == |words|
    requires forall i :: 0 <= i < |words| ==> marks[i] in words[i]
    requires forall j :: 0 <= j < |s| ==> s[j] !in marks
    ensures !ContainsAny(s, words)
  {
    forall i | 0 <= i < |words| ensures !Contains(s, words[i]) {
      NotContainedByChar(s, words[i], marks[i]);
    }
  }

  /** A text containing `w` contains every piece of `w`. */
  lemma {:induction false} ContainsPiece(s: string, w: string, a: nat, b: nat)
    requires a <= b <= |w| && Contains(s, w)
    ensures Contains(s, w[a..b])
    decreases |s|
  {
    if StartsWith(s, w) {
      ContainsMiddle(s[..a], w[a..b], s[b..]);
      assert s[..a] + w[a..b] + s[b..] == s;
    } else {
      ContainsPiece(s[1..], w, a, b);
      assert s == s[..1] + s[1..];
      ContainsAfter(s[..1], s[1..], w[a..b]);
    }
  }
}
