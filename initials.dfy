/** The initials shown for a user: the upper-cased first letters of the first
    and last words of the name they gave, commas counting as spaces. */
module Initials {
  import opened Strings

  /** Whitespace or a comma: what separates the words of a name. */
  predicate IsSeparator(c: char) { IsSpace(c) || c == ',' }

  /** The number of non-whitespace characters from position `i` on. */
  function WordRun(s: string, i: nat): (n: nat)
    requires i <= |s|
    ensures i + n <= |s|
    ensures forall m :: i <= m < i + n ==> !IsSpace(s[m])
    ensures i + n == |s| || IsSpace(s[i + n])
    decreases |s| - i
  {
    if i < |s| && !IsSpace(s[i]) then 1 + WordRun(s, i + 1) else 0
  }

  /** `s[i:].split()`: the maximal runs of non-whitespace characters, in
      order. There are none exactly when only whitespace is left, and the
      first one starts at the first character that is not whitespace. */
  function SplitFrom(s: string, i: nat): (words: seq<string>)
    requires i <= |s|
    ensures forall k :: 0 <= k < |words| ==> words[k] != []
    ensures words == [] <==> forall m :: i <= m < |s| ==> IsSpace(s[m])
    ensures words != [] ==> words[0][0] == s[i + SpaceRun(s, i)]
    decreases |s| - i
  {
    var j := i + SpaceRun(s, i);
    if j == |s| then []
    else
      var k := j + WordRun(s, j);
      [s[j..k]] + SplitFrom(s, k)
  }

  function SplitWords(s: string): (words: seq<string>)
    ensures forall k :: 0 <= k < |words| ==> words[k] != []
  {
    SplitFrom(s, 0)
  }

  /** The initials of a name already split into words: nothing without
      words; the upper-cased first letter of a single word; otherwise the
      upper-cased first letters of the first and the last word. */
  function InitialsOfWords(words: seq<string>): (r: string)
    requires forall k :: 0 <= k < |words| ==> words[k] != []
    ensures |r| <= 2
    ensures r == [] <==> words == []
    ensures |r| == 2 <==> |words| >= 2
    ensures r != [] ==> r[0] == UpperChar(words[0][0])
    ensures |r| == 2 ==> r[1] == UpperChar(words[|words| - 1][0])
  {
    if words == [] then ""
    else if |words| == 1 then
      (if |words[0]| == 1 then Upper(words[0]) else [UpperChar(words[0][0])])
    else Upper([words[0][0], words[|words| - 1][0]])
  }

  /** The words of a name: surrounding whitespace removed, commas read as
      spaces. */
  function NameWords(name: string): (words: seq<string>)
    ensures forall k :: 0 <= k < |words| ==> words[k] != []
  {
    SplitWords(ReplaceChar(Strip(name), ',', ' '))
  }

  /** `_generate_initials` for the stored name. */
  function GenerateInitials(name: string): (r: string)
    ensures r == InitialsOfWords(NameWords(name))
  {
    if name == [] then ""
    else if Strip(name) == [] then ""
    else InitialsOfWords(NameWords(name))
  }

  /** `Strip(s)` is a slice of `s` with only whitespace around it. */
  lemma {:induction false} StripSlice(s: string) returns (a: nat)
    ensures a + |Strip(s)| <= |s| && Strip(s) == s[a..a + |Strip(s)|]
    ensures forall m :: 0 <= m < a ==> IsSpace(s[m])
    ensures forall m :: a + |Strip(s)| <= m < |s| ==> IsSpace(s[m])
  {
    a := LeftStripped(s);
    RightStripped(s, a, StripLeft(s));
  }

  /** `StripLeft(s)` is the suffix of `s` after its leading whitespace. */
  lemma LeftStripped(s: string) returns (a: nat)
    ensures a <= |s| && StripLeft(s) == s[a..]
    ensures forall m :: 0 <= m < a ==> IsSpace(s[m])
  {
    a := SpaceRun(s, 0);
    StripFromRun(s, 0);
  }

  /** Stripping the right end of the suffix `s[a..]` leaves a slice of `s`
      at `a`, followed in `s` only by whitespace. */
  lemma {:induction false} RightStripped(s: string, a: nat, l: string)
    requires a <= |s| && l == s[a..]
    ensures a + |StripRight(l)| <= |s| && StripRight(l) == s[a..a + |StripRight(l)|]
    ensures forall m :: a + |StripRight(l)| <= m < |s| ==> IsSpace(s[m])
  {
    var r := StripRight(l);
    StripToRun(l, |l|);
    forall m | a + |r| <= m < |s| ensures IsSpace(s[m]) {
      assert s[m] == l[m - a];
    }
  }

  lemma SliceAt(s: string, a: nat, t: string, j: nat)
    requires a + |t| <= |s| && t == s[a..a + |t|] && j < |t|
    ensures s[a + j] == t[j]
  {
  }

  /** Commas read as spaces: a character of the replaced text is whitespace
      exactly when the original one is a separator. */
  lemma ReplacedSeparators(t: string)
    ensures forall m :: 0 <= m < |t| ==> (IsSpace(ReplaceChar(t, ',', ' ')[m]) <==> IsSeparator(t[m]))
  {
  }

  /** A name has nothing but separators exactly when its stripped form has
      nothing but separators. */
  lemma StripKeepsSeparators(name: string)
    ensures (forall m :: 0 <= m < |name| ==> IsSeparator(name[m]))
        <==> (forall m :: 0 <= m < |Strip(name)| ==> IsSeparator(Strip(name)[m]))
  {
    var t := Strip(name);
    var a := StripSlice(name);
    if forall m :: 0 <= m < |t| ==> IsSeparator(t[m]) {
      forall m | 0 <= m < |name| ensures IsSeparator(name[m]) {
        if m < a {
          assert IsSpace(name[m]);
        } else if m < a + |t| {
          SliceAt(name, a, t, m - a);
        } else {
          assert IsSpace(name[m]);
        }
      }
    }
    if forall m :: 0 <= m < |name| ==> IsSeparator(name[m]) {
      forall m | 0 <= m < |t| ensures IsSeparator(t[m]) {
        SliceAt(name, a, t, m);
      }
    }
  }

  /** A name yields no initials exactly when it holds nothing but whitespace
      and commas. */
  lemma InitialsEmpty(name: string)
    ensures GenerateInitials(name) == "" <==> forall m :: 0 <= m < |name| ==> IsSeparator(name[m])
  {
    ReplacedSeparators(Strip(name));
    StripKeepsSeparators(name);
  }

  /** In stripped text, the first initial comes from the first character
      that is not a separator. */
  lemma FirstInitialOfStripped(t: string) returns (j: nat)
    requires InitialsOfWords(SplitWords(ReplaceChar(t, ',', ' '))) != ""
    ensures j < |t| && !IsSeparator(t[j])
    ensures forall m :: 0 <= m < j ==> IsSeparator(t[m])
    ensures InitialsOfWords(SplitWords(ReplaceChar(t, ',', ' ')))[0] == UpperChar(t[j])
  {
    var u := ReplaceChar(t, ',', ' ');
    ReplacedSeparators(t);
    j := SpaceRun(u, 0);
    assert SplitWords(u)[0][0] == u[j];
    assert u[j] == t[j];
    forall m | 0 <= m < j ensures IsSeparator(t[m]) {
      assert IsSpace(u[m]);
    }
  }

  lemma InitialsOfStripped(name: string)
    ensures GenerateInitials(name) == InitialsOfWords(SplitWords(ReplaceChar(Strip(name), ',', ' ')))
  {
  }

  /** The first initial is the upper-cased first character of the name that
      is neither whitespace nor a comma. */
  lemma InitialsFirst(name: string) returns (k: nat)
    requires GenerateInitials(name) != ""
    ensures k < |name| && !IsSeparator(name[k])
    ensures forall m :: 0 <= m < k ==> IsSeparator(name[m])
    ensures GenerateInitials(name)[0] == UpperChar(name[k])
  {
    var t := Strip(name);
    InitialsOfStripped(name);
    var j := FirstInitialOfStripped(t);
    k := StrippedIndex(name, j);
  }

  /** A position in the stripped name, after separators only, is a position
      in the name after separators only. */
  lemma StrippedIndex(name: string, j: nat) returns (k: nat)
    requires j < |Strip(name)|
    requires forall m :: 0 <= m < j ==> IsSeparator(Strip(name)[m])
    ensures k < |name| && name[k] == Strip(name)[j]
    ensures forall m :: 0 <= m < k ==> IsSeparator(name[m])
  {
    var a := StripSlice(name);
    k := a + j;
    SeparatorsBefore(name, a, Strip(name), j);
  }

  /** Whitespace before a slice and separators at its front make separators
      up to the first non-separator of the slice. */
  lemma SeparatorsBefore(s: string, a: nat, t: string, j: nat)
    requires a + |t| <= |s| && t == s[a..a + |t|] && j < |t|
    requires forall m :: 0 <= m < a ==> IsSpace(s[m])
    requires forall m :: 0 <= m < j ==> IsSeparator(t[m])
    ensures s[a + j] == t[j]
    ensures forall m :: 0 <= m < a + j ==> IsSeparator(s[m])
  {
    forall m | a <= m < a + j ensures IsSeparator(s[m]) {
      SliceAt(s, a, t, m - a);
    }
  }
}
