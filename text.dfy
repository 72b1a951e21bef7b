/**
 * The string operations the validation path relies on, with JavaScript's
 * meaning: the `\s` / `trim` whitespace set, `trim()`, `toLowerCase()`,
 * `split(/\s+/)`, and `containsProfanity` built from them.
 */
module Text {

  /** The fixed word list (`profanityList`). */
  const ProfanityList: seq<string> := ["badword", "spamword"]

  /**
   * ECMAScript WhiteSpace and LineTerminator code points: the set matched by
   * `\s` and stripped by `String.prototype.trim`.
   */
  predicate IsJsSpace(c: char) {
    c == '\t' || c == '\n' || c == '\U{B}' || c == '\U{C}' || c == '\r' || c == ' '
    || c == '\U{A0}' || c == '\U{1680}' || ('\U{2000}' <= c <= '\U{200A}')
    || c == '\U{2028}' || c == '\U{2029}' || c == '\U{202F}' || c == '\U{205F}'
    || c == '\U{3000}' || c == '\U{FEFF}'
  }

  predicate AllSpace(s: string) {
    forall k :: 0 <= k < |s| ==> IsJsSpace(s[k])
  }

  predicate NoSpace(s: string) {
    forall k :: 0 <= k < |s| ==> !IsJsSpace(s[k])
  }

  /** Length of the leading whitespace run. */
  function SpaceRun(s: string): (n: nat)
    ensures n <= |s|
    ensures forall k :: 0 <= k < n ==> IsJsSpace(s[k])
    ensures n < |s| ==> !IsJsSpace(s[n])
  {
    if s == [] || !IsJsSpace(s[0]) then 0 else 1 + SpaceRun(s[1..])
  }

  /** Index of the first whitespace character, or `|s|` when there is none. */
  function FirstSpace(s: string): (n: nat)
    ensures n <= |s|
    ensures forall k :: 0 <= k < n ==> !IsJsSpace(s[k])
    ensures n < |s| ==> IsJsSpace(s[n])
  {
    if s == [] || IsJsSpace(s[0]) then 0 else 1 + FirstSpace(s[1..])
  }

  function TrimEnd(s: string): string
  {
    if s != [] && IsJsSpace(s[|s| - 1]) then TrimEnd(s[..|s| - 1]) else s
  }

  /** `s.trim()`. */
  function Trim(s: string): string
  {
    TrimEnd(s[SpaceRun(s)..])
  }

  lemma {:induction false} TrimEndEmpty(s: string)
    ensures TrimEnd(s) == [] <==> AllSpace(s)
    decreases |s|
  {
    if s != [] && IsJsSpace(s[|s| - 1]) {
      TrimEndEmpty(s[..|s| - 1]);
      assert AllSpace(s[..|s| - 1]) <==> AllSpace(s) by {
        if AllSpace(s[..|s| - 1]) {
          forall k | 0 <= k < |s| ensures IsJsSpace(s[k]) {
            if k < |s| - 1 { assert s[k] == s[..|s| - 1][k]; }
          }
        }
      }
    }
  }

  /** `text.trim() === ""` holds exactly when every character is whitespace (the empty string included). */
  lemma TrimEmptyIffAllSpace(s: string)
    ensures Trim(s) == [] <==> AllSpace(s)
  {
    var r := SpaceRun(s);
    TrimEndEmpty(s[r..]);
    if r < |s| {
      assert !IsJsSpace(s[r..][0]);
    } else {
      assert AllSpace(s);
    }
  }

  /** The case mapping of `toLowerCase` on ASCII letters. */
  function LowerChar(c: char): char
  {
    if 'A' <= c <= 'Z' then (c as int + 32) as char else c
  }

  /** `s.toLowerCase()`, for ASCII letters. */
  function Lower(s: string): (r: string)
    ensures |r| == |s|
    ensures forall k :: 0 <= k < |s| ==> r[k] == LowerChar(s[k])
  {
    seq(|s|, k requires 0 <= k < |s| => LowerChar(s[k]))
  }

  /** What precedes the first whitespace character: the first piece of `split`. */
  function FirstPiece(s: string): (w: string)
    ensures NoSpace(w) && w == s[..FirstSpace(s)]
  {
    s[..FirstSpace(s)]
  }

  /** What follows the first whitespace run, for a string that has whitespace. */
  function AfterFirstRun(s: string): (t: string)
    requires FirstSpace(s) < |s|
    ensures |t| < |s|
  {
    assert IsJsSpace(s[FirstSpace(s)..][0]);
    s[FirstSpace(s) + SpaceRun(s[FirstSpace(s)..])..]
  }

  /**
   * `s.split(/\s+/)`: the pieces between maximal whitespace runs. A leading
   * run yields an empty first piece, a trailing run an empty last piece, and
   * the empty string splits into one empty piece.
   */
  function Split(s: string): (words: seq<string>)
    ensures |words| >= 1
    decreases |s|
  {
    if FirstSpace(s) == |s| then [s] else [FirstPiece(s)] + Split(AfterFirstRun(s))
  }

  /** `containsProfanity(text)`: some lower-cased whitespace-separated piece is a listed word. */
  predicate ContainsProfanity(text: string)
  {
    exists w :: w in ProfanityList && w in Split(Lower(text))
  }

  /** `s[i..j]` stands between whitespace (or the ends of `s`) on both sides. */
  predicate WholeWord(s: string, i: int, j: int)
  {
    0 <= i <= j <= |s| && (i == 0 || IsJsSpace(s[i - 1])) && (j == |s| || IsJsSpace(s[j]))
  }

  /** A whole-word span of what follows the first whitespace run is a whole-word span of the string. */
  lemma SuffixWholeWord(s: string, i: nat, j: nat) returns (m: nat)
    requires FirstSpace(s) < |s| && WholeWord(AfterFirstRun(s), i, j)
    ensures m + |AfterFirstRun(s)| == |s| && AfterFirstRun(s) == s[m..]
    ensures WholeWord(s, m + i, m + j) && s[m + i..m + j] == AfterFirstRun(s)[i..j]
  {
    var n := FirstSpace(s);
    var sp := s[n..];
    var r := SpaceRun(sp);
    assert r > 0 by { assert IsJsSpace(sp[0]); }
    m := n + r;
    var t := s[m..];
    assert AfterFirstRun(s) == t;
    if i == 0 {
      assert s[m - 1] == sp[r - 1];
      assert IsJsSpace(sp[r - 1]);
    } else {
      assert s[m + i - 1] == t[i - 1];
    }
    if j < |t| {
      assert s[m + j] == t[j];
    }
  }

  /** Every piece `split` produces is a whole-word span of the input. */
  lemma {:induction false} PieceIsWholeWord(s: string, w: string)
    requires w in Split(s)
    ensures exists i, j :: WholeWord(s, i, j) && s[i..j] == w
    decreases |s|
  {
    var n := FirstSpace(s);
    if n == |s| {
      assert WholeWord(s, 0, |s|) && s[0..|s|] == w;
    } else if w == FirstPiece(s) {
      assert WholeWord(s, 0, n) && s[0..n] == w;
    } else {
      var t := AfterFirstRun(s);
      assert w in Split(t);
      PieceIsWholeWord(t, w);
      var i, j :| WholeWord(t, i, j) && t[i..j] == w;
      var m := SuffixWholeWord(s, i, j);
    }
  }

  /** A whole word that starts the string is its first piece. */
  lemma FirstWholeWordIsPiece(s: string, j: nat)
    requires WholeWord(s, 0, j) && 0 < j && NoSpace(s[0..j])
    ensures s[0..j] == FirstPiece(s) && s[0..j] in Split(s)
  {
    var n := FirstSpace(s);
    assert n == j;
    if n == |s| {
      assert s[0..j] == s;
    } else {
      assert Split(s)[0] == FirstPiece(s);
    }
  }

  /** A whole word that does not start the string lies in what follows the first whitespace run. */
  lemma LaterWholeWordIsInSuffix(s: string, i: nat, j: nat) returns (m: nat)
    requires WholeWord(s, i, j) && 0 < i < j && NoSpace(s[i..j])
    ensures FirstSpace(s) < |s| && m == |s| - |AfterFirstRun(s)|
    ensures m <= i && WholeWord(AfterFirstRun(s), i - m, j - m)
    ensures AfterFirstRun(s)[i - m..j - m] == s[i..j]
  {
    var n := FirstSpace(s);
    assert !IsJsSpace(s[i]) by { assert s[i] == s[i..j][0]; }
    assert n <= i - 1;
    var r := SpaceRun(s[n..]);
    m := n + r;
    var t := AfterFirstRun(s);
    assert t == s[m..];
    if i > m {
      assert s[i - 1] == t[i - m - 1];
    }
    if j < |s| {
      assert s[j] == t[j - m];
    }
    assert t[i - m..j - m] == s[i..j];
  }

  /** Every non-empty whole-word span without whitespace is a piece `split` produces. */
  lemma {:induction false} WholeWordIsPiece(s: string, i: nat, j: nat)
    requires WholeWord(s, i, j) && i < j && NoSpace(s[i..j])
    ensures s[i..j] in Split(s)
    decreases |s|
  {
    if i == 0 {
      FirstWholeWordIsPiece(s, j);
    } else {
      var m := LaterWholeWordIsInSuffix(s, i, j);
      var t := AfterFirstRun(s);
      assert NoSpace(t[i - m..j - m]);
      WholeWordIsPiece(t, i - m, j - m);
    }
  }

  lemma ListedWordsHaveNoSpace()
    ensures forall w :: w in ProfanityList ==> |w| > 0 && NoSpace(w)
  {
    forall c: char | 'a' <= c <= 'z' ensures !IsJsSpace(c) { }
    assert NoSpace("badword");
    assert NoSpace("spamword");
  }

  /**
   * Reference meaning of `containsProfanity`: a listed word occurs in the
   * lower-cased text as a whole word, delimited by whitespace or the ends.
   */
  lemma ProfanityIsWholeWord(text: string)
    ensures ContainsProfanity(text) <==>
      exists i, j :: WholeWord(Lower(text), i, j) && Lower(text)[i..j] in ProfanityList
  {
    var s := Lower(text);
    if ContainsProfanity(text) {
      var w :| w in ProfanityList && w in Split(s);
      PieceIsWholeWord(s, w);
    }
    if exists i, j :: WholeWord(s, i, j) && s[i..j] in ProfanityList {
      var i, j :| WholeWord(s, i, j) && s[i..j] in ProfanityList;
      ListedWordsHaveNoSpace();
      WholeWordIsPiece(s, i, j);
    }
  }

  /** Matching ignores ASCII case: an upper-case listed word mid-sentence is caught. */
  lemma UpperCaseProfanityCaught()
    ensures ContainsProfanity("buy BADWORD now")
  {
    var s := Lower("buy BADWORD now");
    assert s[4..11] == "badword";
    assert WholeWord(s, 4, 11);
    ProfanityIsWholeWord("buy BADWORD now");
  }
}
