/** The string primitives the scholarship finder relies on: JavaScript's
    `trim`, `toLowerCase`, `includes`, `Array.prototype.some` over keywords,
    and the `split(/\s+/)` word count. */
module Text {

  /** The characters `String.prototype.trim` removes and the regular-expression
      class `\s` matches: ECMAScript's WhiteSpace and LineTerminator sets. */
  predicate IsWhitespace(c: char)
    ensures c as int < 128 ==> (IsWhitespace(c) <==> c == ' ' || '\t' <= c <= '\r')
    ensures IsWhitespace(c) ==> !('a' <= c <= 'z' || 'A' <= c <= 'Z' || '0' <= c <= '9')
  {
    || c == ' ' || c == '\t' || c == '\n' || c == '\r'
    || c == '\U{000B}' || c == '\U{000C}' || c == '\U{00A0}' || c == '\U{1680}'
    || ('\U{2000}' <= c <= '\U{200A}')
    || c == '\U{2028}' || c == '\U{2029}' || c == '\U{202F}' || c == '\U{205F}'
    || c == '\U{3000}' || c == '\U{FEFF}'
  }

  // ---------------------------------------------------------------------
  // Lower-casing

  predicate IsUpper(c: char) {
    'A' <= c <= 'Z'
  }

  function LowerChar(c: char): (d: char)
    ensures !IsUpper(d)
    ensures IsUpper(c) ==> d as int == c as int + 32
    ensures !IsUpper(c) ==> d == c
  {
    if IsUpper(c) then (c as int + 32) as char else c
  }

  /** `s.toLowerCase()` for the ASCII letters. */
  function Lower(s: string): (r: string)
    ensures |r| == |s|
    ensures forall i :: 0 <= i < |r| ==> !IsUpper(r[i])
    ensures forall i :: 0 <= i < |r| ==> r[i] == LowerChar(s[i])
  {
    seq(|s|, i requires 0 <= i < |s| => LowerChar(s[i]))
  }

  /** Lower-casing keeps every whitespace character where it was. */
  lemma LowerKeepsWhitespace(s: string, i: int)
    requires 0 <= i < |s|
    ensures IsWhitespace(Lower(s)[i]) <==> IsWhitespace(s[i])
  {
  }

  // ---------------------------------------------------------------------
  // Substring search

  /** `needle` occurs in `hay` starting at index `i`. */
  predicate OccursAt(hay: string, needle: string, i: int) {
    0 <= i && i + |needle| <= |hay| && hay[i..i + |needle|] == needle
  }

  /** `hay.includes(needle)`: scans the start positions from left to right. */
  function Contains(hay: string, needle: string): (found: bool)
    ensures found <==> exists i :: OccursAt(hay, needle, i)
    decreases |hay|
  {
    if |needle| > |hay| then
      assert forall i :: !OccursAt(hay, needle, i);
      false
    else if needle <= hay then
      assert OccursAt(hay, needle, 0);
      true
    else
      var rest := hay[1..];
      assert forall i :: OccursAt(hay, needle, i) ==> i >= 1 && OccursAt(rest, needle, i - 1) by {
        forall i | OccursAt(hay, needle, i) ensures i >= 1 && OccursAt(rest, needle, i - 1) {
          assert rest[i - 1..i - 1 + |needle|] == hay[i..i + |needle|];
        }
      }
      assert forall i :: OccursAt(rest, needle, i) ==> OccursAt(hay, needle, i + 1) by {
        forall i | OccursAt(rest, needle, i) ensures OccursAt(hay, needle, i + 1) {
          assert rest[i..i + |needle|] == hay[i + 1..i + 1 + |needle|];
        }
      }
      Contains(rest, needle)
  }

  /** `keywords.some(k => text.toLowerCase().includes(k.toLowerCase()))`. */
  predicate MatchesAny(text: string, keywords: seq<string>)
    ensures MatchesAny(text, keywords) <==>
              exists i, j :: 0 <= i < |keywords| && OccursAt(Lower(text), Lower(keywords[i]), j)
    ensures |keywords| == 0 ==> !MatchesAny(text, keywords)
  {
    exists i :: 0 <= i < |keywords| && Contains(Lower(text), Lower(keywords[i]))
  }

  // ---------------------------------------------------------------------
  // Trimming

  /** The number of whitespace characters at the start of `s`. */
  function LeadingSpace(s: string): (n: nat)
    ensures n <= |s|
    ensures forall j :: 0 <= j < n ==> IsWhitespace(s[j])
    ensures n < |s| ==> !IsWhitespace(s[n])
  {
    if |s| > 0 && IsWhitespace(s[0]) then 1 + LeadingSpace(s[1..]) else 0
  }

  /** The number of whitespace characters at the end of `s`. */
  function TrailingSpace(s: string): (n: nat)
    ensures n <= |s|
    ensures forall j :: |s| - n <= j < |s| ==> IsWhitespace(s[j])
    ensures n < |s| ==> !IsWhitespace(s[|s| - 1 - n])
  {
    if |s| > 0 && IsWhitespace(s[|s| - 1]) then 1 + TrailingSpace(s[..|s| - 1]) else 0
  }

  /** `s.trim()`: `s` without its leading and trailing whitespace. */
  function Trim(s: string): (r: string)
    ensures LeadingSpace(s) + |r| <= |s|
    ensures r == s[LeadingSpace(s)..LeadingSpace(s) + |r|]
    ensures forall j :: 0 <= j < LeadingSpace(s) ==> IsWhitespace(s[j])
    ensures forall j :: LeadingSpace(s) + |r| <= j < |s| ==> IsWhitespace(s[j])
    ensures r != [] ==> !IsWhitespace(r[0]) && !IsWhitespace(r[|r| - 1])
    ensures r == [] <==> forall j :: 0 <= j < |s| ==> IsWhitespace(s[j])
  {
    var tail := s[LeadingSpace(s)..];
    tail[..|tail| - TrailingSpace(tail)]
  }

  /** Trimming a trimmed string changes nothing. */
  lemma TrimIdempotent(s: string)
    ensures Trim(Trim(s)) == Trim(s)
  {
    var t := Trim(s);
    if t != [] {
      assert LeadingSpace(t) == 0;
      assert TrailingSpace(t) == 0;
    }
  }

  // ---------------------------------------------------------------------
  // Word counting

  /** Whether a maximal run of whitespace starts at index `i`. */
  predicate RunStartsAt(s: string, i: int)
    requires 0 <= i < |s|
  {
    IsWhitespace(s[i]) && (i == 0 || !IsWhitespace(s[i - 1]))
  }

  /** Whether a word (a maximal run of other characters) starts at index `i`. */
  predicate WordStartsAt(s: string, i: int)
    requires 0 <= i < |s|
  {
    !IsWhitespace(s[i]) && (i == 0 || IsWhitespace(s[i - 1]))
  }

  /** The number of maximal whitespace runs in `s`, each of which is one
      separator match of `/\s+/`. */
  function WhitespaceRuns(s: string): nat
  {
    if |s| == 0 then 0
    else WhitespaceRuns(s[..|s| - 1]) + (if RunStartsAt(s, |s| - 1) then 1 else 0)
  }

  /** The number of words of `s`, counted independently of `split`. */
  function Words(s: string): nat
  {
    if |s| == 0 then 0
    else Words(s[..|s| - 1]) + (if WordStartsAt(s, |s| - 1) then 1 else 0)
  }

  /** `s.split(/\s+/).length`: the separators cut `s` into one piece more than
      there are separators. */
  function SplitPieces(s: string): (n: nat)
    ensures n >= 1
    ensures s != [] && !IsWhitespace(s[0]) && !IsWhitespace(s[|s| - 1]) ==> n == Words(s)
  {
    if s != [] && !IsWhitespace(s[0]) then
      WordsAndRuns(s);
      1 + WhitespaceRuns(s)
    else 1 + WhitespaceRuns(s)
  }

  /** The word count shown under the essay box: zero for blank text, otherwise
      the number of pieces the trimmed text splits into. */
  function WordCount(text: string): (n: nat)
    ensures n == Words(text)
    ensures n == 0 <==> forall j :: 0 <= j < |text| ==> IsWhitespace(text[j])
  {
    var t := Trim(text);
    WordsIgnorePadding(text);
    if |t| == 0 then 0
    else SplitPieces(t)
  }

  predicate AllWhitespace(s: string) {
    forall j :: 0 <= j < |s| ==> IsWhitespace(s[j])
  }

  /** Trailing whitespace adds no word. */
  lemma {:induction false} WordsAppendSpace(x: string, w: string)
    requires AllWhitespace(w)
    ensures Words(x + w) == Words(x)
    decreases |w|
  {
    if |w| == 0 {
      assert x + w == x;
    } else {
      assert (x + w)[..|x + w| - 1] == x + w[..|w| - 1];
      WordsAppendSpace(x, w[..|w| - 1]);
    }
  }

  /** Leading whitespace adds no word. */
  lemma {:induction false} WordsPrependSpace(w: string, y: string)
    requires AllWhitespace(w)
    ensures Words(w + y) == Words(y)
    decreases |y|
  {
    if |y| == 0 {
      assert w + y == [] + w;
      WordsAppendSpace([], w);
    } else {
      var n := |w + y|;
      assert (w + y)[..n - 1] == w + y[..|y| - 1];
      WordsPrependSpace(w, y[..|y| - 1]);
      assert WordStartsAt(w + y, n - 1) == WordStartsAt(y, |y| - 1);
    }
  }

  /** Whitespace around a text changes none of its words. */
  lemma WordsIgnorePadding(s: string)
    ensures Words(s) == Words(Trim(s))
  {
    var t := Trim(s);
    var a := LeadingSpace(s);
    var pre, post := s[..a], s[a + |t|..];
    assert s == pre + t + post;
    WordsAppendSpace(pre + t, post);
    WordsPrependSpace(pre, t);
  }

  /** On a string that starts with a non-space, every whitespace run but a
      trailing one is followed by a word: words and runs alternate. */
  lemma {:induction false} WordsAndRuns(s: string)
    requires |s| > 0 && !IsWhitespace(s[0])
    ensures Words(s) == WhitespaceRuns(s) + (if IsWhitespace(s[|s| - 1]) then 0 else 1)
    decreases |s|
  {
    if |s| == 1 {
      assert s[..0] == [];
    } else {
      var p := s[..|s| - 1];
      assert p[0] == s[0];
      WordsAndRuns(p);
      assert p[|p| - 1] == s[|s| - 2];
    }
  }
}
