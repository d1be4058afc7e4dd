/**
 The syntax highlighter: one left-to-right pass that cuts a line into
 (segment, category) pairs. The category selects a colour in the renderer,
 which is not part of this model.
 */
module Tokenizer {

  datatype Category = Comment | String | Operator | Plain | Number | Keyword

  datatype Token = Token(text: string, cat: Category)

  /** The highlighter's output: the segments of a line, left to right. */
  datatype Tokens = Nil | Cons(head: Token, tail: Tokens)

  /** The number of reserved words the highlighter knows. */
  const KEYWORD_COUNT: nat := 24

  /** The highlighter's reserved words, numbered in a fixed order so that
      membership is a search through the list. */
  function KeywordAt(n: nat): string
    requires n < KEYWORD_COUNT
  {
    if n == 0 then "def" else if n == 1 then "class" else if n == 2 then "if"
    else if n == 3 then "else" else if n == 4 then "elif" else if n == 5 then "while"
    else if n == 6 then "for" else if n == 7 then "import" else if n == 8 then "from"
    else if n == 9 then "return" else if n == 10 then "True" else if n == 11 then "False"
    else if n == 12 then "None" else if n == 13 then "break" else if n == 14 then "continue"
    else if n == 15 then "pass" else if n == 16 then "try" else if n == 17 then "except"
    else if n == 18 then "with" else if n == 19 then "as" else if n == 20 then "global"
    else if n == 21 then "print" else if n == 22 then "len" else "range"
  }

  /** Whether `w` is one of the reserved words from position `n` of the list on. */
  predicate KeywordFrom(w: string, n: nat)
    requires n <= KEYWORD_COUNT
    decreases KEYWORD_COUNT - n
  {
    n < KEYWORD_COUNT && (w == KeywordAt(n) || KeywordFrom(w, n + 1))
  }

  /** `w` is a reserved word. */
  predicate IsKeyword(w: string) {
    KeywordFrom(w, 0)
  }

  /** The ten decimal digits, in order. */
  const DIGITS: string := "0123456789"

  /** `is_digit`: a code-point range test. */
  function IsDigit(c: char): (b: bool)
    ensures b <==> c in DIGITS
  {
    '0' <= c <= '9'
  }

  predicate IsLetter(c: char) {
    'a' <= c <= 'z' || 'A' <= c <= 'Z'
  }

  predicate IsOperator(c: char) {
    c in {'+', '-', '*', '/', '%', '=', '<', '>', '!', '&', '|', '^', '~'}
  }

  predicate IsSeparator(c: char) {
    c in {'(', ')', '[', ']', '{', '}', ':', ',', '.'}
  }

  predicate IsBlank(c: char) {
    c == ' ' || c == '\t'
  }

  predicate IsQuote(c: char) {
    c == '"' || c == '\''
  }

  /** A character that may continue a word: anything that does not start a
      segment of its own. */
  predicate IsWordChar(c: char) {
    !IsOperator(c) && !IsSeparator(c) && !IsBlank(c) && c != '#' && !IsQuote(c)
  }

  /** A word is a number when its first character is a digit, whatever follows. */
  function WordCategory(w: string): (cat: Category)
    requires |w| > 0
    ensures cat == Number <==> IsDigit(w[0])
    ensures cat == Keyword <==> !IsDigit(w[0]) && IsKeyword(w)
    ensures cat in {Number, Keyword, Plain}
  {
    if IsDigit(w[0]) then Number
    else if IsKeyword(w) then Keyword
    else Plain
  }

  /** The first index at or after `i` holding the quote `q`, or the line length. */
  function QuoteEnd(line: string, q: char, i: nat): (j: nat)
    requires i <= |line|
    ensures i <= j <= |line|
    ensures forall k :: i <= k < j ==> line[k] != q
    ensures j < |line| ==> line[j] == q
    decreases |line| - i
  {
    if i == |line| || line[i] == q then i else QuoteEnd(line, q, i + 1)
  }

  /** The end of the maximal run of word characters starting at `i`. */
  function WordEnd(line: string, i: nat): (j: nat)
    requires i <= |line|
    ensures i <= j <= |line|
    ensures forall k :: i <= k < j ==> IsWordChar(line[k])
    ensures j < |line| ==> !IsWordChar(line[j])
    decreases |line| - i
  {
    if i == |line| || !IsWordChar(line[i]) then i else WordEnd(line, i + 1)
  }

  /** The end of the string literal opened at `i`: one past the closing quote,
      or the end of the line when the literal is unterminated. */
  function StringEnd(line: string, i: nat): (j: nat)
    requires i < |line| && IsQuote(line[i])
    ensures i < j <= |line|
    ensures IsStringSpan(line, i, j)
  {
    var k := QuoteEnd(line, line[i], i + 1);
    if k < |line| then k + 1 else k
  }

  /** The segment that starts at index `i`. */
  function FirstToken(line: string, i: nat): (t: Token)
    requires i < |line|
    ensures i < i + |t.text| <= |line|
    ensures t.text == line[i..i + |t.text|]
    ensures t.cat == Comment ==> i + |t.text| == |line|
  {
    var c := line[i];
    if c == '#' then
      Token(line[i..], Comment)
    else if IsQuote(c) then
      Token(line[i..StringEnd(line, i)], String)
    else if IsOperator(c) || IsSeparator(c) then
      Token([c], Operator)
    else if IsBlank(c) then
      Token([c], Plain)
    else
      var j := WordEnd(line, i);
      Token(line[i..j], WordCategory(line[i..j]))
  }

  /** The tokens of `line[i..]`, scanning from index `i`; a comment ends the scan. */
  function TokenizeFrom(line: string, i: nat): (ts: Tokens)
    requires i <= |line|
    ensures ts == Nil <==> i == |line|
    decreases |line| - i
  {
    if i == |line| then Nil
    else
      var t := FirstToken(line, i);
      if t.cat == Comment then Cons(t, Nil)
      else Cons(t, TokenizeFrom(line, i + |t.text|))
  }

  /** The model of `tokenize_line`: the segments of the whole line. Nothing
      is lost: they concatenate back to the line. */
  function Tokenize(line: string): (ts: Tokens)
    ensures Texts(ts) == line
  {
    TokenizeWellFormed(line, 0);
    TextsFrom(line, 0, TokenizeFrom(line, 0));
    TokenizeFrom(line, 0)
  }

  /** The concatenation of the segment texts. */
  function Texts(ts: Tokens): string {
    match ts
    case Nil => []
    case Cons(t, rest) => t.text + Texts(rest)
  }

  // ---------------------------------------------------------------------------
  // A declarative description of a correct tokenization
  // ---------------------------------------------------------------------------

  /** `line[i..j]` is a string literal: it opens with a quote and either ends
      at the first repetition of that quote or runs, unterminated, to the end
      of the line. */
  predicate IsStringSpan(line: string, i: nat, j: nat)
    requires i < j <= |line|
  {
    && IsQuote(line[i])
    && (|| (j - i >= 2 && line[j - 1] == line[i]
            && forall k :: i < k < j - 1 ==> line[k] != line[i])
        || (j == |line| && forall k :: i < k < j ==> line[k] != line[i]))
  }

  /** `line[i..j]` is a maximal run of word characters. */
  predicate IsWordSpan(line: string, i: nat, j: nat)
    requires i < j <= |line|
  {
    && (forall k :: i <= k < j ==> IsWordChar(line[k]))
    && (j < |line| ==> !IsWordChar(line[j]))
  }

  /** Which category a non-empty span `line[i..j]` may carry. */
  predicate ValidSpan(line: string, i: nat, j: nat, cat: Category)
    requires i < j <= |line|
  {
    match cat
    case Comment => line[i] == '#' && j == |line|
    case String => IsStringSpan(line, i, j)
    case Operator => j == i + 1 && (IsOperator(line[i]) || IsSeparator(line[i]))
    case Plain =>
      || (j == i + 1 && IsBlank(line[i]))
      || (IsWordSpan(line, i, j) && WordCategory(line[i..j]) == Plain)
    case Number => IsWordSpan(line, i, j) && WordCategory(line[i..j]) == Number
    case Keyword => IsWordSpan(line, i, j) && WordCategory(line[i..j]) == Keyword
  }

  /** `t` is a valid first segment of `line[i..]`: a non-empty slice
      starting at `i`, valid for its category. */
  predicate HeadOk(line: string, i: nat, t: Token) {
    && i < i + |t.text| <= |line|
    && line[i..i + |t.text|] == t.text
    && ValidSpan(line, i, i + |t.text|, t.cat)
  }

  /** `ts` cuts `line[i..]` into consecutive non-empty spans, each valid for its category. */
  predicate TokensFrom(line: string, i: nat, ts: Tokens)
    requires i <= |line|
    decreases ts
  {
    match ts
    case Nil => i == |line|
    case Cons(t, rest) => HeadOk(line, i, t) && TokensFrom(line, i + |t.text|, rest)
  }

  /** What the highlighter promises about categories: every segment is
      non-empty, a comment is exactly a segment starting with '#' and is
      always the last one, a number is exactly a segment starting with a
      digit, and a keyword is a reserved word. */
  predicate CategoriesOk(ts: Tokens)
    decreases ts
  {
    match ts
    case Nil => true
    case Cons(t, rest) =>
      && |t.text| > 0
      && (t.cat == Comment <==> t.text[0] == '#')
      && (t.cat == Comment ==> rest == Nil)
      && (t.cat == Number <==> IsDigit(t.text[0]))
      && (t.cat == Keyword ==> IsKeyword(t.text))
      && CategoriesOk(rest)
  }

  // ---------------------------------------------------------------------------
  // Properties
  // ---------------------------------------------------------------------------

  /** The scanner's segment at each position is valid for its category. */
  lemma FirstTokenValid(line: string, i: nat)
    requires i < |line|
    ensures HeadOk(line, i, FirstToken(line, i))
  {
    var c := line[i];
    var t := FirstToken(line, i);
    if c == '#' {
      assert t == Token(line[i..], Comment);
    } else if IsQuote(c) {
      assert t == Token(line[i..StringEnd(line, i)], String);
    } else if IsOperator(c) || IsSeparator(c) {
      assert t == Token([c], Operator);
    } else if IsBlank(c) {
      assert t == Token([c], Plain);
    } else {
      var j := WordEnd(line, i);
      assert t == Token(line[i..j], WordCategory(line[i..j]));
    }
  }

  lemma SliceSplit(s: string, i: nat, j: nat)
    requires i <= j <= |s|
    ensures s[i..] == s[i..j] + s[j..]
  {
  }

  /** One step of the scan: the head segment is valid, and the rest of the
      output is either empty at the line end or the scan from the head's end. */
  lemma ScanStep(line: string, i: nat)
    requires i < |line|
    ensures TokenizeFrom(line, i).Cons?
    ensures var ts := TokenizeFrom(line, i);
      && HeadOk(line, i, ts.head)
      && (ts.tail == Nil ==> i + |ts.head.text| == |line|)
      && (ts.tail != Nil ==> ts.tail == TokenizeFrom(line, i + |ts.head.text|))
  {
    FirstTokenValid(line, i);
  }

  /** The scanner's output satisfies the declarative description. */
  lemma {:induction false} TokenizeWellFormed(line: string, i: nat)
    requires i <= |line|
    ensures TokensFrom(line, i, TokenizeFrom(line, i))
    decreases |line| - i
  {
    if i < |line| {
      ScanStep(line, i);
      var ts := TokenizeFrom(line, i);
      var j := i + |ts.head.text|;
      if ts.tail != Nil {
        TokenizeWellFormed(line, j);
      }
      ConsOk(line, i, ts.head, ts.tail);
    }
  }

  /** A valid head segment followed by a valid cut of the rest is a valid cut. */
  lemma ConsOk(line: string, i: nat, t: Token, rest: Tokens)
    requires HeadOk(line, i, t) && TokensFrom(line, i + |t.text|, rest)
    ensures TokensFrom(line, i, Cons(t, rest))
  {
  }

  /** Any cut the description admits concatenates back to the line. */
  lemma {:induction false} TextsFrom(line: string, i: nat, ts: Tokens)
    requires i <= |line| && TokensFrom(line, i, ts)
    ensures Texts(ts) == line[i..]
    decreases ts
  {
    if ts.Cons? {
      var j := i + |ts.head.text|;
      TextsFrom(line, j, ts.tail);
      SliceSplit(line, i, j);
    }
  }

  /** A maximal word run is exactly what `WordEnd` finds. */
  lemma WordSpanEnd(line: string, i: nat, j: nat)
    requires i < j <= |line| && IsWordSpan(line, i, j)
    ensures j == WordEnd(line, i)
  {
  }

  /** A string span is exactly what `StringEnd` finds. */
  lemma StringSpanEnd(line: string, i: nat, j: nat)
    requires i < j <= |line| && IsStringSpan(line, i, j)
    ensures j == StringEnd(line, i)
  {
  }

  /** The first character of a valid span fixes its category and, for
      one-character kinds, its length. */
  lemma SpanKind(line: string, i: nat, j: nat, cat: Category)
    requires i < j <= |line| && ValidSpan(line, i, j, cat)
    ensures line[i] == '#' ==> cat == Comment
    ensures IsQuote(line[i]) ==> cat == String
    ensures IsOperator(line[i]) || IsSeparator(line[i]) ==> cat == Operator && j == i + 1
    ensures IsBlank(line[i]) ==> cat == Plain && j == i + 1
    ensures IsWordChar(line[i]) ==> IsWordSpan(line, i, j) && cat == WordCategory(line[i..j])
  {
  }

  /** Whatever valid span starts at `i` is the scanner's first segment. */
  lemma SpanIsFirstToken(line: string, i: nat, t: Token)
    requires HeadOk(line, i, t)
    ensures t == FirstToken(line, i)
  {
    var j := i + |t.text|;
    var c := line[i];
    assert t.text[0] == c;
    SpanKind(line, i, j, t.cat);
    if IsQuote(c) {
      StringSpanEnd(line, i, j);
    } else if IsWordChar(c) {
      WordSpanEnd(line, i, j);
    } else if c != '#' {
      assert t.text == [c];
    }
  }

  /** Two valid first segments at the same position are the same segment. */
  lemma HeadUnique(line: string, i: nat, t1: Token, t2: Token)
    requires HeadOk(line, i, t1) && HeadOk(line, i, t2)
    ensures t1 == t2
  {
    SpanIsFirstToken(line, i, t1);
    SpanIsFirstToken(line, i, t2);
  }

  /** The description admits at most one cut of a line. */
  lemma {:induction false} CutsUnique(line: string, i: nat, a: Tokens, b: Tokens)
    requires i <= |line| && TokensFrom(line, i, a) && TokensFrom(line, i, b)
    ensures a == b
    decreases a
  {
    if a.Cons? && b.Cons? {
      HeadUnique(line, i, a.head, b.head);
      CutsUnique(line, i + |a.head.text|, a.tail, b.tail);
    }
  }

  /** The description admits exactly one tokenization: the scanner's. */
  lemma TokensFromUnique(line: string, i: nat, ts: Tokens)
    requires i <= |line|
    requires TokensFrom(line, i, ts)
    ensures ts == TokenizeFrom(line, i)
  {
    TokenizeWellFormed(line, i);
    CutsUnique(line, i, ts, TokenizeFrom(line, i));
  }

  /** The scanner is characterized by the declarative description, both ways. */
  lemma TokenizeCharacterized(line: string, ts: Tokens)
    ensures ts == Tokenize(line) <==> TokensFrom(line, 0, ts)
  {
    TokenizeWellFormed(line, 0);
    if TokensFrom(line, 0, ts) {
      TokensFromUnique(line, 0, ts);
    }
  }

  /** What a single valid span's category says about its first character. */
  lemma SpanCategory(line: string, i: nat, j: nat, cat: Category)
    requires i < j <= |line| && ValidSpan(line, i, j, cat)
    ensures cat == Comment <==> line[i] == '#'
    ensures cat == Comment ==> j == |line|
    ensures cat == Number <==> IsDigit(line[i])
    ensures cat == Keyword ==> IsKeyword(line[i..j])
  {
  }

  /** Every cut the description admits keeps the category promises. */
  lemma {:induction false} CategoriesFrom(line: string, i: nat, ts: Tokens)
    requires i <= |line| && TokensFrom(line, i, ts)
    ensures CategoriesOk(ts)
    decreases ts
  {
    if ts.Cons? {
      var t := ts.head;
      var j := i + |t.text|;
      assert t.text[0] == line[i];
      SpanCategory(line, i, j, t.cat);
      CategoriesFrom(line, j, ts.tail);
    }
  }

  /** The category promises, for the scanner's own output. */
  lemma TokenizeCategories(line: string)
    ensures CategoriesOk(Tokenize(line))
  {
    TokenizeWellFormed(line, 0);
    CategoriesFrom(line, 0, Tokenize(line));
  }

  /** The search finds every reserved word at or after its starting position. */
  lemma {:induction false} KeywordFromFinds(m: nat, n: nat)
    requires m <= n < KEYWORD_COUNT
    ensures KeywordFrom(KeywordAt(n), m)
    decreases n - m
  {
    if m < n {
      KeywordFromFinds(m + 1, n);
    }
  }

  lemma LetterIsWordChar(c: char)
    requires IsLetter(c)
    ensures IsWordChar(c) && !IsDigit(c)
  {
  }

  /** The reserved words are spelled with letters only. */
  lemma KeywordShape(n: nat)
    requires n < KEYWORD_COUNT
    ensures |KeywordAt(n)| > 0
    ensures forall k :: 0 <= k < |KeywordAt(n)| ==> IsLetter(KeywordAt(n)[k])
  {
  }

  /** A reserved word on its own is highlighted as a single keyword segment. */
  lemma KeywordAlone(n: nat)
    requires n < KEYWORD_COUNT
    ensures Tokenize(KeywordAt(n)) == Cons(Token(KeywordAt(n), Keyword), Nil)
  {
    var w := KeywordAt(n);
    KeywordFromFinds(0, n);
    KeywordShape(n);
    forall k | 0 <= k < |w|
      ensures IsWordChar(w[k])
    {
      LetterIsWordChar(w[k]);
    }
    assert !IsDigit(w[0]);
    assert w[0..|w|] == w;
    assert HeadOk(w, 0, Token(w, Keyword));
    TokensFromUnique(w, 0, Cons(Token(w, Keyword), Nil));
  }

}
