/**
 * The scanner (scanner.rs), as written. A cursor (`start`, `current`, `line`) over the
 * source yields one token per call of `scan_token`.
 *
 * The pure reads of the source (`peek`, `peek_next`, `is_at_end`, `check_keyword`,
 * `identifier_type`, `make_token`, `error_token`, `get_token_value`) are functions of a
 * `ScanState`, the scanner's four fields as a value. Each method of the source that moves
 * the cursor is a method of the class `Scanner`, proved against a function of the same
 * name ending in `Spec`. Those functions return `Panicked` where the source panics (an
 * `unwrap()` on `None` when a loop runs off the end of the source); the methods require
 * that this does not happen. The source is taken to be ASCII, so a char index is a byte
 * index.
 */
module Scanning {
  import opened Base

  datatype TokenType =
    // Single-character tokens.
    | LeftParen | RightParen | LeftBrace | RightBrace
    | Comma | Dot | Minus | Plus | Semicolon | Slash | Star
    // One or two character tokens.
    | Bang | BangEqual | Equal | EqualEqual
    | Greater | GreaterEqual | Less | LessEqual
    // Literals.
    | Identifier | String | Number
    // Keywords.
    | And | Class | Else | False | For | Fun | If | Nil | Or
    | Print | Return | Super | This | True | Var | While
    | Error | Eof

  /** A token: its type, where its text starts, its length, and its line. */
  datatype Token = Token(tokenType: TokenType, start: nat, length: nat, line: nat)

  /** The messages `error_token` is given; the token keeps only their length. */
  const UnexpectedCharacter: string := "Unexpected character."
  const UnterminatedString: string := "Unterminated string."

  /** The scanner's fields as a value. */
  datatype ScanState = ScanState(source: string, start: nat, current: nat, line: nat)

  /** The result of a scanning operation: the new state and a token, or a panic. */
  datatype Scan = Scanned(state: ScanState, token: Token) | Panicked

  // ---------------------------------------------------------------------------------
  // Pure reads

  /** `chars().nth(i)`. */
  function Nth(s: string, i: nat): Option<char>
  {
    if i < |s| then Some(s[i]) else None
  }

  /** `chars().skip(skip).take(take).collect()`. */
  function Slice(s: string, skip: nat, take: nat): (r: string)
    ensures |r| == if skip >= |s| then 0 else if skip + take <= |s| then take else |s| - skip
    ensures forall k :: 0 <= k < |r| ==> r[k] == s[skip + k]
  {
    if skip >= |s| then [] else if skip + take <= |s| then s[skip..skip + take] else s[skip..]
  }

  /** `is_at_end`: the cursor is exactly at the end (a cursor past the end is not). */
  predicate IsAtEnd(st: ScanState): (b: bool)
    ensures b ==> Peek(st).None?
    ensures !b && st.current <= |st.source| ==> Peek(st).Some?
  {
    |st.source| == st.current
  }

  /** `peek`: the char under the cursor. */
  function Peek(st: ScanState): (r: Option<char>)
    ensures r.Some? <==> st.current < |st.source|
    ensures r.Some? ==> r.value == st.source[st.current]
  {
    Nth(st.source, st.current)
  }

  /**
   * `peek_next`, as written: it reads index 1 of the source, not the char after the
   * cursor, so its answer does not depend on where the cursor is (short of the end).
   */
  function PeekNext(st: ScanState): (r: Option<char>)
    ensures r.Some? <==> !IsAtEnd(st) && 1 < |st.source|
    ensures r.Some? ==> r.value == st.source[1]
  {
    if IsAtEnd(st) then None else Nth(st.source, 1)
  }

  /** What `match_char(expected)` tests: the char under the cursor is `expected`. */
  predicate Matches(st: ScanState, expected: char)
  {
    st.current < |st.source| && st.source[st.current] == expected
  }

  /** `is_alpha`: an ASCII letter or `_`. */
  predicate IsAlpha(c: char): (b: bool)
    ensures b ==> !IsDigit(c) && !IsWhitespace(c) && !IsPunctuation(c) && c != '"'
  {
    'a' <= c <= 'z' || 'A' <= c <= 'Z' || c == '_'
  }

  /** `is_ascii_digit`. */
  predicate IsDigit(c: char)
  {
    '0' <= c <= '9'
  }

  /** A char the identifier loop consumes. */
  predicate IsIdentifierChar(c: char)
  {
    IsAlpha(c) || IsDigit(c)
  }

  /** A char the comment loop consumes. */
  predicate IsNotNewline(c: char)
  {
    c != '\n'
  }

  /** A char the string loop consumes. */
  predicate IsNotQuote(c: char)
  {
    c != '"'
  }

  /** The chars one of the scanning loops consumes: identifier chars, digits, or all but one char. */
  datatype CharClass = IdentifierChars | Digits | NotNewline | NotQuote

  /** Whether a loop over `chars` consumes `c`. */
  predicate Keeps(chars: CharClass, c: char)
  {
    match chars
    case IdentifierChars => IsIdentifierChar(c)
    case Digits => IsDigit(c)
    case NotNewline => IsNotNewline(c)
    case NotQuote => IsNotQuote(c)
  }

  /** The chars `skip_whitespace` steps over one at a time. */
  predicate IsWhitespace(c: char)
  {
    c == ' ' || c == '\r' || c == '\t' || c == '\n'
  }

  /** The number of newlines in `s`. */
  function Newlines(s: string): nat
  {
    multiset(s)['\n']
  }

  /** The text between `start` and `current`. */
  function Lexeme(st: ScanState): string
    requires st.start <= st.current <= |st.source|
  {
    st.source[st.start..st.current]
  }

  /**
   * The loops of the source of the form `while keep(peek().unwrap()) { advance() }`: the
   * first index at or after `i` whose char is not kept, or `None` when every char from `i`
   * on is kept, where the loop's `unwrap()` panics at the end of the source.
   */
  function ScanWhile(s: string, i: nat, keep: CharClass): (r: Option<nat>)
    ensures r.Some? ==> i <= r.value < |s| && !Keeps(keep, s[r.value])
    ensures r.Some? ==> forall k :: i <= k < r.value ==> Keeps(keep, s[k])
    ensures r.None? ==> forall k :: i <= k < |s| ==> Keeps(keep, s[k])
    decreases |s| - i
  {
    if i >= |s| then None else if Keeps(keep, s[i]) then ScanWhile(s, i + 1, keep) else Some(i)
  }

  /** One step of such a loop: a kept char is stepped over. */
  lemma ScanWhileStep(s: string, i: nat, keep: CharClass)
    requires i < |s| && Keeps(keep, s[i])
    ensures ScanWhile(s, i, keep) == ScanWhile(s, i + 1, keep)
  {
  }

  /** Such a loop stops at the first char that is not kept. */
  lemma ScanWhileStopsAt(s: string, i: nat, j: nat, keep: CharClass)
    requires i <= j < |s| && !Keeps(keep, s[j]) && forall k :: i <= k < j ==> Keeps(keep, s[k])
    ensures ScanWhile(s, i, keep) == Some(j)
  {
  }

  /** `make_token`: a token spanning `start` to `current`, on the current line. */
  function MakeToken(st: ScanState, tokenType: TokenType): (t: Token)
    requires st.start <= st.current
    ensures t.tokenType == tokenType && t.start == st.start && t.line == st.line
    ensures t.start + t.length == st.current
  {
    Token(tokenType, st.start, st.current - st.start, st.line)
  }

  /** `error_token`: an Error token starting at 0 whose length is the message's length. */
  function ErrorToken(st: ScanState, message: string): (t: Token)
    ensures t == Token(Error, 0, |message|, st.line)
  {
    Token(Error, 0, |message|, st.line)
  }

  /** `get_token_value`: the text a token spans. */
  function GetTokenValue(st: ScanState, token: Token): (r: string)
    ensures |r| <= token.length && (|r| == 0 || token.start + |r| <= |st.source|)
    ensures token.start + token.length <= |st.source| ==> |r| == token.length
    ensures forall k :: 0 <= k < |r| ==> r[k] == st.source[token.start + k]
  {
    Slice(st.source, token.start, token.length)
  }

  /** The text of a token `make_token` builds is the lexeme between `start` and `current`. */
  lemma MadeTokenValue(st: ScanState, tokenType: TokenType)
    requires st.start <= st.current <= |st.source|
    ensures GetTokenValue(st, MakeToken(st, tokenType)) == Lexeme(st)
  {
  }

  /**
   * `check_keyword`: the keyword when the lexeme has `start + length` chars and the
   * `length` chars from offset `start` equal `rest`.
   */
  function CheckKeyword(st: ScanState, start: nat, length: nat, rest: string, tokenType: TokenType): (r: TokenType)
    requires st.start <= st.current
    ensures r == tokenType || r == Identifier
    ensures r != Identifier ==> st.current - st.start == start + length
  {
    if st.current - st.start == start + length && Slice(st.source, st.start + start, length) == rest
    then tokenType
    else Identifier
  }

  /** `identifier_type`: the first-letter dispatch over the keyword table. */
  function IdentifierType(st: ScanState): (r: TokenType)
    requires st.start <= st.current
    ensures r == Identifier || IsKeyword(r)
    ensures r != Identifier ==> st.current - st.start >= 2
  {
    match Nth(st.source, st.start)
    case Some('a') => CheckKeyword(st, 1, 2, "nd", And)
    case Some('c') => CheckKeyword(st, 1, 4, "lass", Class)
    case Some('e') => CheckKeyword(st, 1, 3, "lse", Else)
    case Some('f') =>
      if st.current - st.start > 1 then
        match Nth(st.source, st.start + 1)
        case Some('a') => CheckKeyword(st, 2, 3, "lse", False)
        case Some('o') => CheckKeyword(st, 2, 1, "r", For)
        case Some('u') => CheckKeyword(st, 2, 1, "n", Fun)
        case _ => Identifier
      else Identifier
    case Some('i') => CheckKeyword(st, 1, 1, "f", If)
    case Some('n') => CheckKeyword(st, 1, 2, "il", Nil)
    case Some('o') => CheckKeyword(st, 1, 1, "r", Or)
    case Some('p') => CheckKeyword(st, 1, 4, "rint", Print)
    case Some('r') => CheckKeyword(st, 1, 5, "eturn", Return)
    case Some('s') => CheckKeyword(st, 1, 4, "uper", Super)
    case Some('t') =>
      if st.current - st.start > 1 then
        match Nth(st.source, st.start + 1)
        case Some('h') => CheckKeyword(st, 2, 2, "is", This)
        case Some('r') => CheckKeyword(st, 2, 2, "ue", True)
        case _ => Identifier
      else Identifier
    case Some('v') => CheckKeyword(st, 1, 2, "ar", Var)
    case Some('w') => CheckKeyword(st, 1, 5, "hile", While)
    case _ => Identifier
  }

  /** The token types of the reserved words. */
  predicate IsKeyword(t: TokenType)
  {
    t == And || t == Class || t == Else || t == False || t == For || t == Fun || t == If ||
    t == Nil || t == Or || t == Print || t == Return || t == Super || t == This || t == True ||
    t == Var || t == While
  }

  /** The language's reserved words and their token types; anything else is an identifier. */
  function KeywordType(lexeme: string): TokenType
  {
    if lexeme == "and" then And
    else if lexeme == "class" then Class
    else if lexeme == "else" then Else
    else if lexeme == "false" then False
    else if lexeme == "for" then For
    else if lexeme == "fun" then Fun
    else if lexeme == "if" then If
    else if lexeme == "nil" then Nil
    else if lexeme == "or" then Or
    else if lexeme == "print" then Print
    else if lexeme == "return" then Return
    else if lexeme == "super" then Super
    else if lexeme == "this" then This
    else if lexeme == "true" then True
    else if lexeme == "var" then Var
    else if lexeme == "while" then While
    else Identifier
  }

  /** The first char of each reserved word, and the second of those that share their first. */
  lemma KeywordInitials(lexeme: string)
    ensures lexeme == "and" ==> |lexeme| > 0 && lexeme[0] == 'a'
    ensures lexeme == "class" ==> |lexeme| > 0 && lexeme[0] == 'c'
    ensures lexeme == "else" ==> |lexeme| > 0 && lexeme[0] == 'e'
    ensures lexeme == "false" ==> |lexeme| > 0 && lexeme[0] == 'f'
    ensures lexeme == "for" ==> |lexeme| > 0 && lexeme[0] == 'f'
    ensures lexeme == "fun" ==> |lexeme| > 0 && lexeme[0] == 'f'
    ensures lexeme == "if" ==> |lexeme| > 0 && lexeme[0] == 'i'
    ensures lexeme == "nil" ==> |lexeme| > 0 && lexeme[0] == 'n'
    ensures lexeme == "or" ==> |lexeme| > 0 && lexeme[0] == 'o'
    ensures lexeme == "print" ==> |lexeme| > 0 && lexeme[0] == 'p'
    ensures lexeme == "return" ==> |lexeme| > 0 && lexeme[0] == 'r'
    ensures lexeme == "super" ==> |lexeme| > 0 && lexeme[0] == 's'
    ensures lexeme == "this" ==> |lexeme| > 0 && lexeme[0] == 't'
    ensures lexeme == "true" ==> |lexeme| > 0 && lexeme[0] == 't'
    ensures lexeme == "var" ==> |lexeme| > 0 && lexeme[0] == 'v'
    ensures lexeme == "while" ==> |lexeme| > 0 && lexeme[0] == 'w'
    ensures lexeme == "false" ==> |lexeme| > 1 && lexeme[1] == 'a'
    ensures lexeme == "for" ==> |lexeme| > 1 && lexeme[1] == 'o'
    ensures lexeme == "fun" ==> |lexeme| > 1 && lexeme[1] == 'u'
    ensures lexeme == "this" ==> |lexeme| > 1 && lexeme[1] == 'h'
    ensures lexeme == "true" ==> |lexeme| > 1 && lexeme[1] == 'r'
  {
  }

  /** `check_keyword` compares the lexeme's length and its tail from offset `start`. */
  lemma CheckKeywordCompares(st: ScanState, start: nat, length: nat, rest: string, tokenType: TokenType)
    requires st.start <= st.current <= |st.source|
    ensures CheckKeyword(st, start, length, rest, tokenType) ==
      if |Lexeme(st)| == start + length && Lexeme(st)[start..] == rest then tokenType else Identifier
  {
    if st.current - st.start == start + length {
      assert Slice(st.source, st.start + start, length) == Lexeme(st)[start..];
    }
  }

  /** A lexeme equals a word exactly when its first char and the rest agree. */
  lemma SplitWord(lexeme: string, word: string)
    requires |word| > 0
    ensures lexeme == word <==> |lexeme| > 0 && lexeme[0] == word[0] && lexeme[1..] == word[1..]
  {
    if |lexeme| > 0 && lexeme[0] == word[0] && lexeme[1..] == word[1..] {
      assert lexeme == [lexeme[0]] + lexeme[1..];
      assert word == [word[0]] + word[1..];
    }
  }

  /**
   * `identifier_type` gives keyword K exactly when the lexeme is K's spelling, for every
   * keyword except `while`, and Identifier otherwise.
   */
  lemma {:induction false} IdentifierTypeIsKeywordLookup(st: ScanState)
    requires st.start <= st.current <= |st.source|
    ensures IdentifierType(st) == if Lexeme(st) == "while" then Identifier else KeywordType(Lexeme(st))
  {
    var lx := Lexeme(st);
    if |lx| == 0 {
      match Nth(st.source, st.start)
      case Some('f') =>
      case Some('t') =>
      case Some(c) => CheckKeywordCompares(st, 1, 2, "", Identifier);
      case None =>
    } else {
      KeywordInitials(lx);
      var c := lx[0];
      if c == 'a' || c == 'c' || c == 'e' || c == 'i' {
        IdentifierTypeACEI(st);
      } else if c == 'n' || c == 'o' || c == 'p' || c == 'r' {
        IdentifierTypeNOPR(st);
      } else if c == 's' || c == 'v' || c == 'w' {
        IdentifierTypeSVW(st);
      } else if lx[0] == 'f' {
        IdentifierTypeF(st);
      } else if lx[0] == 't' {
        IdentifierTypeT(st);
      } else {
        assert Nth(st.source, st.start) == Some(lx[0]);
      }
    }
  }

  /** The `a`, `c`, `e` and `i` branches of `identifier_type`. */
  lemma IdentifierTypeACEI(st: ScanState)
    requires st.start < st.current <= |st.source| && var c := st.source[st.start]; c == 'a' || c == 'c' || c == 'e' || c == 'i'
    ensures IdentifierType(st) == KeywordType(Lexeme(st))
  {
    var lx := Lexeme(st);
    KeywordInitials(lx);
    assert Nth(st.source, st.start) == Some(lx[0]);
    match lx[0]
    case 'a' => SplitWord(lx, "and"); CheckKeywordCompares(st, 1, 2, "nd", And);
    case 'c' => SplitWord(lx, "class"); CheckKeywordCompares(st, 1, 4, "lass", Class);
    case 'e' => SplitWord(lx, "else"); CheckKeywordCompares(st, 1, 3, "lse", Else);
    case 'i' => SplitWord(lx, "if"); CheckKeywordCompares(st, 1, 1, "f", If);
  }

  /** The `n`, `o`, `p` and `r` branches of `identifier_type`. */
  lemma IdentifierTypeNOPR(st: ScanState)
    requires st.start < st.current <= |st.source| && var c := st.source[st.start]; c == 'n' || c == 'o' || c == 'p' || c == 'r'
    ensures IdentifierType(st) == KeywordType(Lexeme(st))
  {
    var lx := Lexeme(st);
    KeywordInitials(lx);
    assert Nth(st.source, st.start) == Some(lx[0]);
    match lx[0]
    case 'n' => SplitWord(lx, "nil"); CheckKeywordCompares(st, 1, 2, "il", Nil);
    case 'o' => SplitWord(lx, "or"); CheckKeywordCompares(st, 1, 1, "r", Or);
    case 'p' => SplitWord(lx, "print"); CheckKeywordCompares(st, 1, 4, "rint", Print);
    case 'r' => SplitWord(lx, "return"); CheckKeywordCompares(st, 1, 5, "eturn", Return);
  }

  /**
   * The `s`, `v` and `w` branches of `identifier_type`; for `w` the lexeme `while` gives
   * Identifier.
   */
  lemma IdentifierTypeSVW(st: ScanState)
    requires st.start < st.current <= |st.source| && var c := st.source[st.start]; c == 's' || c == 'v' || c == 'w'
    ensures IdentifierType(st) == if Lexeme(st) == "while" then Identifier else KeywordType(Lexeme(st))
  {
    var lx := Lexeme(st);
    KeywordInitials(lx);
    assert Nth(st.source, st.start) == Some(lx[0]);
    match lx[0]
    case 's' => SplitWord(lx, "super"); CheckKeywordCompares(st, 1, 4, "uper", Super);
    case 'v' => SplitWord(lx, "var"); CheckKeywordCompares(st, 1, 2, "ar", Var);
    case 'w' => CheckKeywordCompares(st, 1, 5, "hile", While);
  }

  /** The `f` branch of `identifier_type`, which dispatches on the second char. */
  lemma IdentifierTypeF(st: ScanState)
    requires st.start < st.current <= |st.source| && st.source[st.start] == 'f'
    ensures IdentifierType(st) == KeywordType(Lexeme(st))
  {
    var lx := Lexeme(st);
    KeywordInitials(lx);
    assert Nth(st.source, st.start) == Some('f');
    if |lx| > 1 {
      assert Nth(st.source, st.start + 1) == Some(lx[1]);
      SplitTwo(lx, "false");
      SplitTwo(lx, "for");
      SplitTwo(lx, "fun");
      match lx[1]
      case 'a' => CheckKeywordCompares(st, 2, 3, "lse", False);
      case 'o' => CheckKeywordCompares(st, 2, 1, "r", For);
      case 'u' => CheckKeywordCompares(st, 2, 1, "n", Fun);
      case _ =>
    }
  }

  /** The `t` branch of `identifier_type`, which dispatches on the second char. */
  lemma IdentifierTypeT(st: ScanState)
    requires st.start < st.current <= |st.source| && st.source[st.start] == 't'
    ensures IdentifierType(st) == KeywordType(Lexeme(st))
  {
    var lx := Lexeme(st);
    KeywordInitials(lx);
    assert Nth(st.source, st.start) == Some('t');
    if |lx| > 1 {
      assert Nth(st.source, st.start + 1) == Some(lx[1]);
      SplitTwo(lx, "this");
      SplitTwo(lx, "true");
      match lx[1]
      case 'h' => CheckKeywordCompares(st, 2, 2, "is", This);
      case 'r' => CheckKeywordCompares(st, 2, 2, "ue", True);
      case _ =>
    }
  }

  /** A lexeme equals a word exactly when their first two chars and the rest agree. */
  lemma SplitTwo(lexeme: string, word: string)
    requires |lexeme| > 1 && |word| > 1 && lexeme[0] == word[0]
    ensures lexeme == word <==> lexeme[1] == word[1] && lexeme[2..] == word[2..]
  {
    if lexeme[1] == word[1] && lexeme[2..] == word[2..] {
      assert lexeme == [lexeme[0], lexeme[1]] + lexeme[2..];
      assert word == [word[0], word[1]] + word[2..];
    }
  }

  /**
   * `while` is never recognised: `check_keyword(1, 5, "hile")` accepts only a six-char
   * lexeme, whose five-char tail can never equal the four-char `"hile"`.
   */
  lemma WhileNeverRecognised(st: ScanState)
    requires st.start <= st.current <= |st.source|
    ensures IdentifierType(st) != While
  {
    IdentifierTypeIsKeywordLookup(st);
  }

  // ---------------------------------------------------------------------------------
  // The operations that move the cursor

  /**
   * `skip_whitespace`: steps over ' ', '\r', '\t' and '\n' (counting lines) and over
   * comments, and stops at any other char. A '/' starts a comment when `peek_next` is '/',
   * and that reads index 1 of the source; the comment then runs up to the next '\n'. It
   * panics on a '/' when the source has one char, and on a comment that reaches the end.
   */
  function SkipWhitespaceSpec(st: ScanState): (r: Option<ScanState>)
    ensures r.Some? ==> r.value.source == st.source && r.value.start == st.start
    ensures r.Some? ==> st.current <= r.value.current && st.line <= r.value.line
    ensures r.Some? && st.current <= |st.source| ==> r.value.current <= |st.source|
    ensures r.Some? ==> AtTokenStart(r.value)
    decreases |st.source| - st.current
  {
    match Peek(st)
    case Some(c) =>
      if c == ' ' || c == '\r' || c == '\t' then
        SkipWhitespaceSpec(st.(current := st.current + 1))
      else if c == '\n' then
        SkipWhitespaceSpec(st.(line := st.line + 1, current := st.current + 1))
      else if c == '/' then
        match PeekNext(st)
        case None => None
        case Some(next) =>
          if next == '/' then
            match ScanWhile(st.source, st.current, NotNewline)
            case None => None
            case Some(lineEnd) => SkipWhitespaceSpec(st.(current := lineEnd))
          else Some(st)
      else Some(st)
    case None => Some(st)
  }

  /** Where `skip_whitespace` stops: not on whitespace, and not on a '/' it takes for a comment. */
  predicate AtTokenStart(st: ScanState)
  {
    match Peek(st)
    case None => true
    case Some(c) => !IsWhitespace(c) && (c == '/' ==> PeekNext(st).Some? && PeekNext(st).value != '/')
  }

  /** `skip_whitespace` adds to `line` exactly the number of newlines it steps over. */
  lemma {:induction false} SkipWhitespaceCountsLines(st: ScanState)
    requires st.current <= |st.source| && SkipWhitespaceSpec(st).Some?
    ensures var r := SkipWhitespaceSpec(st).value;
      r.line == st.line + Newlines(st.source[st.current..r.current])
    decreases |st.source| - st.current, 1
  {
    if st.current < |st.source| {
      var c := st.source[st.current];
      if IsWhitespace(c) {
        WhitespaceCountsLines(st);
      } else if c == '/' && PeekNext(st) == Some('/') {
        CommentCountsLines(st);
      }
    }
  }

  /** `SkipWhitespaceCountsLines` when the cursor is on a whitespace char. */
  lemma {:induction false} WhitespaceCountsLines(st: ScanState)
    requires st.current < |st.source| && IsWhitespace(st.source[st.current]) && SkipWhitespaceSpec(st).Some?
    ensures var r := SkipWhitespaceSpec(st).value;
      r.line == st.line + Newlines(st.source[st.current..r.current])
    decreases |st.source| - st.current, 0
  {
    var s := st.source;
    var st' := WhitespaceStep(st);
    SkipWhitespaceCountsLines(st');
    NewlinesOne(s, st.current);
    NewlinesSplit(s, st.current, st.current + 1, SkipWhitespaceSpec(st').value.current);
  }

  /** One whitespace char: the skip goes on one char further, a '\n' adding a line. */
  lemma WhitespaceStep(st: ScanState) returns (next: ScanState)
    requires st.current < |st.source| && IsWhitespace(st.source[st.current])
    ensures next == st.(line := if st.source[st.current] == '\n' then st.line + 1 else st.line,
                        current := st.current + 1)
    ensures SkipWhitespaceSpec(st) == SkipWhitespaceSpec(next)
  {
    next := st.(line := if st.source[st.current] == '\n' then st.line + 1 else st.line,
                current := st.current + 1);
  }

  /** `SkipWhitespaceCountsLines` when the cursor is on a comment. */
  lemma {:induction false} CommentCountsLines(st: ScanState)
    requires st.current < |st.source| && st.source[st.current] == '/' && PeekNext(st) == Some('/')
    requires SkipWhitespaceSpec(st).Some?
    ensures var r := SkipWhitespaceSpec(st).value;
      r.line == st.line + Newlines(st.source[st.current..r.current])
    decreases |st.source| - st.current, 0
  {
    var s := st.source;
    var r := SkipWhitespaceSpec(st).value;
    var lineEnd := CommentEnd(st);
    SkipWhitespaceCountsLines(st.(current := lineEnd));
    NewlinesSplit(s, st.current, lineEnd, r.current);
    NoNewlines(s[st.current..lineEnd]);
  }

  /** A comment skipped by `skip_whitespace` ends at a '\n', and the skip goes on from there. */
  lemma CommentEnd(st: ScanState) returns (lineEnd: nat)
    requires st.current < |st.source| && st.source[st.current] == '/'
    requires PeekNext(st) == Some('/') && SkipWhitespaceSpec(st).Some?
    ensures st.current < lineEnd < |st.source| && st.source[lineEnd] == '\n'
    ensures forall k :: st.current <= k < lineEnd ==> st.source[k] != '\n'
    ensures SkipWhitespaceSpec(st) == SkipWhitespaceSpec(st.(current := lineEnd))
  {
    lineEnd := ScanWhile(st.source, st.current, NotNewline).value;
  }

  /** A string with no '\n' in it has no newlines. */
  lemma NoNewlines(s: string)
    requires forall k :: 0 <= k < |s| ==> s[k] != '\n'
    ensures Newlines(s) == 0
  {
    assert '\n' !in s;
  }

  /** Extending a stretch of the source by one char counts that char if it is a '\n'. */
  lemma NewlinesStep(s: string, from: nat, i: nat)
    requires from <= i < |s|
    ensures Newlines(s[from..i + 1]) == Newlines(s[from..i]) + if s[i] == '\n' then 1 else 0
  {
    assert s[from..i + 1] == s[from..i] + [s[i]];
  }

  /** A single char is one newline when it is a '\n', and none otherwise. */
  lemma NewlinesOne(s: string, i: nat)
    requires i < |s|
    ensures Newlines(s[i..i + 1]) == if s[i] == '\n' then 1 else 0
  {
    assert s[i..i + 1] == [s[i]];
  }

  /** Counting newlines distributes over splitting a string in two. */
  lemma NewlinesSplit(s: string, i: nat, j: nat, k: nat)
    requires i <= j <= k <= |s|
    ensures Newlines(s[i..k]) == Newlines(s[i..j]) + Newlines(s[j..k])
  {
    assert s[i..k] == s[i..j] + s[j..k];
  }

  /**
   * When the source's second char is not '/', no comment is ever skipped, so
   * `skip_whitespace` steps over whitespace only.
   */
  lemma {:induction false} SkipWhitespaceSkipsOnlyWhitespace(st: ScanState)
    requires st.current <= |st.source| && SkipWhitespaceSpec(st).Some?
    requires |st.source| < 2 || st.source[1] != '/'
    ensures forall k :: st.current <= k < SkipWhitespaceSpec(st).value.current ==> IsWhitespace(st.source[k])
    decreases |st.source| - st.current
  {
    if st.current < |st.source| && IsWhitespace(st.source[st.current]) {
      var c := st.source[st.current];
      var st' := if c == '\n' then st.(line := st.line + 1, current := st.current + 1)
                 else st.(current := st.current + 1);
      SkipWhitespaceSkipsOnlyWhitespace(st');
    }
  }

  /**
   * A '/' under the cursor is left for `scan_token` exactly when the source's second char is
   * not '/', whatever follows the '/' itself.
   */
  lemma SlashStartsCommentIffSecondCharIsSlash(st: ScanState)
    requires Peek(st) == Some('/') && 1 < |st.source|
    ensures SkipWhitespaceSpec(st) == Some(st) <==> st.source[1] != '/'
    ensures st.source[1] == '/' ==> SkipWhitespaceSpec(st).None? || SkipWhitespaceSpec(st).value.current > st.current
  {
  }

  /** A comment that no newline ends makes `skip_whitespace` panic. */
  lemma UnterminatedCommentPanics(st: ScanState)
    requires Peek(st) == Some('/') && 1 < |st.source| && st.source[1] == '/'
    requires forall k :: st.current <= k < |st.source| ==> st.source[k] != '\n'
    ensures SkipWhitespaceSpec(st).None?
  {
  }

  /** `identifier`: consumes identifier chars, then classifies the lexeme. */
  function ScanIdentifierSpec(st: ScanState): (r: Scan)
    requires st.start <= st.current
    ensures r.Scanned? ==> r.state == st.(current := r.state.current) && st.current <= r.state.current < |st.source|
    ensures r.Scanned? ==> r.token == MakeToken(r.state, r.token.tokenType)
  {
    match ScanWhile(st.source, st.current, IdentifierChars)
    case None => Panicked
    case Some(end) =>
      var st' := st.(current := end);
      Scanned(st', MakeToken(st', IdentifierType(st')))
  }

  /**
   * `number`: consumes a run of digits, then a '.' and a second run of digits when the
   * char under the cursor is '.' and `peek_next` (index 1 of the source) is a digit.
   */
  function ScanNumberSpec(st: ScanState): (r: Scan)
    requires st.start <= st.current
    ensures r.Scanned? ==> r.state == st.(current := r.state.current) && st.current <= r.state.current < |st.source|
    ensures r.Scanned? ==> r.token == MakeToken(r.state, Number)
  {
    match ScanWhile(st.source, st.current, Digits)
    case None => Panicked
    case Some(end) => ScanFractionSpec(st.(current := end))
  }

  /** The part of `number` after the integer digits, with the cursor on the first non-digit. */
  function ScanFractionSpec(st: ScanState): (r: Scan)
    requires st.start <= st.current < |st.source|
    ensures r.Scanned? ==> r.state == st.(current := r.state.current) && st.current <= r.state.current < |st.source|
    ensures r.Scanned? ==> r.token == MakeToken(r.state, Number)
  {
    if st.source[st.current] == '.' then
      match PeekNext(st)
      case None => Panicked
      case Some(next) =>
        if IsDigit(next) then
          match ScanWhile(st.source, st.current + 1, Digits)
          case None => Panicked
          case Some(fractionEnd) =>
            var st' := st.(current := fractionEnd);
            Scanned(st', MakeToken(st', Number))
        else Scanned(st, MakeToken(st, Number))
    else Scanned(st, MakeToken(st, Number))
  }

  /**
   * `string`: consumes up to the closing quote, counting newlines, then the quote. With no
   * closing quote the loop's `peek().unwrap()` panics before `is_at_end` is checked, so the
   * "Unterminated string." branch is never taken.
   */
  function ScanStringSpec(st: ScanState): (r: Scan)
    requires st.start <= st.current <= |st.source|
    ensures r.Scanned? ==> r.token.tokenType == String
    ensures r.Scanned? ==> r.state.source == st.source && r.state.start == st.start
    ensures r.Scanned? ==> st.current < r.state.current <= |st.source| && st.line <= r.state.line
  {
    match ScanWhile(st.source, st.current, NotQuote)
    case None => Panicked
    case Some(quote) =>
      var st' := st.(current := quote, line := st.line + Newlines(st.source[st.current..quote]));
      if IsAtEnd(st') then Scanned(st', ErrorToken(st', UnterminatedString))
      else
        var st'' := st'.(current := quote + 1);
        Scanned(st'', MakeToken(st'', String))
  }

  /** The single-char punctuation `scan_token` matches. */
  predicate IsPunctuation(c: char)
  {
    c == '(' || c == ')' || c == '{' || c == '}' || c == ';' || c == ',' ||
    c == '.' || c == '-' || c == '+' || c == '/' || c == '*'
  }

  /** The branch of `scan_token` for `!`, `=`, `<` and `>`: a two-char token if '=' follows. */
  function OperatorSpec(st: ScanState, twoChar: TokenType, oneChar: TokenType): (r: Scan)
    requires st.start <= st.current
    ensures r.Scanned? && r.state == st.(current := r.state.current)
    ensures r.state.current == if Matches(st, '=') then st.current + 1 else st.current
    ensures r.token == MakeToken(r.state, if Matches(st, '=') then twoChar else oneChar)
  {
    if Matches(st, '=') then
      var st' := st.(current := st.current + 1);
      Scanned(st', MakeToken(st', twoChar))
    else Scanned(st, MakeToken(st, oneChar))
  }

  /**
   * `scan_token`. Punctuation and string literals build a token that the `;` after the
   * `match` throws away, so they return the "Unexpected character." error token, after the
   * cursor has moved past them. `!` yields Greater or GreaterEqual.
   */
  function ScanTokenSpec(st: ScanState): (r: Scan)
    ensures r.Scanned? ==> r.state.source == st.source && st.line <= r.state.line
  {
    match SkipWhitespaceSpec(st)
    case None => Panicked
    case Some(skipped) => ScanLexemeSpec(skipped.(start := skipped.current))
  }

  /** `scan_token` after `start := current`: Eof at the end, else advance and dispatch on the char. */
  function ScanLexemeSpec(st: ScanState): (r: Scan)
    requires st.start == st.current
    ensures r.Scanned? ==> r.state.source == st.source && r.state.start == st.start && st.line <= r.state.line
    ensures IsAtEnd(st) ==> r.Scanned? && r.state == st && r.token.tokenType == Eof
  {
    if IsAtEnd(st) then Scanned(st, MakeToken(st, Eof))
    else
      match Nth(st.source, st.current)
      case None => Panicked
      case Some(c) => ScanCharSpec(st.(current := st.current + 1), c)
  }

  /** The dispatch of `scan_token` on the char `c` it has just consumed. */
  function ScanCharSpec(st: ScanState, c: char): (r: Scan)
    requires st.start <= st.current
    ensures r.Scanned? ==> r.state.source == st.source && r.state.start == st.start
    ensures r.Scanned? ==> st.current <= r.state.current && st.line <= r.state.line
  {
    if IsAlpha(c) then ScanIdentifierSpec(st)
    else if IsDigit(c) then ScanNumberSpec(st)
    else if IsPunctuation(c) then Scanned(st, ErrorToken(st, UnexpectedCharacter))
    else if c == '!' then OperatorSpec(st, GreaterEqual, Greater)
    else if c == '=' then OperatorSpec(st, EqualEqual, Equal)
    else if c == '<' then OperatorSpec(st, LessEqual, Less)
    else if c == '>' then OperatorSpec(st, GreaterEqual, Greater)
    else if c == '"' then
      if st.current <= |st.source| then
        match ScanStringSpec(st)
        case Panicked => Panicked
        case Scanned(st', _) => Scanned(st', ErrorToken(st', UnexpectedCharacter))
      else Panicked
    else Scanned(st, ErrorToken(st, UnexpectedCharacter))
  }

  // ---------------------------------------------------------------------------------
  // Properties of scan_token

  /** The cursor invariant every operation keeps: start <= current <= the source's length. */
  predicate CursorValid(st: ScanState)
  {
    st.start <= st.current <= |st.source|
  }

  /**
   * Every call keeps the cursor invariant and the source, never lowers `line`, and every
   * call that does not return Eof moves `current` forward by at least one char.
   */
  lemma ScanTokenProgress(st: ScanState)
    requires CursorValid(st) && ScanTokenSpec(st).Scanned?
    ensures var r := ScanTokenSpec(st);
      CursorValid(r.state) && r.state.source == st.source && st.line <= r.state.line &&
      (r.token.tokenType != Eof ==> st.current < r.state.current)
  {
  }

  /**
   * At the end of the source `scan_token` returns Eof, of length 0, starting at `current`,
   * and changes nothing but `start`.
   */
  lemma ScanAtEnd(st: ScanState)
    requires st.current == |st.source|
    ensures ScanTokenSpec(st) == Scanned(st.(start := st.current), Token(Eof, st.current, 0, st.line))
  {
  }

  /** Once `scan_token` returns Eof, every further call returns the same token and state. */
  lemma EofRepeats(st: ScanState)
    requires ScanTokenSpec(st).Scanned? && ScanTokenSpec(st).token.tokenType == Eof
    ensures var r := ScanTokenSpec(st);
      r.state.start == r.state.current == |r.state.source| && ScanTokenSpec(r.state) == r
  {
  }

  /**
   * A cursor past the end of the source, which `set_source` with a shorter source leaves
   * behind, makes `scan_token` panic: `is_at_end` tests equality only.
   */
  lemma CursorPastEndPanics(st: ScanState)
    requires st.current > |st.source|
    ensures ScanTokenSpec(st) == Panicked
  {
  }

  /**
   * Every Error token `scan_token` returns is the "Unexpected character." one: start 0,
   * length 21. In particular "Unterminated string." never comes out.
   */
  lemma ErrorTokensAreUnexpectedCharacter(st: ScanState)
    requires CursorValid(st) && ScanTokenSpec(st).Scanned? && ScanTokenSpec(st).token.tokenType == Error
    ensures ScanTokenSpec(st).token == Token(Error, 0, 21, ScanTokenSpec(st).state.line)
  {
  }

  /**
   * Every other token is built by `make_token` from the new state: it spans `start` to
   * `current` and its text is that lexeme.
   */
  lemma NonErrorTokensSpanLexeme(st: ScanState)
    requires CursorValid(st) && ScanTokenSpec(st).Scanned? && ScanTokenSpec(st).token.tokenType != Error
    ensures var r := ScanTokenSpec(st);
      r.token == MakeToken(r.state, r.token.tokenType) && GetTokenValue(r.state, r.token) == Lexeme(r.state)
  {
    var skipped := SkipWhitespaceSpec(st).value;
    var st1 := skipped.(start := skipped.current);
    if !IsAtEnd(st1) {
      CharTokensSpanLexeme(st1.(current := st1.current + 1), st1.source[st1.current]);
    }
    var r := ScanTokenSpec(st);
    MadeTokenValue(r.state, r.token.tokenType);
  }

  /** `NonErrorTokensSpanLexeme` for the dispatch on the consumed char. */
  lemma CharTokensSpanLexeme(st: ScanState, c: char)
    requires st.start <= st.current <= |st.source| && ScanCharSpec(st, c).Scanned?
    requires ScanCharSpec(st, c).token.tokenType != Error
    ensures var r := ScanCharSpec(st, c);
      r.token == MakeToken(r.state, r.token.tokenType) && CursorValid(r.state)
  {
  }

  /**
   * The token types `scan_token` can return. No punctuation, Bang, BangEqual, String or
   * While token ever comes out.
   */
  predicate Producible(t: TokenType)
  {
    t in {Identifier, Number, Equal, EqualEqual, Greater, GreaterEqual, Less, LessEqual, Error, Eof,
          And, Class, Else, False, For, Fun, If, Nil, Or, Print, Return, Super, This, True, Var}
  }

  lemma OnlyProducibleTokenTypes(st: ScanState)
    requires CursorValid(st) && ScanTokenSpec(st).Scanned?
    ensures Producible(ScanTokenSpec(st).token.tokenType)
  {
    var skipped := SkipWhitespaceSpec(st).value;
    var st1 := skipped.(start := skipped.current);
    if !IsAtEnd(st1) {
      var st2 := st1.(current := st1.current + 1);
      if IsAlpha(st1.source[st1.current]) {
        var end := ScanWhile(st2.source, st2.current, IdentifierChars).value;
        WhileNeverRecognised(st2.(current := end));
      }
    }
  }

  /** A token starts at a char that `skip_whitespace` leaves alone. */
  lemma AtTokenStartIsNotSkipped(st: ScanState)
    requires AtTokenStart(st)
    ensures SkipWhitespaceSpec(st) == Some(st)
  {
  }

  /** At a token start before the end, `scan_token` consumes the char there and dispatches on it. */
  lemma DispatchAtTokenStart(st: ScanState)
    requires st.current < |st.source| && AtTokenStart(st)
    ensures ScanTokenSpec(st) ==
      ScanCharSpec(st.(start := st.current, current := st.current + 1), st.source[st.current])
  {
    AtTokenStartIsNotSkipped(st);
    var st1 := st.(start := st.current);
    assert ScanTokenSpec(st) == ScanLexemeSpec(st1);
    assert Nth(st.source, st.current) == Some(st.source[st.current]);
  }

  /**
   * `!`, `=`, `<` and `>` give a two-char token (consuming the '=') exactly when the next
   * char is '=', and a one-char token otherwise; `!` gives GreaterEqual or Greater.
   */
  lemma OneOrTwoCharOperators(st: ScanState)
    requires st.current < |st.source|
    requires var c := st.source[st.current]; c == '!' || c == '=' || c == '<' || c == '>'
    ensures var c := st.source[st.current];
      var two := st.current + 1 < |st.source| && st.source[st.current + 1] == '=';
      var length := if two then 2 else 1;
      var tokenType :=
        if c == '=' then (if two then EqualEqual else Equal)
        else if c == '<' then (if two then LessEqual else Less)
        else (if two then GreaterEqual else Greater);
      ScanTokenSpec(st) ==
        Scanned(st.(start := st.current, current := st.current + length),
                Token(tokenType, st.current, length, st.line))
  {
    DispatchAtTokenStart(st);
    var st2 := st.(start := st.current, current := st.current + 1);
    OperatorDispatch(st2, st.source[st.current]);
  }

  /** The operator branch `scan_token` takes for each of `!`, `=`, `<` and `>`. */
  lemma OperatorDispatch(st: ScanState, c: char)
    requires st.start <= st.current && (c == '!' || c == '=' || c == '<' || c == '>')
    ensures ScanCharSpec(st, c) ==
      if c == '=' then OperatorSpec(st, EqualEqual, Equal)
      else if c == '<' then OperatorSpec(st, LessEqual, Less)
      else OperatorSpec(st, GreaterEqual, Greater)
  {
  }

  /**
   * Punctuation, and any char no branch recognises, gives the "Unexpected character."
   * token with the cursor one char further on.
   */
  lemma PunctuationIsUnexpected(st: ScanState)
    requires st.current < |st.source| && AtTokenStart(st)
    requires var c := st.source[st.current];
      !IsIdentifierChar(c) && c != '!' && c != '=' && c != '<' && c != '>' && c != '"'
    ensures ScanTokenSpec(st) ==
      Scanned(st.(start := st.current, current := st.current + 1), Token(Error, 0, 21, st.line))
  {
    AtTokenStartIsNotSkipped(st);
  }

  /**
   * A string literal gives the "Unexpected character." token too; the cursor moves past
   * the closing quote and `line` counts the newlines inside the literal.
   */
  lemma StringLiteralIsUnexpected(st: ScanState, quote: nat)
    requires st.current < quote < |st.source| && st.source[st.current] == '"' && st.source[quote] == '"'
    requires forall k :: st.current < k < quote ==> st.source[k] != '"'
    ensures var line := st.line + Newlines(st.source[st.current + 1..quote]);
      ScanTokenSpec(st) ==
        Scanned(ScanState(st.source, st.current, quote + 1, line), Token(Error, 0, 21, line))
  {
    DispatchAtTokenStart(st);
    StringCharIsUnexpected(st.(start := st.current, current := st.current + 1), quote);
  }

  /** The dispatch on a consumed '"' whose closing quote is at `quote`. */
  lemma StringCharIsUnexpected(st: ScanState, quote: nat)
    requires st.start <= st.current <= quote < |st.source| && st.source[quote] == '"'
    requires forall k :: st.current <= k < quote ==> st.source[k] != '"'
    ensures var st' := st.(current := quote + 1, line := st.line + Newlines(st.source[st.current..quote]));
      ScanCharSpec(st, '"') == Scanned(st', ErrorToken(st', UnexpectedCharacter))
  {
    ScanWhileStopsAt(st.source, st.current, quote, NotQuote);
  }

  /** A string literal with no closing quote makes `scan_token` panic. */
  lemma UnterminatedStringPanics(st: ScanState)
    requires st.current < |st.source| && st.source[st.current] == '"'
    requires forall k :: st.current < k < |st.source| ==> st.source[k] != '"'
    ensures ScanTokenSpec(st) == Panicked
  {
    AtTokenStartIsNotSkipped(st);
  }

  /**
   * An identifier is scanned exactly when some char that is not a letter, digit or '_'
   * follows it; otherwise `peek().unwrap()` panics at the end of the source.
   */
  lemma IdentifierNeedsTerminator(st: ScanState)
    requires st.current < |st.source| && IsAlpha(st.source[st.current])
    ensures ScanTokenSpec(st).Panicked? <==>
      forall k :: st.current <= k < |st.source| ==> IsIdentifierChar(st.source[k])
  {
    AtTokenStartIsNotSkipped(st);
    var r := ScanWhile(st.source, st.current + 1, IdentifierChars);
    if r.Some? {
      assert !IsIdentifierChar(st.source[r.value]);
    }
  }

  /**
   * A number is scanned unless one of its digit loops runs into the end of the source,
   * where `peek().unwrap()` panics: the integer digits reach the end, or a fraction is
   * taken ('.' follows and the source's second char is a digit) and its digits reach the
   * end.
   */
  lemma NumberNeedsTerminator(st: ScanState)
    requires st.current < |st.source| && IsDigit(st.source[st.current])
    ensures var s := st.source;
      ScanTokenSpec(st).Panicked? <==>
        (forall k :: st.current <= k < |s| ==> IsDigit(s[k])) ||
        (ScanWhile(s, st.current, Digits).Some? &&
         var intEnd := ScanWhile(s, st.current, Digits).value;
         s[intEnd] == '.' && IsDigit(s[1]) && forall k :: intEnd < k < |s| ==> IsDigit(s[k]))
  {
    var s := st.source;
    AtTokenStartIsNotSkipped(st);
    var st2 := st.(start := st.current, current := st.current + 1);
    assert ScanTokenSpec(st) == ScanNumberSpec(st2);
    assert ScanWhile(s, st.current, Digits) == ScanWhile(s, st2.current, Digits);
    NumberPanics(st2);
  }

  /** When `number` panics, from the cursor after the first digit. */
  lemma NumberPanics(st: ScanState)
    requires st.start < st.current <= |st.source|
    ensures var s := st.source;
      ScanNumberSpec(st).Panicked? <==>
        (forall k :: st.current <= k < |s| ==> IsDigit(s[k])) ||
        (ScanWhile(s, st.current, Digits).Some? &&
         var intEnd := ScanWhile(s, st.current, Digits).value;
         s[intEnd] == '.' && IsDigit(s[1]) && forall k :: intEnd < k < |s| ==> IsDigit(s[k]))
  {
    var s := st.source;
    match ScanWhile(s, st.current, Digits)
    case None =>
    case Some(intEnd) =>
      assert !IsDigit(s[intEnd]);
      if s[intEnd] == '.' && IsDigit(s[1]) {
        match ScanWhile(s, intEnd + 1, Digits)
        case None =>
        case Some(fractionEnd) => assert !IsDigit(s[fractionEnd]);
      }
  }

  /** An identifier or keyword token: its type is the keyword lookup of its lexeme, `while` excepted. */
  lemma IdentifierTokens(st: ScanState)
    requires st.current < |st.source| && IsAlpha(st.source[st.current]) && ScanTokenSpec(st).Scanned?
    ensures var r := ScanTokenSpec(st);
      var lexeme := Lexeme(r.state);
      r.state.start == st.current && r.token == MakeToken(r.state, r.token.tokenType) &&
      (forall k :: 0 <= k < |lexeme| ==> IsIdentifierChar(lexeme[k])) &&
      !IsIdentifierChar(st.source[r.state.current]) &&
      r.token.tokenType == if lexeme == "while" then Identifier else KeywordType(lexeme)
  {
    DispatchAtTokenStart(st);
    var st2 := st.(start := st.current, current := st.current + 1);
    var r := ScanTokenSpec(st);
    IdentifierTypeIsKeywordLookup(r.state);
  }

  /**
   * A number token: a maximal run of digits, followed by '.' and a second maximal run of
   * digits only when the char after the first run is '.' and the source's second char is
   * a digit.
   */
  lemma NumberTokens(st: ScanState)
    requires st.current < |st.source| && IsDigit(st.source[st.current]) && ScanTokenSpec(st).Scanned?
    ensures var r := ScanTokenSpec(st);
      var s := st.source;
      var intEnd := ScanWhile(s, st.current, Digits).value;
      var fraction := s[intEnd] == '.' && IsDigit(s[1]);
      r.token == MakeToken(r.state, Number) && r.state.start == st.current &&
      (forall k :: st.current <= k < intEnd ==> IsDigit(s[k])) && !IsDigit(s[intEnd]) &&
      (!fraction ==> r.state.current == intEnd) &&
      (fraction ==> intEnd < r.state.current < |s| && !IsDigit(s[r.state.current]) &&
                    forall k :: intEnd < k < r.state.current ==> IsDigit(s[k]))
  {
    AtTokenStartIsNotSkipped(st);
    assert ScanWhile(st.source, st.current, Digits) == ScanWhile(st.source, st.current + 1, Digits);
  }

  // ---------------------------------------------------------------------------------
  // Concrete consequences of peek_next reading index 1

  /** In `a //b` followed by a newline the `//` is not a comment: the first '/' comes back as an error. */
  lemma CommentAfterFirstCharsIsNotSkipped()
    ensures ScanTokenSpec(ScanState("a //b\n", 0, 1, 1)) ==
      Scanned(ScanState("a //b\n", 2, 3, 1), Token(Error, 0, 21, 1))
  {
    var st := ScanState("a //b\n", 0, 1, 1);
    assert SkipWhitespaceSpec(st) == SkipWhitespaceSpec(st.(current := 2));
  }

  /**
   * When the source's second char is '/', every '/' under the cursor starts a comment,
   * whatever follows it: the skip goes on from the next newline with `line` unchanged.
   */
  lemma SlashAfterLeadingCommentSwallowsLine(st: ScanState, lineEnd: nat)
    requires st.current < lineEnd < |st.source| && st.source[st.current] == '/' && st.source[1] == '/'
    requires st.source[lineEnd] == '\n' && forall k :: st.current <= k < lineEnd ==> st.source[k] != '\n'
    ensures SkipWhitespaceSpec(st) == SkipWhitespaceSpec(st.(current := lineEnd))
  {
    assert ScanWhile(st.source, st.current, NotNewline) == Some(lineEnd);
  }

  /**
   * For example, after the `1` of `//` newline `1/2` newline, the `/2` is skipped as a
   * comment and the next token is Eof.
   */
  lemma LeadingCommentSwallowsDivision()
    ensures ScanTokenSpec(ScanState("//\n1/2\n", 3, 4, 2)) ==
      Scanned(ScanState("//\n1/2\n", 7, 7, 3), Token(Eof, 7, 0, 3))
  {
    var st := ScanState("//\n1/2\n", 3, 4, 2);
    assert ScanWhile(st.source, 4, NotNewline) == Some(6);
    assert SkipWhitespaceSpec(st.(current := 6)) == Some(ScanState(st.source, 3, 7, 3));
  }

  // ---------------------------------------------------------------------------------
  // The scanner object

  class Scanner {
    var source: string
    var start: nat
    var current: nat
    var line: nat

    /** The fields as a value. */
    function State(): ScanState
      reads this
    {
      ScanState(source, start, current, line)
    }

    /** `Scanner::new`: an empty source, the cursor at 0, line 1. */
    constructor ()
      ensures State() == ScanState("", 0, 0, 1)
    {
      source := "";
      start := 0;
      current := 0;
      line := 1;
    }

    /** `set_source`: replaces the source and keeps `start`, `current` and `line`. */
    method SetSource(source: string)
      modifies this
      ensures State() == old(State()).(source := source)
    {
      this.source := source;
    }

    /** `advance`: moves `current` on and returns the char it was on, if any. */
    method Advance() returns (c: Option<char>)
      modifies this
      ensures source == old(source) && start == old(start) && line == old(line)
      ensures current == old(current) + 1
      ensures c == Nth(source, old(current))
    {
      current := current + 1;
      c := Nth(source, current - 1);
    }

    /**
     * `match_char`: consumes `expected` if it is under the cursor. A cursor past the end
     * makes its `unwrap()` panic, hence the precondition.
     */
    method MatchChar(expected: char) returns (matched: bool)
      requires current <= |source|
      modifies this
      ensures matched == Matches(old(State()), expected)
      ensures State() == old(State()).(current := if matched then old(current) + 1 else old(current))
    {
      if IsAtEnd(State()) {
        return false;
      }
      if Nth(source, current).value != expected {
        return false;
      }
      current := current + 1;
      return true;
    }

    /** `skip_whitespace`. */
    method SkipWhitespace()
      requires SkipWhitespaceSpec(State()).Some?
      modifies this
      ensures State() == SkipWhitespaceSpec(old(State())).value
    {
      while true
        invariant SkipWhitespaceSpec(State()) == SkipWhitespaceSpec(old(State()))
        decreases |source| - current
      {
        var c := Peek(State());
        match c {
          case Some(' ') | Some('\r') | Some('\t') =>
            var _ := Advance();
          case Some('\n') =>
            line := line + 1;
            var _ := Advance();
          case Some('/') =>
            if PeekNext(State()).value == '/' {
              ghost var before := State();
              AdvanceToNewline();
              assert State() == before.(current := ScanWhile(before.source, before.current, NotNewline).value);
            } else {
              return;
            }
          case _ =>
            break;
        }
      }
    }

    /** The loop of `skip_whitespace` that steps over a comment up to the newline ending it. */
    method AdvanceToNewline()
      requires ScanWhile(source, current, NotNewline).Some?
      modifies this
      ensures State() == old(State()).(current := ScanWhile(old(source), old(current), NotNewline).value)
    {
      ghost var lineEnd := ScanWhile(source, current, NotNewline).value;
      while Peek(State()).value != '\n' && !IsAtEnd(State())
        invariant State() == old(State()).(current := current)
        invariant current <= lineEnd && ScanWhile(source, current, NotNewline) == Some(lineEnd)
        decreases lineEnd - current
      {
        ScanWhileStep(source, current, NotNewline);
        var _ := Advance();
      }
    }

    /**
     * The loop `while keep(peek().unwrap()) { advance() }` that `identifier` and `number`
     * run: it stops on the first char that is not kept.
     */
    method AdvanceWhile(keep: CharClass)
      requires ScanWhile(source, current, keep).Some?
      modifies this
      ensures State() == old(State()).(current := ScanWhile(old(source), old(current), keep).value)
    {
      ghost var end := ScanWhile(source, current, keep).value;
      while Keeps(keep, Peek(State()).value)
        invariant State() == old(State()).(current := current)
        invariant old(current) <= current <= end && ScanWhile(source, current, keep) == Some(end)
        decreases |source| - current
      {
        ScanWhileStep(source, current, keep);
        var _ := Advance();
      }
    }

    /** `identifier`. */
    method ScanIdentifier() returns (t: Token)
      requires start <= current && ScanIdentifierSpec(State()).Scanned?
      modifies this
      ensures Scanned(State(), t) == ScanIdentifierSpec(old(State()))
    {
      AdvanceWhile(IdentifierChars);
      t := MakeToken(State(), IdentifierType(State()));
    }

    /** `number`. */
    method ScanNumber() returns (t: Token)
      requires start <= current && ScanNumberSpec(State()).Scanned?
      modifies this
      ensures Scanned(State(), t) == ScanNumberSpec(old(State()))
    {
      AdvanceWhile(Digits);
      ghost var atDot := State();
      assert ScanNumberSpec(old(State())) == ScanFractionSpec(atDot);
      if Peek(State()).value == '.' && IsDigit(PeekNext(State()).value) {
        var _ := Advance();
        AdvanceWhile(Digits);
      }
      t := MakeToken(State(), Number);
    }

    /**
     * The loop of `string`: steps up to the closing quote, adding a line for every '\n'
     * it steps over.
     */
    method AdvanceToQuote()
      requires current <= |source| && ScanWhile(source, current, NotQuote).Some?
      modifies this
      ensures var quote := ScanWhile(old(source), old(current), NotQuote).value;
        State() == old(State()).(current := quote, line := old(line) + Newlines(old(source)[old(current)..quote]))
    {
      ghost var s, from := source, current;
      ghost var quote := ScanWhile(s, from, NotQuote).value;
      while Peek(State()).value != '"' && !IsAtEnd(State())
        invariant source == s && start == old(start)
        invariant from <= current <= quote && ScanWhile(s, current, NotQuote) == Some(quote)
        invariant line == old(line) + Newlines(s[from..current])
        decreases |s| - current
      {
        ghost var i := current;
        assert Peek(State()) == Some(s[i]);
        NewlinesStep(s, from, i);
        ScanWhileStep(s, i, NotQuote);
        if Peek(State()).value == '\n' {
          line := line + 1;
        }
        var _ := Advance();
        assert current == i + 1 && ScanWhile(s, current, NotQuote) == Some(quote);
      }
      assert current == quote;
    }

    /** `string`. */
    method ScanString() returns (t: Token)
      requires start <= current <= |source| && ScanStringSpec(State()).Scanned?
      modifies this
      ensures Scanned(State(), t) == ScanStringSpec(old(State()))
    {
      ghost var before := State();
      ghost var quote := ScanWhile(source, current, NotQuote).value;
      AdvanceToQuote();
      ghost var atQuote := State();
      assert atQuote == before.(current := quote, line := before.line + Newlines(before.source[before.current..quote]));
      if IsAtEnd(State()) {
        return ErrorToken(State(), UnterminatedString);
      }
      // The closing quote.
      var _ := Advance();
      t := MakeToken(State(), String);
      assert State() == atQuote.(current := quote + 1);
    }

    /** `scan_token`. */
    method ScanToken() returns (t: Token)
      requires ScanTokenSpec(State()).Scanned?
      modifies this
      ensures Scanned(State(), t) == ScanTokenSpec(old(State()))
    {
      ghost var before := State();
      SkipWhitespace();
      start := current;
      ghost var lexemeStart := State();
      assert lexemeStart == SkipWhitespaceSpec(before).value.(start := current);
      assert ScanTokenSpec(before) == ScanLexemeSpec(lexemeStart);
      if IsAtEnd(State()) {
        return MakeToken(State(), Eof);
      }
      var c := Advance();
      assert State() == lexemeStart.(current := lexemeStart.current + 1);
      assert c == Some(lexemeStart.source[lexemeStart.current]);
      assert ScanLexemeSpec(lexemeStart) == ScanCharSpec(State(), c.value);
      t := ScanChar(c.value);
    }

    /** The match of `scan_token` on the char `c` it has just consumed. */
    method ScanChar(c: char) returns (t: Token)
      requires start <= current <= |source| && ScanCharSpec(State(), c).Scanned?
      modifies this
      ensures Scanned(State(), t) == ScanCharSpec(old(State()), c)
    {
      if IsAlpha(c) {
        t := ScanIdentifier();
        return;
      }
      if IsDigit(c) {
        t := ScanNumber();
        return;
      }
      // The tokens built in this match are discarded, as in the source.
      var discarded: Token;
      match c {
        case '(' => discarded := MakeToken(State(), LeftParen);
        case ')' => discarded := MakeToken(State(), RightParen);
        case '{' => discarded := MakeToken(State(), LeftBrace);
        case '}' => discarded := MakeToken(State(), RightBrace);
        case ';' => discarded := MakeToken(State(), Semicolon);
        case ',' => discarded := MakeToken(State(), Comma);
        case '.' => discarded := MakeToken(State(), Dot);
        case '-' => discarded := MakeToken(State(), Minus);
        case '+' => discarded := MakeToken(State(), Plus);
        case '/' => discarded := MakeToken(State(), Slash);
        case '*' => discarded := MakeToken(State(), Star);
        case '!' => t := ScanOperator(GreaterEqual, Greater); return;
        case '=' => t := ScanOperator(EqualEqual, Equal); return;
        case '<' => t := ScanOperator(LessEqual, Less); return;
        case '>' => t := ScanOperator(GreaterEqual, Greater); return;
        case '"' => discarded := ScanString();
        case _ => return ErrorToken(State(), UnexpectedCharacter);
      }
      t := ErrorToken(State(), UnexpectedCharacter);
    }

    /** A branch of `scan_token` for `!`, `=`, `<` or `>`: `match_char('=')` picks the token. */
    method ScanOperator(twoChar: TokenType, oneChar: TokenType) returns (t: Token)
      requires start <= current <= |source|
      modifies this
      ensures Scanned(State(), t) == OperatorSpec(old(State()), twoChar, oneChar)
    {
      ghost var before := State();
      var equal := MatchChar('=');
      t := MakeToken(State(), if equal then twoChar else oneChar);
      assert equal == Matches(before, '=');
      assert State() == OperatorSpec(before, twoChar, oneChar).state;
    }

  }
}
