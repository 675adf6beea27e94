/** The lexical scanner (src/scanner.rs): a cursor over the source text that
    yields one classified token per call. Text is a sequence of characters
    and every position is a character index. */
module Scanning {
  import opened Common

  /** The closed set of token kinds. */
  datatype TokenType =
      // Single-character tokens.
    | TokenLeftParen | TokenRightParen | TokenLeftBrace | TokenRightBrace
    | TokenComma | TokenDot | TokenMinus | TokenPlus
    | TokenSemicolon | TokenSlash | TokenStar
      // One or two character tokens.
    | TokenBang | TokenBangEqual | TokenEqual | TokenEqualEqual
    | TokenGreater | TokenGreaterEqual | TokenLess | TokenLessEqual
      // Literals.
    | TokenIdentifier | TokenString | TokenNumber
      // Keywords.
    | TokenAnd | TokenClass | TokenElse | TokenFalse | TokenFor | TokenFun
    | TokenIf | TokenNil | TokenOr | TokenPrint | TokenReturn | TokenSuper
    | TokenThis | TokenTrue | TokenVar | TokenWhile
      // Signals.
    | TokenError | TokenEOF

  /** A token: its kind, its span in the source (start and length, never a
      copy of the text), its line, and a message for error tokens only. */
  datatype Token = Token(ttype: TokenType, start: nat, length: nat, line: int, message: Option<string>)

  /** The scanner's position: start of the current lexeme, the next
      character to read, and the current line. */
  datatype Cursor = Cursor(start: nat, current: nat, line: int)

  /** What one `scan_token` call gives: a token and the new position, or
      a panic (only `peek_next` can panic). */
  datatype Scan = Scanned(token: Token, next: Cursor) | Panicked(message: string)

  /** The message of the panic in `peek_next`. */
  const PeekNextPanic: string := "No char at scanner.current + 1"

  /** The messages of the scanner's two error tokens. */
  const UnterminatedString: string := "Unterminated string."
  const UnexpectedCharacterMessage: string := "Unexpected character."

  /** `Token::new`: a token spanning the current lexeme. */
  function MakeToken(ttype: TokenType, c: Cursor): (t: Token)
    requires c.start <= c.current
    ensures t.start == c.start && t.start + t.length == c.current && t.line == c.line
    ensures t.message.None?
  {
    Token(ttype, c.start, c.current - c.start, c.line, None)
  }

  /** `Token::new_error`: an error token spanning the current lexeme. */
  function ErrorToken(message: string, c: Cursor): (t: Token)
    requires c.start <= c.current
    ensures t.ttype == TokenError && t.message == Some(message)
    ensures t.start == c.start && t.start + t.length == c.current && t.line == c.line
  {
    Token(TokenError, c.start, c.current - c.start, c.line, Some(message))
  }

  /** `is_at_end`: no character at position `i`. */
  predicate IsAtEnd(src: string, i: nat)
  {
    i >= |src|
  }

  /** `peek`: the character at `i`, or NUL past the end. */
  function Peek(src: string, i: nat): (ch: char)
    ensures ch != '\0' ==> i < |src| && ch == src[i]
  {
    if i < |src| then src[i] else '\0'
  }

  /** `peek_next`: NUL at the end of input, else the character after `i`;
      `None` stands for its panic, which happens exactly when `i` is the
      last character. */
  function PeekNext(src: string, i: nat): (r: Option<char>)
    ensures r.None? <==> i + 1 == |src|
    ensures r.Some? && i + 1 < |src| ==> r.value == src[i + 1]
  {
    if IsAtEnd(src, i) then Some('\0')
    else if i + 1 < |src| then Some(src[i + 1])
    else None
  }

  /** `is_digit`. */
  predicate IsDigit(ch: char)
  {
    '0' <= ch <= '9'
  }

  /** `is_alpha`: an ASCII letter or underscore. */
  predicate IsAlpha(ch: char)
  {
    'a' <= ch <= 'z' || 'A' <= ch <= 'Z' || ch == '_'
  }

  /** The character classes the scanner's inner loops run over. */
  datatype Run = Digits | IdentifierChars | UntilNewline | UntilQuote

  predicate Continues(run: Run, ch: char)
  {
    match run
    case Digits => IsDigit(ch)
    case IdentifierChars => IsAlpha(ch) || IsDigit(ch)
    case UntilNewline => ch != '\n'
    case UntilQuote => ch != '"'
  }

  /** Where a loop that advances while the next character belongs to `run`
      stops: the end of the maximal run starting at `i`. */
  function RunEnd(src: string, i: nat, run: Run): (j: nat)
    requires i <= |src|
    ensures i <= j <= |src|
    ensures j == |src| || !Continues(run, src[j])
    decreases |src| - i
  {
    if i < |src| && Continues(run, src[i]) then RunEnd(src, i + 1, run) else i
  }

  /** Every character the loop passed over belongs to `run`, so the run
      that ends at `RunEnd` is maximal. */
  lemma {:induction false} RunEndCovers(src: string, i: nat, run: Run)
    requires i <= |src|
    ensures forall k :: i <= k < RunEnd(src, i, run) ==> Continues(run, src[k])
    decreases |src| - i
  {
    if i < |src| && Continues(run, src[i]) {
      RunEndCovers(src, i + 1, run);
    }
  }

  /** The number of newline characters at positions `lo` to `hi - 1`. */
  function NewlineCount(s: string, lo: nat, hi: nat): (n: nat)
    requires lo <= hi <= |s|
    ensures n <= hi - lo
    decreases hi - lo
  {
    if lo == hi then 0
    else NewlineCount(s, lo, hi - 1) + (if s[hi - 1] == '\n' then 1 else 0)
  }

  /** The characters `skip_whitespace` consumes one of: blanks and the
      newline. */
  predicate IsBlank(ch: char)
  {
    ch == ' ' || ch == '\r' || ch == '\t' || ch == '\n'
  }

  /** A `//` at position `i`. */
  predicate IsCommentStart(src: string, i: nat)
  {
    i + 1 < |src| && src[i] == '/' && src[i + 1] == '/'
  }

  /** `skip_whitespace`. Every arm of the source's `loop` leaves it on the
      first pass, so one call consumes at most one blank, one newline
      (counting the line) or one `//` comment up to its newline. A `/` that
      is the last character makes `peek_next` panic: `None`. */
  function SkippedWhitespace(src: string, c: Cursor): (r: Option<Cursor>)
    requires c.current <= |src|
    ensures r.None? <==> Peek(src, c.current) == '/' && c.current + 1 == |src|
    ensures r.Some? ==> r.value.start == c.start && c.current <= r.value.current <= |src|
    ensures r.Some? ==> r.value.line == c.line + (if Peek(src, c.current) == '\n' then 1 else 0)
    ensures IsBlank(Peek(src, c.current)) ==> r.Some? && r.value.current == c.current + 1
    ensures IsCommentStart(src, c.current) ==>
              r.Some? && (r.value.current == |src| || src[r.value.current] == '\n')
    ensures !IsBlank(Peek(src, c.current)) && !IsCommentStart(src, c.current) && r.Some? ==> r == Some(c)
  {
    match Peek(src, c.current)
    case ' ' => Some(c.(current := c.current + 1))
    case '\r' => Some(c.(current := c.current + 1))
    case '\t' => Some(c.(current := c.current + 1))
    case '\n' => Some(c.(line := c.line + 1, current := c.current + 1))
    case '/' =>
      if PeekNext(src, c.current).None? then None
      else if PeekNext(src, c.current).value == '/' then Some(c.(current := RunEnd(src, c.current, UntilNewline)))
      else Some(c)
    case _ => Some(c)
  }

  /** A `//` comment is skipped up to its newline and no further: every
      character it passes is on the comment's line, and it stops at the
      newline or at the end of the text. */
  lemma CommentSkipped(src: string, c: Cursor)
    requires c.current <= |src| && IsCommentStart(src, c.current)
    ensures var r := SkippedWhitespace(src, c);
      && r.Some? && r.value.line == c.line
      && (r.value.current == |src| || src[r.value.current] == '\n')
      && forall k :: c.current <= k < r.value.current ==> src[k] != '\n'
  {
    RunEndCovers(src, c.current, UntilNewline);
  }

  /** Whether the next character is `expected` (`match_current`). */
  predicate Matches(src: string, i: nat, expected: char)
  {
    !IsAtEnd(src, i) && src[i] == expected
  }

  /** A scan that, unless it panicked, gives a token spanning exactly from
      the lexeme's start `c.start` to the new position, on the new line,
      without moving backwards or past the end of the text. */
  predicate Spans(src: string, c: Cursor, r: Scan)
  {
    r.Scanned? ==>
      && r.next.start == c.start && c.current <= r.next.current <= |src|
      && r.token.start == c.start && r.token.length == r.next.current - c.start
      && r.token.line == r.next.line && r.next.line >= c.line
  }

  /** The one-or-two character operators: consume a following `=` and give
      the two-character kind, else give the one-character kind. */
  function OperatorToken(src: string, c: Cursor, two: TokenType, one: TokenType): (r: Scan)
    requires c.start <= c.current <= |src|
    ensures r.Scanned? && Spans(src, c, r)
    ensures r.token.ttype == (if Matches(src, c.current, '=') then two else one)
  {
    if Matches(src, c.current, '=') then
      var c' := c.(current := c.current + 1);
      Scanned(MakeToken(two, c'), c')
    else Scanned(MakeToken(one, c), c)
  }

  /** `string`, called after the opening quote: run to the next quote,
      counting lines; without one the token is an error to end of input. */
  function StringToken(src: string, c: Cursor): (r: Scan)
    requires c.start < c.current <= |src|
    ensures r.Scanned? && Spans(src, c, r)
    ensures r.token.ttype == TokenError || r.token.ttype == TokenString
    ensures r.token.ttype == TokenError ==>
              r.token.message == Some(UnterminatedString) && r.next.current == |src|
    ensures r.token.ttype == TokenString ==> c.current < r.next.current && src[r.next.current - 1] == '"'
  {
    var j := RunEnd(src, c.current, UntilQuote);
    var c1 := c.(current := j, line := c.line + NewlineCount(src, c.current, j));
    if IsAtEnd(src, j) then Scanned(ErrorToken(UnterminatedString, c1), c1)
    else
      var c2 := c1.(current := j + 1);
      Scanned(MakeToken(TokenString, c2), c2)
  }

  /** A string token ends at the first `"` after the opening one, and is
      an "Unterminated string." error exactly when there is none; either
      way the line advances by the newlines it passed. */
  lemma StringTokenContents(src: string, c: Cursor)
    requires c.start < c.current <= |src|
    ensures var r := StringToken(src, c);
      && (r.token.ttype == TokenError <==> forall k :: c.current <= k < |src| ==> src[k] != '"')
      && (r.token.ttype == TokenError ==> r.next.line == c.line + NewlineCount(src, c.current, |src|))
      && (r.token.ttype == TokenString ==>
            && (forall k :: c.current <= k < r.next.current - 1 ==> src[k] != '"')
            && r.next.line == c.line + NewlineCount(src, c.current, r.next.current - 1))
  {
    RunEndCovers(src, c.current, UntilQuote);
  }

  /** `StringToken` in terms of where the scan for the closing quote stops. */
  lemma StringTokenStop(src: string, c: Cursor, stop: Cursor)
    requires c.start < c.current <= |src|
    requires stop.start == c.start && stop.current == RunEnd(src, c.current, UntilQuote)
    requires stop.line == c.line + NewlineCount(src, c.current, stop.current)
    ensures stop.current == |src| ==> StringToken(src, c) == Scanned(ErrorToken(UnterminatedString, stop), stop)
    ensures stop.current < |src| ==>
              var c2 := stop.(current := stop.current + 1);
              StringToken(src, c) == Scanned(MakeToken(TokenString, c2), c2)
  {
    var c1 := c.(current := stop.current, line := stop.line);
    assert c1 == stop;
    if stop.current == |src| {
      assert StringToken(src, c) == Scanned(ErrorToken(UnterminatedString, c1), c1);
    } else {
      assert StringToken(src, c) == Scanned(MakeToken(TokenString, c1.(current := stop.current + 1)), c1.(current := stop.current + 1));
    }
  }

  /** `check_keyword` as written: it collects up to `length` characters
      starting `start` characters after `current` (not after the lexeme's
      start) and matches only if that text has `start + length` characters
      and equals `rest`. Having at most `length` characters, it never has
      `start + length` when `start` is positive. */
  function CheckKeyword(src: string, current: nat, start: nat, length: nat, rest: string, ttype: TokenType): (r: TokenType)
    ensures r == ttype || r == TokenIdentifier
    ensures start > 0 ==> r == TokenIdentifier
  {
    var from := if current + start <= |src| then current + start else |src|;
    var to := if from + length <= |src| then from + length else |src|;
    var literal := src[from..to];
    if |literal| == start + length && literal == rest then ttype else TokenIdentifier
  }

  /** `identifier_type`: the keyword trie on the lexeme's first one or two
      characters. Every leaf calls `check_keyword` with `start` 1 or 2, so
      no keyword kind is ever produced. */
  function IdentifierType(src: string, start: nat, current: nat): (r: TokenType)
    requires start < current <= |src|
    ensures r == TokenIdentifier
  {
    match src[start]
    case 'a' => CheckKeyword(src, current, 1, 2, "nd", TokenAnd)
    case 'c' => CheckKeyword(src, current, 1, 4, "lass", TokenClass)
    case 'e' => CheckKeyword(src, current, 1, 3, "lse", TokenElse)
    case 'f' =>
      if current - start > 1 then
        (match src[start + 1]
         case 'a' => CheckKeyword(src, current, 2, 3, "lse", TokenFalse)
         case 'o' => CheckKeyword(src, current, 2, 1, "r", TokenFor)
         case 'u' => CheckKeyword(src, current, 2, 1, "n", TokenFun)
         case _ => TokenIdentifier)
      else TokenIdentifier
    case 'i' => CheckKeyword(src, current, 1, 1, "f", TokenIf)
    case 'n' => CheckKeyword(src, current, 1, 2, "il", TokenNil)
    case 'o' => CheckKeyword(src, current, 1, 1, "r", TokenOr)
    case 'p' => CheckKeyword(src, current, 1, 4, "rint", TokenPrint)
    case 'r' => CheckKeyword(src, current, 1, 5, "eturn", TokenReturn)
    case 's' => CheckKeyword(src, current, 1, 4, "uper", TokenSuper)
    case 't' =>
      if current - start > 1 then
        (match src[start + 1]
         case 'h' => CheckKeyword(src, current, 2, 2, "is", TokenThis)
         case 'r' => CheckKeyword(src, current, 2, 1, "ue", TokenTrue)
         case _ => TokenIdentifier)
      else TokenIdentifier
    case 'v' => CheckKeyword(src, current, 1, 2, "ar", TokenVar)
    case 'w' => CheckKeyword(src, current, 1, 4, "hile", TokenWhile)
    case _ => TokenIdentifier
  }

  /** `identifier`, called after a letter or underscore: extend over the
      maximal run of letters, digits and underscores. */
  function IdentifierToken(src: string, c: Cursor): (r: Scan)
    requires c.start < c.current <= |src|
    ensures r.Scanned? && r.next.start == c.start && r.next.line == c.line
    ensures r.token.ttype == TokenIdentifier
    ensures Spans(src, c, r)
    ensures r.next.current == |src| || !(IsAlpha(src[r.next.current]) || IsDigit(src[r.next.current]))
  {
    var c1 := c.(current := RunEnd(src, c.current, IdentifierChars));
    Scanned(MakeToken(IdentifierType(src, c1.start, c1.current), c1), c1)
  }

  /** An identifier token covers only letters, digits and underscores. */
  lemma IdentifierIsWord(src: string, c: Cursor)
    requires c.start + 1 == c.current <= |src| && IsAlpha(src[c.start])
    ensures var r := IdentifierToken(src, c);
      forall k :: c.start <= k < r.next.current ==> IsAlpha(src[k]) || IsDigit(src[k])
  {
    RunEndCovers(src, c.current, IdentifierChars);
  }

  /** `number`, called after a digit: the maximal digit run, then a `.`
      and a further digit run only when a digit follows the `.`. A `.`
      that is the last character makes `peek_next` panic. */
  function NumberToken(src: string, c: Cursor): (r: Scan)
    requires c.start < c.current <= |src|
    ensures var j := RunEnd(src, c.current, Digits);
      r.Panicked? <==> j + 1 == |src| && src[j] == '.'
    ensures r.Scanned? ==>
              && r.token.ttype == TokenNumber && r.next.start == c.start && r.next.line == c.line
    ensures Spans(src, c, r)
  {
    var j := RunEnd(src, c.current, Digits);
    if Peek(src, j) == '.' then
      var after := PeekNext(src, j);
      if after.None? then Panicked(PeekNextPanic)
      else if IsDigit(after.value) then
        var c1 := c.(current := RunEnd(src, j + 1, Digits));
        Scanned(MakeToken(TokenNumber, c1), c1)
      else
        var c1 := c.(current := j);
        Scanned(MakeToken(TokenNumber, c1), c1)
    else
      var c1 := c.(current := j);
      Scanned(MakeToken(TokenNumber, c1), c1)
  }

  /** `scan_token` after `start = current`: the end-of-input token, or
      classify the character just read. */
  function LexemeToken(src: string, c: Cursor): (r: Scan)
    requires c.start == c.current <= |src|
    ensures Spans(src, c, r)
    ensures r.Scanned? && r.token.ttype != TokenEOF ==> r.next.current > c.current
    ensures r.Scanned? && r.token.ttype == TokenEOF ==> r.next.current == |src| && r.token.length == 0
  {
    if IsAtEnd(src, c.current) then Scanned(MakeToken(TokenEOF, c), c)
    else
      var ch := src[c.current];
      var c1 := c.(current := c.current + 1);
      if IsAlpha(ch) then IdentifierToken(src, c1)
      else if IsDigit(ch) then NumberToken(src, c1)
      else PunctuationToken(src, c1, ch)
  }

  /** The arm of `scan_token` for a character `ch`, just read, that starts
      neither an identifier nor a number. */
  function PunctuationToken(src: string, c1: Cursor, ch: char): (r: Scan)
    requires c1.start < c1.current <= |src|
    ensures r.Scanned? && r.token.ttype != TokenEOF && Spans(src, c1, r)
  {
    match ch
    case '(' => Scanned(MakeToken(TokenLeftParen, c1), c1)
    case ')' => Scanned(MakeToken(TokenRightParen, c1), c1)
    case '{' => Scanned(MakeToken(TokenLeftBrace, c1), c1)
    case '}' => Scanned(MakeToken(TokenRightBrace, c1), c1)
    case ';' => Scanned(MakeToken(TokenSemicolon, c1), c1)
    case ',' => Scanned(MakeToken(TokenComma, c1), c1)
    case '.' => Scanned(MakeToken(TokenDot, c1), c1)
    case '-' => Scanned(MakeToken(TokenMinus, c1), c1)
    case '+' => Scanned(MakeToken(TokenPlus, c1), c1)
    case '/' => Scanned(MakeToken(TokenSlash, c1), c1)
    case '*' => Scanned(MakeToken(TokenStar, c1), c1)
    case '!' => OperatorToken(src, c1, TokenBangEqual, TokenBang)
    case '=' => OperatorToken(src, c1, TokenEqualEqual, TokenEqual)
    case '<' => OperatorToken(src, c1, TokenLessEqual, TokenLess)
    case '>' => OperatorToken(src, c1, TokenGreaterEqual, TokenGreater)
    case '"' => StringToken(src, c1)
    case _ => Scanned(ErrorToken(UnexpectedCharacterMessage, c1), c1)
  }

  /** The case split of `LexemeToken` on a character that is there. */
  lemma LexemeTokenCases(src: string, c: Cursor)
    requires c.start == c.current < |src|
    ensures var ch := src[c.current];
      var c1 := c.(current := c.current + 1);
      LexemeToken(src, c)
      == if IsAlpha(ch) then IdentifierToken(src, c1)
         else if IsDigit(ch) then NumberToken(src, c1)
         else PunctuationToken(src, c1, ch)
  {
  }

  /** `scan_token`: skip at most one blank or comment, then scan one token.
      A token spans exactly from the new `start` to the new `current`, both
      within the text; every token but end-of-input consumes at least one
      character; end-of-input is empty and leaves the cursor at the end. */
  function NextToken(src: string, c: Cursor): (r: Scan)
    requires c.current <= |src|
    ensures r.Scanned? ==>
              && c.current <= r.next.start <= r.next.current <= |src|
              && r.token.start == r.next.start
              && r.token.length == r.next.current - r.next.start
              && r.token.line == r.next.line
              && r.next.line >= c.line
    ensures r.Scanned? && r.token.ttype != TokenEOF ==> r.next.current > c.current
    ensures r.Scanned? && r.token.ttype == TokenEOF ==> r.next.current == |src| && r.token.length == 0
  {
    match SkippedWhitespace(src, c)
    case None => Panicked(PeekNextPanic)
    case Some(c1) => LexemeToken(src, c1.(start := c1.current))
  }

  /** The token stream of a whole scan: every token up to and including
      end-of-input, or the panic that stopped it. */
  datatype TokenStream = Complete(tokens: seq<Token>) | Aborted(message: string)

  /** Calling `scan_token` until it returns end-of-input. Every call but the
      last consumes a character, so there are at most `|src| - current + 1`
      calls, and the last token is end-of-input. */
  function ScanAll(src: string, c: Cursor): (r: TokenStream)
    requires c.current <= |src|
    ensures r.Complete? ==>
              && 1 <= |r.tokens| <= |src| - c.current + 1
              && r.tokens[|r.tokens| - 1].ttype == TokenEOF
    decreases |src| - c.current
  {
    match NextToken(src, c)
    case Panicked(message) => Aborted(message)
    case Scanned(token, next) =>
      if token.ttype == TokenEOF then Complete([token])
      else
        match ScanAll(src, next)
        case Aborted(message) => Aborted(message)
        case Complete(rest) => Complete([token] + rest)
  }

  /** Only the last token of a complete scan is end-of-input, and every
      token's span lies within the text. */
  lemma {:induction false} ScanAllTokens(src: string, c: Cursor)
    requires c.current <= |src|
    ensures var r := ScanAll(src, c);
      r.Complete? ==>
        && (forall k :: 0 <= k < |r.tokens| - 1 ==> r.tokens[k].ttype != TokenEOF)
        && (forall k :: 0 <= k < |r.tokens| ==> r.tokens[k].start + r.tokens[k].length <= |src|)
    decreases |src| - c.current
  {
    match NextToken(src, c)
    case Panicked(_) =>
    case Scanned(token, next) =>
      if token.ttype != TokenEOF {
        ScanAllTokens(src, next);
      }
  }

  /** At the end of the text `scan_token` gives an empty end-of-input token
      and moves nothing but `start`; and once it has given end-of-input,
      every further call gives the same token from the same state. */
  lemma EofIsTerminal(src: string, c: Cursor)
    requires c.current <= |src|
    ensures c.current == |src| ==>
              NextToken(src, c) == Scanned(Token(TokenEOF, |src|, 0, c.line, None), c.(start := |src|))
    ensures var r := NextToken(src, c);
      r.Scanned? && r.token.ttype == TokenEOF ==> NextToken(src, r.next) == r
  {
  }

  /** `!`, `=`, `<` and `>` take a following `=` into a two-character
      token; otherwise they are one-character tokens. */
  lemma OperatorTokens(src: string, c: Cursor)
    requires c.start == c.current < |src|
    requires src[c.current] == '!' || src[c.current] == '=' || src[c.current] == '<' || src[c.current] == '>'
    ensures var r := LexemeToken(src, c);
      var two := c.current + 1 < |src| && src[c.current + 1] == '=';
      && r.Scanned?
      && r.token.length == (if two then 2 else 1)
      && r.next.current == c.current + r.token.length
      && (src[c.current] == '!' ==> r.token.ttype == if two then TokenBangEqual else TokenBang)
      && (src[c.current] == '=' ==> r.token.ttype == if two then TokenEqualEqual else TokenEqual)
      && (src[c.current] == '<' ==> r.token.ttype == if two then TokenLessEqual else TokenLess)
      && (src[c.current] == '>' ==> r.token.ttype == if two then TokenGreaterEqual else TokenGreater)
  {
  }

  /** The characters `scan_token`'s `match` gives a token kind of its own. */
  predicate IsPunctuation(ch: char)
  {
    || ch == '(' || ch == ')' || ch == '{' || ch == '}' || ch == ';' || ch == ','
    || ch == '.' || ch == '-' || ch == '+' || ch == '/' || ch == '*'
    || ch == '!' || ch == '=' || ch == '<' || ch == '>' || ch == '"'
  }

  /** Any character that starts no token gives a one-character error token
      "Unexpected character.". */
  lemma UnexpectedCharacter(src: string, c: Cursor)
    requires c.start == c.current < |src|
    requires !IsAlpha(src[c.current]) && !IsDigit(src[c.current]) && !IsPunctuation(src[c.current])
    ensures LexemeToken(src, c)
            == Scanned(Token(TokenError, c.current, 1, c.line, Some(UnexpectedCharacterMessage)), c.(current := c.current + 1))
  {
  }

  predicate AllDigits(s: string)
  {
    forall k :: 0 <= k < |s| ==> IsDigit(s[k])
  }

  /** A number literal: digits, optionally a `.` and more digits. */
  predicate IsNumberLexeme(s: string)
  {
    || (|s| > 0 && AllDigits(s))
    || (exists d :: 0 < d < |s| - 1 && s[d] == '.' && AllDigits(s[..d]) && AllDigits(s[d + 1..]))
  }

  /** A number token is a number literal that cannot be extended: no digit
      follows it, and a digits-only literal is not followed by `.` and a
      digit. */
  lemma NumberIsMaximalLiteral(src: string, c: Cursor)
    requires c.start + 1 == c.current <= |src| && IsDigit(src[c.start])
    ensures var r := NumberToken(src, c);
      r.Scanned? ==>
        var lexeme := src[c.start..r.next.current];
        && IsNumberLexeme(lexeme)
        && !(r.next.current < |src| && IsDigit(src[r.next.current]))
        && (AllDigits(lexeme) ==>
              !(r.next.current + 1 < |src| && src[r.next.current] == '.' && IsDigit(src[r.next.current + 1])))
  {
    var r := NumberToken(src, c);
    var j := RunEnd(src, c.current, Digits);
    RunEndCovers(src, c.current, Digits);
    if r.Scanned? {
      if r.next.current == j {
        DigitLexeme(src, c.start, j);
      } else {
        RunEndCovers(src, j + 1, Digits);
        FractionLexeme(src, c.start, j, r.next.current);
      }
    }
  }

  /** A non-empty run of digits is a number literal. */
  lemma DigitLexeme(src: string, lo: nat, hi: nat)
    requires lo < hi <= |src|
    requires forall k :: lo <= k < hi ==> IsDigit(src[k])
    ensures AllDigits(src[lo..hi]) && IsNumberLexeme(src[lo..hi])
  {
  }

  /** Digits, a `.` at `point`, then digits: a number literal that is not
      all digits. */
  lemma FractionLexeme(src: string, lo: nat, point: nat, hi: nat)
    requires lo < point && point + 1 < hi <= |src| && src[point] == '.'
    requires forall k :: lo <= k < point ==> IsDigit(src[k])
    requires forall k :: point + 1 <= k < hi ==> IsDigit(src[k])
    ensures IsNumberLexeme(src[lo..hi]) && !AllDigits(src[lo..hi])
  {
    var lexeme := src[lo..hi];
    var d := point - lo;
    assert lexeme[..d] == src[lo..point];
    assert lexeme[d + 1..] == src[point + 1..hi];
    assert lexeme[d] == '.';
  }

  /** One more call before a scan that completes. */
  lemma ScanAllUnfold(src: string, c: Cursor, token: Token, next: Cursor, rest: seq<Token>)
    requires c.current <= |src|
    requires NextToken(src, c) == Scanned(token, next) && token.ttype != TokenEOF
    requires ScanAll(src, next) == Complete(rest)
    ensures ScanAll(src, c) == Complete([token] + rest)
  {
  }

  /** The scan of a text already read to its end. */
  lemma ScanAllAtEnd(src: string, c: Cursor)
    requires c.current == |src|
    ensures ScanAll(src, c) == Complete([Token(TokenEOF, |src|, 0, c.line, None)])
  {
    EofIsTerminal(src, c);
  }

  /** Putting a token in front of a pair; a separate lemma keeps this
      sequence fact out of the larger proof that uses it. */
  lemma PrependToPair(token: Token, rest: seq<Token>)
    requires |rest| == 2
    ensures [token] + rest == [token, rest[0], rest[1]]
  {
  }

  /** A letter or underscore followed by letters, digits and underscores. */
  predicate IsWord(w: string)
  {
    && |w| > 0 && IsAlpha(w[0])
    && forall k :: 0 < k < |w| ==> IsAlpha(w[k]) || IsDigit(w[k])
  }

  /** A word that runs to the end of the text is scanned as one identifier
      token. */
  lemma FinalWordToken(src: string, c: Cursor)
    requires c.current < |src| && IsWord(src[c.current..])
    ensures NextToken(src, c)
            == Scanned(Token(TokenIdentifier, c.current, |src| - c.current, c.line, None),
                       Cursor(c.current, |src|, c.line))
  {
    var word := src[c.current..];
    assert IsAlpha(src[c.current]) by { assert word[0] == src[c.current]; }
    assert forall k :: c.current < k < |src| ==> IsAlpha(src[k]) || IsDigit(src[k]) by {
      forall k | c.current < k < |src|
        ensures IsAlpha(src[k]) || IsDigit(src[k])
      {
        assert word[k - c.current] == src[k];
      }
    }
    assert SkippedWhitespace(src, c) == Some(c);
    assert RunEnd(src, c.current + 1, IdentifierChars) == |src|;
  }

  /** ... and then end-of-input. */
  lemma {:induction false} FinalWord(src: string, c: Cursor)
    requires c.current < |src| && IsWord(src[c.current..])
    ensures ScanAll(src, c)
            == Complete([Token(TokenIdentifier, c.current, |src| - c.current, c.line, None),
                         Token(TokenEOF, |src|, 0, c.line, None)])
  {
    var end := Cursor(c.current, |src|, c.line);
    var tok := Token(TokenIdentifier, c.current, |src| - c.current, c.line, None);
    var eof := Token(TokenEOF, |src|, 0, c.line, None);
    FinalWordToken(src, c);
    ScanAllAtEnd(src, end);
    ScanAllUnfold(src, c, tok, end, [eof]);
    assert [tok] + [eof] == [tok, eof];
  }

  /** Keywords are scanned as identifiers, as `check_keyword` never
      matches: a text that is one word, such as `fun`, `for` or `forest`,
      gives one identifier token spanning all of it, then end-of-input. */
  lemma {:induction false} WordIsOneIdentifier(w: string)
    requires IsWord(w)
    ensures ScanAll(w, Cursor(0, 0, 1))
            == Complete([Token(TokenIdentifier, 0, |w|, 1, None), Token(TokenEOF, |w|, 0, 1, None)])
  {
    assert w[0..] == w;
    FinalWord(w, Cursor(0, 0, 1));
  }

  /** The quirk of `skip_whitespace`: of two leading blanks only the first
      is skipped, and the second becomes an "Unexpected character." error
      token before the word that follows (`  x` scans as an error, `x` and
      end-of-input). */
  lemma {:induction false} TwoLeadingBlanks(src: string)
    requires |src| > 2 && src[0] == ' ' && src[1] == ' ' && IsWord(src[2..])
    ensures ScanAll(src, Cursor(0, 0, 1)) == Complete([
      Token(TokenError, 1, 1, 1, Some(UnexpectedCharacterMessage)),
      Token(TokenIdentifier, 2, |src| - 2, 1, None),
      Token(TokenEOF, |src|, 0, 1, None)])
  {
    var blank := Token(TokenError, 1, 1, 1, Some(UnexpectedCharacterMessage));
    SecondBlankToken(src);
    FinalWord(src, Cursor(1, 2, 1));
    var rest := [Token(TokenIdentifier, 2, |src| - 2, 1, None), Token(TokenEOF, |src|, 0, 1, None)];
    ScanAllUnfold(src, Cursor(0, 0, 1), blank, Cursor(1, 2, 1), rest);
    PrependToPair(blank, rest);
  }

  /** The first call on a text starting with two blanks skips one and gives
      an error token for the other. */
  lemma SecondBlankToken(src: string)
    requires |src| > 2 && src[0] == ' ' && src[1] == ' '
    ensures NextToken(src, Cursor(0, 0, 1))
            == Scanned(Token(TokenError, 1, 1, 1, Some(UnexpectedCharacterMessage)), Cursor(1, 2, 1))
  {
    assert SkippedWhitespace(src, Cursor(0, 0, 1)) == Some(Cursor(0, 1, 1));
    UnexpectedCharacter(src, Cursor(1, 1, 1));
  }

  /** A `/` that is the last character makes `peek_next`, and so
      `scan_token`, panic. */
  lemma TrailingSlashPanics(src: string, c: Cursor)
    requires c.current + 1 == |src| && src[c.current] == '/'
    ensures NextToken(src, c) == Panicked(PeekNextPanic)
  {
  }

  /** So does a number whose digits are followed by a `.` that is the last
      character. */
  lemma TrailingPointPanics(src: string, c: Cursor)
    requires c.current + 1 < |src| && src[|src| - 1] == '.'
    requires forall k :: c.current <= k < |src| - 1 ==> IsDigit(src[k])
    ensures NextToken(src, c) == Panicked(PeekNextPanic)
  {
    assert SkippedWhitespace(src, c) == Some(c);
    RunEndCovers(src, c.current + 1, Digits);
    assert RunEnd(src, c.current + 1, Digits) == |src| - 1;
  }

  /** The scanner state: a borrowed text and the cursor over it. */
  class Scanner {
    const source: string
    var start: nat
    var current: nat
    var line: int

    ghost predicate Valid()
      reads this
    {
      start <= current <= |source|
    }

    /** The cursor as a value. */
    function State(): Cursor
      reads this
    {
      Cursor(start, current, line)
    }

    /** `Scanner::new`: at the first character of line 1. */
    constructor New(source: string)
      ensures Valid() && this.source == source
      ensures State() == Cursor(0, 0, 1)
    {
      this.source := source;
      start, current, line := 0, 0, 1;
    }

    /** `advance`: read the character at `current` and step past it. The
        source panics when there is none; every call site checks first. */
    method Advance() returns (ch: char)
      requires current < |source|
      modifies this`current
      ensures current == old(current) + 1 && ch == source[old(current)]
    {
      current := current + 1;
      ch := source[current - 1];
    }

    /** `match_current`: consume the next character only if it is `expected`. */
    method MatchCurrent(expected: char) returns (matched: bool)
      requires current <= |source|
      modifies this`current
      ensures matched == Matches(source, old(current), expected)
      ensures current == old(current) + (if matched then 1 else 0)
    {
      if IsAtEnd(source, current) {
        return false;
      }
      if source[current] != expected {
        return false;
      }
      current := current + 1;
      return true;
    }

    /** `skip_whitespace`; `false` when `peek_next` panics. */
    method SkipWhitespace() returns (ok: bool)
      requires Valid()
      modifies this`current, this`line
      ensures ok == SkippedWhitespace(source, old(State())).Some?
      ensures ok ==> Valid() && State() == SkippedWhitespace(source, old(State())).value
    {
      var c := Peek(source, current);
      match c {
        case ' ' =>
          var _ := Advance();
        case '\r' =>
          var _ := Advance();
        case '\t' =>
          var _ := Advance();
        case '\n' =>
          line := line + 1;
          var _ := Advance();
        case '/' =>
          var after := PeekNext(source, current);
          if after.None? {
            return false;
          }
          if after.value == '/' {
            AdvanceWhile(UntilNewline);
          }
        case _ =>
      }
      return true;
    }

    /** The loop of `string`: advance to the closing quote or the end of
        the text, counting the newlines passed. */
    method SkipStringBody()
      requires Valid()
      modifies this`current, this`line
      ensures Valid() && current == RunEnd(source, old(current), UntilQuote)
      ensures line == old(line) + NewlineCount(source, old(current), current)
    {
      while Peek(source, current) != '"' && !IsAtEnd(source, current)
        invariant old(current) <= current <= |source|
        invariant RunEnd(source, current, UntilQuote) == RunEnd(source, old(current), UntilQuote)
        invariant line == old(line) + NewlineCount(source, old(current), current)
        decreases |source| - current
      {
        if Peek(source, current) == '\n' {
          line := line + 1;
        }
        var _ := Advance();
      }
    }

    /** The loops of `identifier`, `number` and of a `//` comment in
        `skip_whitespace`: advance while the next character belongs to
        `run`. */
    method AdvanceWhile(run: Run)
      requires Valid()
      requires run != UntilQuote
      modifies this`current
      ensures Valid() && current == RunEnd(source, old(current), run)
    {
      while true
        invariant old(current) <= current <= |source|
        invariant RunEnd(source, current, run) == RunEnd(source, old(current), run)
        decreases |source| - current
      {
        var p := Peek(source, current);
        if !IsAtEnd(source, current) && Continues(run, p) {
          var _ := Advance();
        } else {
          break;
        }
      }
    }

    /** `string`, after the opening quote. */
    method ScanString() returns (tok: Token)
      requires Valid() && start < current
      modifies this`current, this`line
      ensures Valid() && Scanned(tok, State()) == StringToken(source, old(State()))
    {
      SkipStringBody();
      StringTokenStop(source, old(State()), State());
      if IsAtEnd(source, current) {
        tok := ErrorToken(UnterminatedString, State());
        return;
      }
      var _ := Advance();
      tok := MakeToken(TokenString, State());
    }

    /** `identifier`, after the first letter or underscore. */
    method Identifier() returns (tok: Token)
      requires Valid() && start < current
      modifies this`current
      ensures Valid() && Scanned(tok, State()) == IdentifierToken(source, old(State()))
    {
      AdvanceWhile(IdentifierChars);
      return MakeToken(IdentifierType(source, start, current), State());
    }

    /** `number`, after the first digit. */
    method Number() returns (r: Scan)
      requires Valid() && start < current
      modifies this`current
      ensures r == NumberToken(source, old(State()))
      ensures r.Scanned? ==> Valid() && State() == r.next
    {
      AdvanceWhile(Digits);
      // Look for a fraction part.
      if Peek(source, current) == '.' {
        var after := PeekNext(source, current);
        if after.None? {
          return Panicked(PeekNextPanic);
        }
        if IsDigit(after.value) {
          // Consume the ".".
          var _ := Advance();
          AdvanceWhile(Digits);
        }
      }
      return Scanned(MakeToken(TokenNumber, State()), State());
    }

    /** `scan_token`: returns what `NextToken` gives for the old state and,
        unless it panicked, moves the scanner to the new state. */
    method ScanToken() returns (r: Scan)
      requires Valid()
      modifies this
      ensures r == NextToken(source, old(State()))
      ensures r.Scanned? ==> Valid() && State() == r.next
    {
      var ok := SkipWhitespace();
      if !ok {
        return Panicked(PeekNextPanic);
      }
      start := current;
      assert NextToken(source, old(State())) == LexemeToken(source, State());
      r := ScanLexeme();
    }

    /** The rest of `scan_token`, from `start = current` on. */
    method ScanLexeme() returns (r: Scan)
      requires Valid() && start == current
      modifies this`current, this`line
      ensures r == LexemeToken(source, old(State()))
      ensures r.Scanned? ==> Valid() && State() == r.next
    {
      if IsAtEnd(source, current) {
        return Scanned(MakeToken(TokenEOF, State()), State());
      }
      LexemeTokenCases(source, State());
      var c := Advance();
      if IsAlpha(c) {
        var tok := Identifier();
        return Scanned(tok, State());
      }
      if IsDigit(c) {
        r := Number();
        return;
      }
      var tok := Punctuation(c);
      return Scanned(tok, State());
    }

    /** The `match` of `scan_token`, for a character `c` just read that
        starts neither an identifier nor a number. */
    method Punctuation(c: char) returns (tok: Token)
      requires Valid() && start < current
      modifies this`current, this`line
      ensures Valid() && Scanned(tok, State()) == PunctuationToken(source, old(State()), c)
    {
      match c {
        case '(' => tok := MakeToken(TokenLeftParen, State());
        case ')' => tok := MakeToken(TokenRightParen, State());
        case '{' => tok := MakeToken(TokenLeftBrace, State());
        case '}' => tok := MakeToken(TokenRightBrace, State());
        case ';' => tok := MakeToken(TokenSemicolon, State());
        case ',' => tok := MakeToken(TokenComma, State());
        case '.' => tok := MakeToken(TokenDot, State());
        case '-' => tok := MakeToken(TokenMinus, State());
        case '+' => tok := MakeToken(TokenPlus, State());
        case '/' => tok := MakeToken(TokenSlash, State());
        case '*' => tok := MakeToken(TokenStar, State());
        case '!' =>
          var m := MatchCurrent('=');
          tok := MakeToken(if m then TokenBangEqual else TokenBang, State());
        case '=' =>
          var m := MatchCurrent('=');
          tok := MakeToken(if m then TokenEqualEqual else TokenEqual, State());
        case '<' =>
          var m := MatchCurrent('=');
          tok := MakeToken(if m then TokenLessEqual else TokenLess, State());
        case '>' =>
          var m := MatchCurrent('=');
          tok := MakeToken(if m then TokenGreaterEqual else TokenGreater, State());
        case '"' => tok := ScanString();
        case _ => tok := ErrorToken(UnexpectedCharacterMessage, State());
      }
    }
  }
}
