/**
 * The hand-written scanner of src/scanner.rs, as the code is written.
 *
 * A `Scanner` holds three cursors into an ASCII source that every call is
 * handed: `start` (first char of the lexeme being scanned), `current` (next
 * char to read) and `line`. The pure functions `SpanWhile`, `SkipEnd` and
 * `LexAt` say where each scanning loop stops and which token `scan_token`
 * yields; the methods that move the cursors are proved against them.
 *
 * Three loops behave differently from their evident purpose, and the model
 * keeps them as written: `number` advances over NON-digits and stops at a
 * digit (so its fractional-part branch can never run), `string` advances only
 * while the next char IS a quote, and `check_keyword` compares an inclusive
 * slice of `length + 1` chars with a `length`-char text, so no keyword is ever
 * recognised.
 */
module Scanner {
  import opened Wrappers

  datatype TokenType =
    // Single-character tokens.
    | LeftParen | RightParen | LeftBrace | RightBrace
    | Comma | Dot | Minus | Plus | Semicolon | Slash | Star
    // One or two character tokens.
    | Bang | BangEqual | Equal | EqualEqual
    | Greater | GreaterEqual | Less | LessEqual
    // Literals.
    | Identifier | String | Number
    // Keywords.
    | And | Class | Else | False | For | Fun | If | Nil | Or
    | Print | Return | Super | This | True | Var | While
    | Error(message: string)
    | Eof

  datatype Token = Token(tokenType: TokenType, start: nat, length: nat, line: nat)

  predicate IsAlpha(c: char)
    ensures IsAlpha(c) ==> !IsDigit(c)
  {
    ('a' <= c <= 'z') || ('A' <= c <= 'Z') || c == '_'
  }

  predicate IsDigit(c: char) {
    '0' <= c <= '9'
  }

  // The char classes the scanning loops advance over.

  predicate NotDigit(c: char) { !IsDigit(c) }

  predicate IsAlphanumeric(c: char) { IsAlpha(c) || IsDigit(c) }

  predicate IsQuote(c: char) { c == '"' }

  predicate IsDot(c: char) { c == '.' }

  predicate NotNewline(c: char) { c != '\n' }

  /** Chars `skip_whitespace` steps over one at a time. */
  predicate IsBlank(c: char) {
    c == ' ' || c == '\r' || c == '\t' || c == '\n'
  }

  /** A `//` comment begins at `i`. */
  predicate CommentStartsAt(s: string, i: nat) {
    i + 1 < |s| && s[i] == '/' && s[i + 1] == '/'
  }

  /** Number of line breaks among the chars at indices `lo .. hi` of `s`. */
  function Newlines(s: string, lo: nat, hi: nat): nat
    requires lo <= hi <= |s|
    decreases hi
  {
    if lo == hi then 0 else Newlines(s, lo, hi - 1) + (if s[hi - 1] == '\n' then 1 else 0)
  }

  /** Counting one more char. */
  lemma NewlinesExtend(s: string, lo: nat, hi: nat)
    requires lo <= hi < |s|
    ensures Newlines(s, lo, hi + 1) == Newlines(s, lo, hi) + if s[hi] == '\n' then 1 else 0
  {
  }

  /** A stretch without line breaks adds nothing to the count. */
  lemma {:induction false} NewlinesNone(s: string, lo: nat, mid: nat, hi: nat)
    requires lo <= mid <= hi <= |s|
    requires forall k :: mid <= k < hi ==> NotNewline(s[k])
    ensures Newlines(s, lo, hi) == Newlines(s, lo, mid)
    decreases hi
  {
    if mid < hi {
      NewlinesNone(s, lo, mid, hi - 1);
    }
  }

  /** Where a loop that advances while the next char satisfies `p` stops,
      starting at `i`: the first index at or after `i` whose char fails `p`,
      or the end of the source. */
  function SpanWhile(s: string, i: nat, p: char -> bool): (r: nat)
    requires i <= |s|
    ensures i <= r <= |s|
    ensures forall k :: i <= k < r ==> p(s[k])
    ensures r < |s| ==> !p(s[r])
    decreases |s| - i
  {
    if i == |s| || !p(s[i]) then i else SpanWhile(s, i + 1, p)
  }

  /** `SpanWhile` is the only stopping point: any `r` with every char of
      `i .. r` satisfying `p` and a failing char (or the end) at `r` is it. */
  lemma {:induction false} SpanWhileUnique(s: string, i: nat, r: nat, p: char -> bool)
    requires i <= r <= |s|
    requires forall k :: i <= k < r ==> p(s[k])
    requires r < |s| ==> !p(s[r])
    ensures SpanWhile(s, i, p) == r
    decreases r - i
  {
    if i < r {
      SpanWhileUnique(s, i + 1, r, p);
    }
  }

  /** Where `skip_whitespace` leaves `current` when called at `i`: past every
      blank and every `//` comment up to (not including) its line break. */
  function SkipEnd(s: string, i: nat): (r: nat)
    requires i <= |s|
    ensures i <= r <= |s|
    ensures r < |s| ==> !IsBlank(s[r]) && !CommentStartsAt(s, r)
    decreases |s| - i
  {
    if i == |s| then i
    else if IsBlank(s[i]) then SkipEnd(s, i + 1)
    else if CommentStartsAt(s, i) then SkipEnd(s, SpanWhile(s, i, NotNewline))
    else i
  }

  /** One step of `SkipEnd` at a char that is not the end. */
  lemma SkipEndAt(s: string, i: nat)
    requires i < |s|
    ensures IsBlank(s[i]) ==> SkipEnd(s, i) == SkipEnd(s, i + 1)
    ensures !IsBlank(s[i]) && CommentStartsAt(s, i) ==> SkipEnd(s, i) == SkipEnd(s, SpanWhile(s, i, NotNewline))
    ensures !IsBlank(s[i]) && !CommentStartsAt(s, i) ==> SkipEnd(s, i) == i
  {
  }

  /** Token types of the eleven one-char arms of `scan_token`. */
  function SingleCharToken(c: char): (r: Option<TokenType>)
    ensures r.Some? <==> c in "(){};,.-+/*"
    ensures r.Some? ==> !r.value.Error? && r.value != Eof && !IsKeyword(r.value)
  {
    match c
    case '(' => Some(LeftParen)
    case ')' => Some(RightParen)
    case '{' => Some(LeftBrace)
    case '}' => Some(RightBrace)
    case ';' => Some(Semicolon)
    case ',' => Some(Comma)
    case '.' => Some(Dot)
    case '-' => Some(Minus)
    case '+' => Some(Plus)
    case '/' => Some(Slash)
    case '*' => Some(Star)
    case _ => None
  }

  /** For the four operators that may be followed by `=`: the token type with
      the `=` and the one without. */
  function OperatorTokens(c: char): (r: Option<(TokenType, TokenType)>)
    ensures r.Some? <==> c in "!=<>"
    ensures r.Some? ==> r.value.0 in {BangEqual, EqualEqual, LessEqual, GreaterEqual}
    ensures r.Some? ==> r.value.1 in {Bang, Equal, Less, Greater}
    ensures SingleCharToken(c).Some? ==> r.None?
  {
    match c
    case '!' => Some((BangEqual, Bang))
    case '=' => Some((EqualEqual, Equal))
    case '<' => Some((LessEqual, Less))
    case '>' => Some((GreaterEqual, Greater))
    case _ => None
  }

  predicate IsKeyword(t: TokenType) {
    t in {And, Class, Else, False, For, Fun, If, Nil, Or, Print, Return, Super, This, True, Var, While}
  }

  /** The token `scan_token` returns, and where it leaves `current`, once
      whitespace is skipped and `start` is `p`; `line` is the line count at
      that point. */
  function LexAt(s: string, p: nat, line: nat): (r: (Token, nat))
    requires p <= |s|
    ensures p <= r.1 <= |s|
    ensures r.0.tokenType == Eof <==> p == |s|
    ensures p < |s| ==> p < r.1
    ensures r.0.line == line
    ensures !r.0.tokenType.Error? ==> r.0.start == p && r.0.start + r.0.length == r.1
    ensures r.0.tokenType.Error? ==> r.0.start == 0 && r.0.length == 0
  {
    if p == |s| then (Token(Eof, p, 0, line), p)
    else
      var c := s[p];
      if IsDigit(c) then
        var e := SpanWhile(s, p + 1, NotDigit);
        (Token(Number, p, e - p, line), e)
      else if IsAlpha(c) then
        var e := SpanWhile(s, p + 1, IsAlphanumeric);
        (Token(Identifier, p, e - p, line), e)
      else LexSymbol(s, p, line)
  }

  /** `LexAt` at a char that is not the end, one case per kind of first char. */
  lemma LexAtCases(s: string, p: nat, line: nat)
    requires p < |s|
    ensures IsDigit(s[p]) ==> var e := SpanWhile(s, p + 1, NotDigit);
      LexAt(s, p, line) == (Token(Number, p, e - p, line), e)
    ensures IsAlpha(s[p]) ==> var e := SpanWhile(s, p + 1, IsAlphanumeric);
      LexAt(s, p, line) == (Token(Identifier, p, e - p, line), e)
    ensures !IsDigit(s[p]) && !IsAlpha(s[p]) ==> LexAt(s, p, line) == LexSymbol(s, p, line)
  {
  }

  /** A one- or two-char operator: `=` after the first char picks the
      two-char form. */
  function LexOperator(s: string, p: nat, line: nat): (r: (Token, nat))
    requires p < |s| && OperatorTokens(s[p]).Some?
    ensures p < r.1 <= |s| && r.0.start == p && r.0.start + r.0.length == r.1 && r.0.line == line
    ensures r.1 == p + 2 <==> p + 1 < |s| && s[p + 1] == '='
    ensures r.1 == p + 2 || r.1 == p + 1
  {
    var (withEqual, alone) := OperatorTokens(s[p]).value;
    if p + 1 < |s| && s[p + 1] == '=' then (Token(withEqual, p, 2, line), p + 2)
    else (Token(alone, p, 1, line), p + 1)
  }

  /** A string opened by the quote at `p`, as the scanner reads it: the
      run of quotes after it, then one more char to close it. */
  function LexString(s: string, p: nat, line: nat): (r: (Token, nat))
    requires p < |s|
    ensures p < r.1 <= |s| && r.0.line == line
    ensures r.0.tokenType == String || r.0.tokenType == Error("Unterminated string.")
    ensures r.0.tokenType.Error? <==> forall k :: p < k < |s| ==> IsQuote(s[k])
    ensures r.0.tokenType == String ==>
      && r.0.start == p && r.0.start + r.0.length == r.1
      && (forall k :: p < k < r.1 - 1 ==> IsQuote(s[k])) && !IsQuote(s[r.1 - 1])
  {
    var q := SpanWhile(s, p + 1, IsQuote);
    if q == |s| then (Token(Error("Unterminated string."), 0, 0, line), q)
    else (Token(String, p, q + 1 - p, line), q + 1)
  }

  /** The part of `LexAt` for a first char that is neither a digit nor a
      letter: punctuation, operators, strings and the unexpected char. */
  function LexSymbol(s: string, p: nat, line: nat): (r: (Token, nat))
    requires p < |s|
    ensures p < r.1 <= |s|
    ensures r.0.tokenType != Eof && r.0.line == line
    ensures !r.0.tokenType.Error? ==> r.0.start == p && r.0.start + r.0.length == r.1
    ensures r.0.tokenType.Error? ==> r.0.start == 0 && r.0.length == 0
  {
    var c := s[p];
    if SingleCharToken(c).Some? then (Token(SingleCharToken(c).value, p, 1, line), p + 1)
    else if OperatorTokens(c).Some? then LexOperator(s, p, line)
    else if c == '"' then LexString(s, p, line)
    else (Token(Error("unexpected character"), 0, 0, line), p + 1)
  }

  /** `!`, `=`, `<` and `>` take the following char exactly when it is `=`,
      and then yield their `*_EQUAL` type. */
  lemma LexAtOperator(s: string, p: nat, line: nat)
    requires p < |s| && OperatorTokens(s[p]).Some?
    ensures var (t, e) := LexAt(s, p, line);
      var followedByEqual := p + 1 < |s| && s[p + 1] == '=';
      && (e == p + 2 <==> followedByEqual)
      && (e == p + 1 <==> !followedByEqual)
      && (t.tokenType in {BangEqual, EqualEqual, LessEqual, GreaterEqual} <==> followedByEqual)
      && t.tokenType == (if followedByEqual then OperatorTokens(s[p]).value.0 else OperatorTokens(s[p]).value.1)
  {
  }

  /** A lexeme that starts with a letter is always an IDENTIFIER: no keyword
      is ever produced. */
  lemma LexAtNeverKeyword(s: string, p: nat, line: nat)
    requires p <= |s|
    ensures !IsKeyword(LexAt(s, p, line).0.tokenType)
    ensures p < |s| && IsAlpha(s[p]) ==> LexAt(s, p, line).0.tokenType == Identifier
  {
  }

  /** `number` stops at the first digit after the first char: a lexeme that
      starts with two digits is scanned as a one-char NUMBER, and one that
      starts with a digit followed by non-digits runs up to the next digit. */
  lemma LexAtNumberAsWritten(s: string, p: nat, line: nat)
    requires p < |s| && IsDigit(s[p])
    ensures var (t, e) := LexAt(s, p, line);
      && t.tokenType == Number
      && (e == |s| || IsDigit(s[e]))
      && (forall k :: p < k < e ==> !IsDigit(s[k]))
      && (p + 1 < |s| && IsDigit(s[p + 1]) ==> t.length == 1)
  {
  }

  /** After an opening quote, `string` consumes the run of quotes that
      follows and then exactly one more char; a run reaching the end is an
      unterminated string. */
  lemma LexAtStringAsWritten(s: string, p: nat, line: nat)
    requires p < |s| && s[p] == '"'
    ensures var (t, e) := LexAt(s, p, line);
      var q := SpanWhile(s, p + 1, IsQuote);
      && (forall k :: p <= k < q ==> s[k] == '"')
      && (q == |s| ==> t.tokenType == Error("Unterminated string.") && e == |s|)
      && (q < |s| ==> t.tokenType == String && e == q + 1 && s[q] != '"')
  {
  }

  /** Index `k` lies in a `//` comment that begins at or after `i`: the
      comment starts at some `j` in `i ..= k`, and no line break comes
      between `j` and `k`. */
  predicate InComment(s: string, i: nat, k: nat)
    requires k < |s|
  {
    exists j :: i <= j <= k && CommentStartsAt(s, j) && forall m :: j <= m <= k ==> NotNewline(s[m])
  }

  /** Whitespace skipping from `i` passes over exactly the blanks and the
      comment text before `SkipEnd(s, i)`, and stops at the first index that
      is neither: every skipped char is blank or inside a comment, and the
      char it stops at is neither. */
  lemma {:induction false} SkipEndFirst(s: string, i: nat)
    requires i <= |s|
    ensures forall k :: i <= k < SkipEnd(s, i) ==> IsBlank(s[k]) || InComment(s, i, k)
    ensures SkipEnd(s, i) < |s| ==> !IsBlank(s[SkipEnd(s, i)]) && !InComment(s, i, SkipEnd(s, i))
    decreases |s| - i
  {
    var r := SkipEnd(s, i);
    if i == |s| {
    } else if IsBlank(s[i]) {
      SkipEndFirst(s, i + 1);
      assert r == SkipEnd(s, i + 1);
      forall k | i < k < r && !IsBlank(s[k])
        ensures InComment(s, i, k)
      {
        var j :| i + 1 <= j <= k && CommentStartsAt(s, j) && forall m :: j <= m <= k ==> NotNewline(s[m]);
      }
    } else if CommentStartsAt(s, i) {
      var e := SpanWhile(s, i, NotNewline);
      SkipEndFirst(s, e);
      assert r == SkipEnd(s, e);
      forall k | i <= k < r
        ensures IsBlank(s[k]) || InComment(s, i, k)
      {
        if k < e {
          assert forall m :: i <= m <= k ==> NotNewline(s[m]);
        } else if !IsBlank(s[k]) {
          var j :| e <= j <= k && CommentStartsAt(s, j) && forall m :: j <= m <= k ==> NotNewline(s[m]);
        }
      }
      if r < |s| {
        // Every comment begun before `e` ends at the line break at `e`.
        forall j | i <= j < e && CommentStartsAt(s, j)
          ensures exists m :: j <= m <= r && !NotNewline(s[m])
        {
          assert j <= e <= r && !NotNewline(s[e]);
        }
      }
    }
  }

  /** Skipping whitespace a second time moves nowhere. */
  lemma {:induction false} SkipEndIdempotent(s: string, i: nat)
    requires i <= |s|
    ensures SkipEnd(s, SkipEnd(s, i)) == SkipEnd(s, i)
  {
    var r := SkipEnd(s, i);
    if r < |s| {
      assert !IsBlank(s[r]) && !CommentStartsAt(s, r);
    }
  }

  class Scanner {
    var start: nat
    var current: nat
    var line: nat

    constructor ()
      ensures start == 0 && current == 0 && line == 1
    {
      start, current, line := 0, 0, 1;
    }

    /** The char `distance` places past `current`, if there is one. */
    function Peek(source: string, distance: nat): (r: Option<char>)
      reads this
      ensures r.None? <==> current + distance >= |source|
      ensures r.Some? ==> current + distance < |source| && r.value == source[current + distance]
    {
      var index := current + distance;
      if index >= |source| then None else Some(source[index])
    }

    function IsAtEnd(source: string): (r: bool)
      reads this
      ensures r <==> Peek(source, 0).None?
    {
      current >= |source|
    }

    /** A token spanning `start .. current` on the current line. */
    function MakeToken(tokenType: TokenType): (t: Token)
      reads this
      requires start <= current
      ensures t.tokenType == tokenType && t.line == line
      ensures t.start == start && t.start + t.length == current
    {
      Token(tokenType, start, current - start, line)
    }

    /** An error token carries no span, only the current line. */
    function ErrorToken(message: string): (t: Token)
      reads this
      ensures t.tokenType == Error(message) && t.line == line
      ensures t.start == 0 && t.length == 0
    {
      Token(Error(message), 0, 0, line)
    }

    /** Yields `tokenType` exactly when the INCLUSIVE slice
        `start + offset ..= start + offset + length` exists and equals `s`;
        that slice has `length + 1` chars, so a `length`-char `s` never
        matches. */
    function CheckKeyword(source: string, offset: nat, length: nat, s: string, tokenType: TokenType): (r: TokenType)
      reads this
      ensures r == tokenType || r == Identifier
      ensures r != Identifier ==> |s| == length + 1 && start + offset + length < |source|
      ensures |s| == length ==> r == Identifier
      ensures r != Identifier ==> source[start + offset .. start + offset + length + 1] == s
      ensures start + offset + length < |source|
              && source[start + offset .. start + offset + length + 1] == s
              ==> r == tokenType
    {
      var lo := start + offset;
      if lo + length < |source| && source[lo..lo + length + 1] == s then tokenType else Identifier
    }

    /** The first/second-letter keyword dispatch. Every arm hands
        `check_keyword` a text as long as its `length`, so the result is
        always IDENTIFIER. */
    function IdentifierType(source: string): (r: TokenType)
      reads this
      requires start < current <= |source|
      ensures r == Identifier
    {
      match source[start]
      case 'a' => CheckKeyword(source, 1, 2, "nd", And)
      case 'c' => CheckKeyword(source, 1, 4, "lass", Class)
      case 'e' => CheckKeyword(source, 1, 3, "lse", Else)
      case 'f' =>
        if current - start > 1 then
          match source[start + 1]
          case 'a' => CheckKeyword(source, 2, 3, "lse", False)
          case 'o' => CheckKeyword(source, 2, 1, "r", For)
          case 'u' => CheckKeyword(source, 2, 1, "n", Fun)
          case _ => Identifier
        else Identifier
      case 'i' => CheckKeyword(source, 1, 1, "f", If)
      case 'n' => CheckKeyword(source, 1, 2, "il", Nil)
      case 'o' => CheckKeyword(source, 1, 1, "r", Or)
      case 'p' => CheckKeyword(source, 1, 4, "rint", Print)
      case 'r' => CheckKeyword(source, 1, 5, "eturn", Return)
      case 's' => CheckKeyword(source, 1, 4, "uper", Super)
      case 't' =>
        if current - start > 1 then
          match source[start + 1]
          case 'h' => CheckKeyword(source, 2, 2, "is", This)
          case 'r' => CheckKeyword(source, 2, 2, "ue", True)
          case _ => Identifier
        else Identifier
      case 'v' => CheckKeyword(source, 1, 2, "ar", Var)
      case 'w' => CheckKeyword(source, 1, 4, "hile", While)
      case _ => Identifier
    }

    /** Consumes one char and returns it. */
    method Advance(source: string) returns (c: char)
      requires current < |source|
      modifies this`current
      ensures current == old(current) + 1
      ensures c == source[old(current)]
    {
      current := current + 1;
      c := source[current - 1];
    }

    /** Consumes the next char only when it is `expected`. */
    method Matches(source: string, expected: string) returns (matched: bool)
      modifies this`current
      ensures matched <==> old(current) < |source| && source[old(current)..old(current) + 1] == expected
      ensures |expected| == 1 ==> (matched <==> old(current) < |source| && source[old(current)] == expected[0])
      ensures current == if matched then old(current) + 1 else old(current)
    {
      if IsAtEnd(source) {
        return false;
      }
      if source[current..current + 1] != expected {
        matched := false;
      } else {
        current := current + 1;
        matched := true;
      }
    }

    method MakeTokenIfMatches(source: string, expected: string, whenTrue: TokenType, whenFalse: TokenType)
      returns (t: Token)
      requires start <= current
      modifies this`current
      ensures var matched := old(current) < |source| && source[old(current)..old(current) + 1] == expected;
        && current == (if matched then old(current) + 1 else old(current))
        && t == Token(if matched then whenTrue else whenFalse, start, current - start, line)
      ensures |expected| == 1 ==>
        var matched := old(current) < |source| && source[old(current)] == expected[0];
        && current == (if matched then old(current) + 1 else old(current))
        && t == Token(if matched then whenTrue else whenFalse, start, current - start, line)
    {
      var matched := Matches(source, expected);
      t := MakeToken(if matched then whenTrue else whenFalse);
    }

    /** The inner loop of `skip_whitespace` for a `//` comment: up to, not
        past, the next line break. */
    method SkipComment(source: string)
      requires current <= |source|
      modifies this`current
      ensures current == SpanWhile(source, old(current), NotNewline)
    {
      while true
        invariant old(current) <= current <= |source|
        invariant forall k :: old(current) <= k < current ==> NotNewline(source[k])
        decreases |source| - current
      {
        if Peek(source, 0) == Some('\n') || IsAtEnd(source) {
          break;
        }
        var _ := Advance(source);
      }
      SpanWhileUnique(source, old(current), current, NotNewline);
    }

    method SkipWhitespace(source: string)
      requires current <= |source|
      modifies this`current, this`line
      ensures current == SkipEnd(source, old(current))
      ensures line == old(line) + Newlines(source, old(current), current)
    {
      ghost var from0, line0 := current, line;
      while true
        invariant from0 <= current <= |source|
        invariant SkipEnd(source, current) == SkipEnd(source, from0)
        invariant line == line0 + Newlines(source, from0, current)
        decreases |source| - current
      {
        var c := Peek(source, 0);
        if c.None? {
          return;
        }
        ghost var here := current;
        assert c.value == source[here];
        NewlinesExtend(source, from0, here);
        if c.value == ' ' || c.value == '\r' || c.value == '\t' || c.value == '\n' {
          assert IsBlank(source[here]);
          SkipEndAt(source, here);
          if c.value == '\n' {
            line := line + 1;
          }
          var _ := Advance(source);
        } else if c.value == '/' && Peek(source, 1) == Some('/') {
          assert CommentStartsAt(source, here);
          SkipEndAt(source, here);
          SkipComment(source);
          NewlinesNone(source, from0, here, current);
        } else {
          assert !CommentStartsAt(source, here);
          SkipEndAt(source, here);
          return;
        }
      }
    }

    method ScanNumber(source: string) returns (t: Token)
      requires start < current <= |source|
      modifies this`current
      ensures current == SpanWhile(source, old(current), NotDigit)
      ensures t == Token(Number, start, current - start, line)
    {
      // Stops AT a digit and advances over anything else.
      while true
        invariant old(current) <= current <= |source|
        invariant SpanWhile(source, current, NotDigit) == SpanWhile(source, old(current), NotDigit)
        decreases |source| - current
      {
        if Peek(source, 0).MapOr(true, IsDigit) {
          break;
        }
        var _ := Advance(source);
      }
      var dotNext, digitAfter := Peek(source, 0).MapOr(false, IsDot), Peek(source, 1).MapOr(false, IsDigit);
      if dotNext && digitAfter {
        // The fractional part: unreachable, since the loop above stops only
        // at a digit or at the end.
        assert false;
      }
      t := MakeToken(Number);
    }

    method ScanIdentifier(source: string) returns (t: Token)
      requires start < current <= |source|
      modifies this`current
      ensures current == SpanWhile(source, old(current), IsAlphanumeric)
      ensures t == Token(Identifier, start, current - start, line)
    {
      while Peek(source, 0).MapOr(false, IsAlpha) || Peek(source, 0).MapOr(false, IsDigit)
        invariant old(current) <= current <= |source|
        invariant SpanWhile(source, current, IsAlphanumeric) == SpanWhile(source, old(current), IsAlphanumeric)
        decreases |source| - current
      {
        var _ := Advance(source);
      }
      t := MakeToken(IdentifierType(source));
    }

    method ScanString(source: string) returns (t: Token)
      requires start < |source| && current == start + 1
      modifies this`current, this`line
      ensures line == old(line)
      ensures (t, current) == LexString(source, start, line)
    {
      // Runs only while the next char IS a quote.
      while Peek(source, 0) == Some('"') && !IsAtEnd(source)
        invariant old(current) <= current <= |source|
        invariant forall k :: old(current) <= k < current ==> IsQuote(source[k])
        invariant line == old(line)
        decreases |source| - current
      {
        if Peek(source, 0) == Some('\n') {
          // Unreachable: the loop condition says the next char is a quote.
          assert false;
        }
        var _ := Advance(source);
      }
      ghost var q := current;
      SpanWhileUnique(source, start + 1, q, IsQuote);
      if IsAtEnd(source) {
        t := ErrorToken("Unterminated string.");
        assert q == |source| && t == Token(Error("Unterminated string."), 0, 0, line);
      } else {
        var _ := Advance(source);
        t := MakeToken(String);
        assert q < |source| && current == q + 1 && t == Token(String, start, q + 1 - start, line);
      }
    }

    method ScanToken(source: string) returns (t: Token)
      requires current <= |source|
      modifies this
      ensures start == SkipEnd(source, old(current))
      ensures line == old(line) + Newlines(source, old(current), start)
      ensures (t, current) == LexAt(source, start, line)
      ensures old(current) <= start <= current <= |source| && old(line) <= line
    {
      SkipWhitespace(source);
      start := current;
      t := ScanLexeme(source);
    }

    /** The part of `scan_token` after whitespace: the lexeme at `start`. */
    method ScanLexeme(source: string) returns (t: Token)
      requires start == current <= |source|
      modifies this`current, this`line
      ensures line == old(line)
      ensures (t, current) == LexAt(source, start, line)
    {
      if IsAtEnd(source) {
        t := MakeToken(Eof);
      } else {
        LexAtCases(source, start, line);
        var c := Advance(source);
        if IsDigit(c) || IsAlpha(c) {
          t := ScanWord(source, c);
        } else {
          t := ScanSymbol(source, c);
        }
      }
    }

    /** The arms of `scan_token` for a first char `c` that is a digit or a
        letter. */
    method ScanWord(source: string, c: char) returns (t: Token)
      requires start < |source| && current == start + 1 && c == source[start]
      requires IsDigit(c) || IsAlpha(c)
      modifies this`current
      ensures (t, current) == LexAt(source, start, line)
    {
      LexAtCases(source, start, line);
      if IsDigit(c) {
        t := ScanNumber(source);
      } else {
        t := ScanIdentifier(source);
      }
    }

    /** The arms of `scan_token` for a first char `c` that is neither a digit
        nor a letter. */
    method ScanSymbol(source: string, c: char) returns (t: Token)
      requires start < |source| && current == start + 1 && c == source[start]
      requires !IsDigit(c) && !IsAlpha(c)
      modifies this`current, this`line
      ensures line == old(line)
      ensures (t, current) == LexSymbol(source, start, line)
    {
      // The one-char and the operator arms of the `match`, read off the
      // same tables `LexAt` uses.
      var single, operator := SingleCharToken(c), OperatorTokens(c);
      if single.Some? {
        t := MakeToken(single.value);
      } else if operator.Some? {
        assert |"="| == 1 && "="[0] == '=';
        t := MakeTokenIfMatches(source, "=", operator.value.0, operator.value.1);
      } else if c == '"' {
        t := ScanString(source);
      } else {
        t := ErrorToken("unexpected character");
      }
    }
  }
}
