/**
 The `when` tokenizer. What a Unicode letter or digit is stays a parameter; the
 characters the tokenizer tests for before it tries a word are none.
 */
module WhenLexer {
  import opened Basics
  import opened WhenParser

  type Letters = char -> bool

  /** The characters the tokenizer tests for before it tries a word. */
  const MARKS := " \t\n()&|=~!<>'\""

  /** The ASCII letters are letters, and no mark is one. */
  ghost predicate Sane(letter: Letters) {
    && (forall c | 'a' <= c <= 'z' :: letter(c))
    && (forall c | c in MARKS :: !letter(c))
  }

  predicate IsWord(letter: Letters, c: char) { letter(c) || c in "._-:/@#" }

  predicate IsFlag(c: char) { 'a' <= c <= 'z' || 'A' <= c <= 'Z' }

  type Lexed = Result<seq<Token>, WhenError>

  /** Some tokens, and how many characters they took. */
  datatype Lexeme = Lexeme(tokens: seq<Token>, length: nat)

  function RunLength(p: char -> bool, s: string): (n: nat)
    ensures n <= |s|
  {
    if s != [] && p(s[0]) then 1 + RunLength(p, s[1..]) else 0
  }

  /** The run at the start of `s` is as long as can be. */
  lemma {:induction false} RunIs(p: char -> bool, s: string)
    ensures forall k | 0 <= k < RunLength(p, s) :: p(s[k])
    ensures RunLength(p, s) < |s| ==> !p(s[RunLength(p, s)])
  {
    if s != [] && p(s[0]) { RunIs(p, s[1..]); }
  }

  function IsSpace(c: char): bool { c == ' ' }

  function InWord(letter: Letters): char -> bool { c => IsWord(letter, c) }

  /** The word at or after the spaces at the start of `s`. */
  function NextWord(letter: Letters, s: string): string {
    var spaces := RunLength(IsSpace, s);
    s[spaces..][..RunLength(InWord(letter), s[spaces..])]
  }

  /** A pattern up to its closing `/`, and how many characters that is with it. */
  function Pattern(s: string): (r: Result<(string, nat), WhenError>)
    ensures r.Ok? ==> 0 < r.value.1 <= |s|
  {
    if s == [] then Err(UnterminatedRegex)
    else if s[0] == '\\' then
      if |s| == 1 then Err(UnterminatedRegex)
      else
        match Pattern(s[2..])
        case Ok((rest, n)) => Ok(((if s[1] == '/' then "/" else ['\\', s[1]]) + rest, n + 2))
        case Err(x) => Err(x)
    else if s[0] == '/' then Ok(("", 1))
    else
      match Pattern(s[1..])
      case Ok((rest, n)) => Ok(([s[0]] + rest, n + 1))
      case Err(x) => Err(x)
  }

  /** A quoted string up to its closing quote. */
  function UpTo(quote: char, s: string): (r: Result<string, WhenError>)
    ensures r.Ok? ==> |r.value| < |s| && s[..|r.value|] == r.value && s[|r.value|] == quote && quote !in r.value
  {
    if s == [] then Err(UnterminatedString)
    else if s[0] == quote then Ok("")
    else
      match UpTo(quote, s[1..])
      case Ok(rest) => Ok([s[0]] + rest)
      case Err(x) => Err(x)
  }

  /** What follows `=~`: spaces, a pattern between slashes, flags. */
  function LexRegex(s: string): (r: Result<Lexeme, WhenError>)
    ensures r.Ok? ==> r.value.length <= |s|
  {
    var spaces := RunLength(IsSpace, s);
    if spaces == |s| || s[spaces] != '/' then Err(RegexExpected)
    else
      match Pattern(s[spaces + 1..])
      case Ok((pattern, n)) =>
        var after := spaces + 1 + n;
        var flags := RunLength(IsFlag, s[after..]);
        Ok(Lexeme([Tilde, Regex(pattern, s[after..after + flags])], after + flags))
      case Err(x) => Err(x)
  }

  function LexWord(letter: Letters, s: string): (r: Lexeme)
    requires s != [] && IsWord(letter, s[0])
    ensures 0 < r.length <= |s|
  {
    var n := RunLength(InWord(letter), s);
    var w := s[..n];
    if w == "in" then Lexeme([Unsupported("in")], n)
    else if w == "not" && NextWord(letter, s[n..]) == "in" then
      Lexeme([Unsupported("not in")], n + RunLength(IsSpace, s[n..]) + 2)
    else Lexeme([Word(w)], n)
  }

  /** The character at `k`, if there is one. */
  function CharAt(s: string, k: nat): Option<char> {
    if k < |s| then Some(s[k]) else None
  }

  /** The tokens at the start of `s`. */
  function LexOne(letter: Letters, s: string): (r: Result<Lexeme, WhenError>)
    requires s != []
    ensures r.Ok? ==> 0 < r.value.length <= |s|
  {
    var c, next := s[0], CharAt(s, 1);
    if c == ' ' || c == '\t' || c == '\n' then Ok(Lexeme([], 1))
    else if c == '(' then Ok(Lexeme([LParen], 1))
    else if c == ')' then Ok(Lexeme([RParen], 1))
    else if c == '&' && next == Some('&') then Ok(Lexeme([AndAnd], 2))
    else if c == '|' && next == Some('|') then Ok(Lexeme([OrOr], 2))
    else if c == '=' && next == Some('=') then Ok(Lexeme([EqEq], if CharAt(s, 2) == Some('=') then 3 else 2))
    else if c == '=' && next == Some('~') then
      match LexRegex(s[2..])
      case Ok(x) => Ok(Lexeme(x.tokens, x.length + 2))
      case Err(x) => Err(x)
    else if c == '!' && next == Some('=') then Ok(Lexeme([BangEq], if CharAt(s, 2) == Some('=') then 3 else 2))
    else if c == '!' then Ok(Lexeme([Bang], 1))
    else if c == '<' || c == '>' then
      if next == Some('=') then Ok(Lexeme([Unsupported([c, '='])], 2)) else Ok(Lexeme([Unsupported([c])], 1))
    else if c == '\'' || c == '"' then
      match UpTo(c, s[1..])
      case Ok(v) => Ok(Lexeme([Quoted(v)], |v| + 2))
      case Err(x) => Err(x)
    else if IsWord(letter, c) then Ok(LexWord(letter, s))
    else Err(UnexpectedChar(c))
  }

  lemma DropDrop(s: string, i: nat, j: nat)
    requires i + j <= |s|
    ensures s[i..][j..] == s[i + j..]
  {}

  lemma DropSlice(s: string, i: nat, j: nat, k: nat)
    requires j <= k && i + k <= |s|
    ensures s[i..][j..k] == s[i + j..i + k]
  {}

  /** `r` with `p` and `n` characters before it. */
  function Behind(p: string, n: nat, r: Result<(string, nat), WhenError>): Result<(string, nat), WhenError> {
    match r
    case Ok((rest, m)) => Ok((p + rest, n + m))
    case Err(x) => Err(x)
  }

  lemma BehindBehind(p: string, n: nat, q: string, m: nat, r: Result<(string, nat), WhenError>)
    ensures Behind(p, n, Behind(q, m, r)) == Behind(p + q, n + m, r)
    ensures Behind("", 0, r) == r
  {
    if r.Ok? {
      assert p + (q + r.value.0) == p + q + r.value.0;
      assert "" + r.value.0 == r.value.0;
    }
  }

  function BehindText(p: string, r: Result<string, WhenError>): Result<string, WhenError> {
    match r
    case Ok(rest) => Ok(p + rest)
    case Err(x) => Err(x)
  }

  lemma BehindTextTwice(p: string, q: string, r: Result<string, WhenError>)
    ensures BehindText(p, BehindText(q, r)) == BehindText(p + q, r)
    ensures BehindText("", r) == r
  {
    if r.Ok? {
      assert p + (q + r.value) == p + q + r.value;
      assert "" + r.value == r.value;
    }
  }

  function Then(toks: seq<Token>, r: Lexed): Lexed {
    match r
    case Ok(rest) => Ok(toks + rest)
    case Err(x) => Err(x)
  }

  lemma ThenThen(a: seq<Token>, b: seq<Token>, r: Lexed)
    ensures Then(a, Then(b, r)) == Then(a + b, r)
    ensures Then([], r) == r
  {
    if r.Ok? {
      assert a + (b + r.value) == a + b + r.value;
      assert [] + r.value == r.value;
    }
  }

  function Lex(letter: Letters, s: string): Lexed
    decreases |s|
  {
    if s == [] then Ok([])
    else
      match LexOne(letter, s)
      case Ok(x) => Then(x.tokens, Lex(letter, s[x.length..]))
      case Err(x) => Err(x)
  }

  // ---- The code

  /** Where the run of characters `p` holds of, from `i`, ends. */
  method RunEnd(p: char -> bool, chars: string, i: nat) returns (j: nat)
    requires i <= |chars|
    ensures j <= |chars| && j == i + RunLength(p, chars[i..])
  {
    j := i;
    while j < |chars| && p(chars[j])
      invariant i <= j <= |chars|
      invariant j - i + RunLength(p, chars[j..]) == RunLength(p, chars[i..])
    {
      DropDrop(chars, j, 1);
      j := j + 1;
    }
  }

  /** From `from` to `i` the pattern is `pattern`; the rest is still to be read. */
  ghost predicate PatternTo(chars: string, from: nat, i: nat, pattern: string) {
    from <= i <= |chars| && Behind(pattern, i - from, Pattern(chars[i..])) == Pattern(chars[from..])
  }

  lemma PatternStarts(chars: string, from: nat)
    requires from <= |chars|
    ensures PatternTo(chars, from, from, "")
  {
    BehindBehind("", 0, "", 0, Pattern(chars[from..]));
  }

  /** What one character, or an escaped pair, does to a pattern. */
  lemma PatternTurn(s: string, p: string, n: nat)
    ensures s == [] || s == "\\" ==> Behind(p, n, Pattern(s)) == Err(UnterminatedRegex)
    ensures |s| >= 2 && s[0] == '\\' ==>
              Pattern(s) == Behind(if s[1] == '/' then "/" else ['\\', s[1]], 2, Pattern(s[2..]))
    ensures s != [] && s[0] == '/' ==> Behind(p, n, Pattern(s)) == Ok((p, n + 1))
    ensures s != [] && s[0] != '/' && s[0] != '\\' ==> Pattern(s) == Behind([s[0]], 1, Pattern(s[1..]))
  {
    assert p + "" == p;
  }

  lemma PatternPair(chars: string, from: nat, i: nat, pattern: string)
    requires PatternTo(chars, from, i, pattern) && i + 1 < |chars| && chars[i] == '\\'
    ensures PatternTo(chars, from, i + 2, (if chars[i + 1] != '/' then pattern + "\\" else pattern) + [chars[i + 1]])
  {
    var unit := if chars[i + 1] == '/' then "/" else ['\\', chars[i + 1]];
    PatternTurn(chars[i..], pattern, i - from);
    hide Pattern, Behind;
    DropDrop(chars, i, 2);
    BehindBehind(pattern, i - from, unit, 2, Pattern(chars[i + 2..]));
    assert pattern + unit == (if chars[i + 1] != '/' then pattern + "\\" else pattern) + [chars[i + 1]];
  }

  lemma PatternPlain(chars: string, from: nat, i: nat, pattern: string)
    requires PatternTo(chars, from, i, pattern) && i < |chars| && chars[i] != '\\' && chars[i] != '/'
    ensures PatternTo(chars, from, i + 1, pattern + [chars[i]])
  {
    PatternTurn(chars[i..], pattern, i - from);
    hide Pattern, Behind;
    DropDrop(chars, i, 1);
    BehindBehind(pattern, i - from, [chars[i]], 1, Pattern(chars[i + 1..]));
  }

  /** Where the reading ends: at the closing `/`, or with none to come. */
  lemma PatternEnds(chars: string, from: nat, i: nat, pattern: string)
    requires PatternTo(chars, from, i, pattern)
    ensures i == |chars| || (i + 1 == |chars| && chars[i] == '\\') ==> Pattern(chars[from..]) == Err(UnterminatedRegex)
    ensures i < |chars| && chars[i] == '/' ==> Pattern(chars[from..]) == Ok((pattern, i + 1 - from))
  {
    var rest := chars[i..];
    PatternTurn(rest, pattern, i - from);
    hide Pattern, Behind;
    assert i + 1 == |chars| && chars[i] == '\\' ==> rest == "\\";
  }

  method ScanPattern(chars: string, from: nat) returns (r: Result<(string, nat), WhenError>)
    requires from <= |chars|
    ensures r.Ok? ==> from < r.value.1 <= |chars| && Pattern(chars[from..]) == Ok((r.value.0, r.value.1 - from))
    ensures r.Err? ==> Pattern(chars[from..]) == Err(r.error)
  {
    var pattern, i := "", from;
    hide PatternTo, Pattern;
    PatternStarts(chars, from);
    while true
      invariant from <= i <= |chars|
      invariant PatternTo(chars, from, i, pattern)
      decreases |chars| - i
    {
      PatternEnds(chars, from, i, pattern);
      if i == |chars| { return Err(UnterminatedRegex); }
      var ch := chars[i];
      if ch == '\\' {
        if i + 1 == |chars| { return Err(UnterminatedRegex); }
        PatternPair(chars, from, i, pattern);
        if chars[i + 1] != '/' { pattern := pattern + "\\"; }
        pattern := pattern + [chars[i + 1]];
        i := i + 2;
      } else if ch == '/' {
        return Ok((pattern, i + 1));
      } else {
        PatternPlain(chars, from, i, pattern);
        pattern := pattern + [ch];
        i := i + 1;
      }
    }
  }

  method ScanQuoted(quote: char, chars: string, from: nat) returns (r: Result<(string, nat), WhenError>)
    requires from <= |chars|
    ensures r.Ok? ==> UpTo(quote, chars[from..]) == Ok(r.value.0) && r.value.1 == from + |r.value.0| + 1
    ensures r.Err? ==> UpTo(quote, chars[from..]) == Err(r.error)
  {
    var s, i := "", from;
    BehindTextTwice("", "", UpTo(quote, chars[from..]));
    while true
      invariant from <= i <= |chars| && |s| == i - from
      invariant BehindText(s, UpTo(quote, chars[i..])) == UpTo(quote, chars[from..])
      decreases |chars| - i
    {
      if i == |chars| { return Err(UnterminatedString); }
      var ch := chars[i];
      DropDrop(chars, i, 1);
      i := i + 1;
      if ch == quote {
        assert s + "" == s;
        return Ok((s, i));
      }
      assert UpTo(quote, chars[i - 1..]) == BehindText([ch], UpTo(quote, chars[i..]));
      BehindTextTwice(s, [ch], UpTo(quote, chars[i..]));
      s := s + [ch];
    }
  }

  /** What a turn at `i` pushes and where it goes on agree with `x`. */
  predicate Agrees(r: Result<(seq<Token>, nat), WhenError>, i: nat, x: Result<Lexeme, WhenError>) {
    match x
    case Ok(x) => r == Ok((x.tokens, i + x.length))
    case Err(x) => r == Err(x)
  }

  method RegexTurn(chars: string, from: nat) returns (r: Result<(seq<Token>, nat), WhenError>)
    requires from <= |chars|
    ensures Agrees(r, from, LexRegex(chars[from..]))
  {
    hide RunLength, Pattern;
    ghost var s := chars[from..];
    var i := RunEnd(IsSpace, chars, from);
    if i == |chars| || chars[i] != '/' { return Err(RegexExpected); }
    DropDrop(chars, from, i - from + 1);
    var found :- ScanPattern(chars, i + 1);
    var pattern, j := found.0, found.1;
    DropDrop(chars, from, j - from);
    var k := RunEnd(IsFlag, chars, j);
    DropSlice(chars, from, j - from, k - from);
    return Ok(([Tilde, Regex(pattern, chars[j..k])], k));
  }

  method NextWordAt(letter: Letters, chars: string, at: nat, from: nat) returns (w: string)
    requires at <= from <= |chars| && from == at + RunLength(IsSpace, chars[at..])
    ensures w == NextWord(letter, chars[at..])
  {
    var to := RunEnd(InWord(letter), chars, from);
    DropDrop(chars, at, from - at);
    DropSlice(chars, from, 0, to - from);
    return chars[from..to];
  }

  method WordTurn(letter: Letters, chars: string, i: nat) returns (r: Result<(seq<Token>, nat), WhenError>)
    requires i < |chars| && IsWord(letter, chars[i])
    ensures Agrees(r, i, Ok(LexWord(letter, chars[i..])))
  {
    var word := InWord(letter);
    var j := RunEnd(word, chars, i);
    var w := chars[i..j];
    hide RunLength, NextWord, InWord, IsWord;
    DropSlice(chars, i, 0, j - i);
    DropDrop(chars, i, j - i);
    if w == "in" { return Ok(([Unsupported("in")], j)); }
    if w == "not" {
      var from := RunEnd(IsSpace, chars, j);
      var next := NextWordAt(letter, chars, j, from);
      if next == "in" { return Ok(([Unsupported("not in")], from + 2)); }
    }
    return Ok(([Word(w)], j));
  }

  /** One turn of the tokenizer's loop: what it pushes and where it goes on. */
  method Turn(letter: Letters, chars: string, i: nat) returns (r: Result<(seq<Token>, nat), WhenError>)
    requires i < |chars|
    ensures Agrees(r, i, LexOne(letter, chars[i..]))
  {
    hide LexRegex, LexWord, UpTo;
    var c, next, third := chars[i], CharAt(chars, i + 1), CharAt(chars, i + 2);
    assert chars[i..][0] == c && next == CharAt(chars[i..], 1) && third == CharAt(chars[i..], 2);
    if c == ' ' || c == '\t' || c == '\n' { return Ok(([], i + 1)); }
    if c == '(' || c == ')' { return Ok(([if c == '(' then LParen else RParen], i + 1)); }
    if c == '&' && next == Some('&') { return Ok(([AndAnd], i + 2)); }
    if c == '|' && next == Some('|') { return Ok(([OrOr], i + 2)); }
    if c == '=' && next == Some('=') { return Ok(([EqEq], i + if third == Some('=') then 3 else 2)); }
    if c == '=' && next == Some('~') {
      DropDrop(chars, i, 2);
      r := RegexTurn(chars, i + 2);
      return;
    }
    if c == '!' && next == Some('=') { return Ok(([BangEq], i + if third == Some('=') then 3 else 2)); }
    if c == '!' { return Ok(([Bang], i + 1)); }
    if c == '<' || c == '>' {
      var op := if next == Some('=') then [c, '='] else [c];
      return Ok(([Unsupported(op)], i + |op|));
    }
    if c == '\'' || c == '"' {
      DropDrop(chars, i, 1);
      var found :- ScanQuoted(c, chars, i + 1);
      return Ok(([Quoted(found.0)], found.1));
    }
    if IsWord(letter, c) {
      r := WordTurn(letter, chars, i);
      return;
    }
    return Err(UnexpectedChar(c));
  }

  /** With `i` characters read into `out`, what is left to read completes it. */
  ghost predicate LexedTo(letter: Letters, src: string, i: nat, out: seq<Token>) {
    i <= |src| && Then(out, Lex(letter, src[i..])) == Lex(letter, src)
  }

  lemma LexStart(letter: Letters, src: string)
    ensures LexedTo(letter, src, 0, [])
  {
    assert src[0..] == src;
    ThenThen([], [], Lex(letter, src));
  }

  lemma LexTurn(letter: Letters, src: string, i: nat, out: seq<Token>, toks: seq<Token>, j: nat)
    requires i < |src| && LexedTo(letter, src, i, out)
    requires Agrees(Ok((toks, j)), i, LexOne(letter, src[i..]))
    ensures i < j && LexedTo(letter, src, j, out + toks)
  {
    hide LexOne;
    DropDrop(src, i, j - i);
    ThenThen(out, toks, Lex(letter, src[j..]));
  }

  lemma LexStops(letter: Letters, src: string, i: nat, out: seq<Token>)
    requires LexedTo(letter, src, i, out)
    ensures i == |src| ==> Lex(letter, src) == Ok(out)
    ensures i < |src| && LexOne(letter, src[i..]).Err? ==> Lex(letter, src) == Err(LexOne(letter, src[i..]).error)
  {
    hide LexOne;
    assert out + [] == out;
  }

  method Tokens(letter: Letters, src: string) returns (r: Lexed)
    ensures r == Lex(letter, src)
  {
    var out: seq<Token> := [];
    var i := 0;
    LexStart(letter, src);
    hide Lex, LexOne, Then;
    while i < |src|
      invariant 0 <= i <= |src|
      invariant LexedTo(letter, src, i, out)
      decreases |src| - i
    {
      LexStops(letter, src, i, out);
      var turn :- Turn(letter, src, i);
      LexTurn(letter, src, i, out, turn.0, turn.1);
      out := out + turn.0;
      i := turn.1;
    }
    LexStops(letter, src, i, out);
    return Ok(out);
  }
}
