/**
 The `when` grammar: a recursive-descent parser over tokens with one shared
 cursor, against the grammar it is meant to accept (`!` tighter than `&&`,
 tighter than `||`, both left-associative).
 */
module WhenParser {
  import opened Basics

  datatype Value = Flag(flag: bool) | Text(text: string)

  datatype Expr =
    | Literal(value: bool)
    | Key(key: string)
    | Not(expr: Expr)
    | And(left: Expr, right: Expr)
    | Or(left: Expr, right: Expr)
    | Equals(key: string, to: Value, equal: bool)
    | Matches(key: string, pattern: string, flags: string)

  datatype Token =
    | LParen | RParen | Bang | AndAnd | OrOr | EqEq | BangEq | Tilde
    | Unsupported(op: string)
    | Word(v: string)
    | Quoted(v: string)
    | Regex(pattern: string, flags: string)

  datatype WhenError =
    | UnexpectedChar(c: char) | RegexExpected | UnterminatedRegex | UnterminatedString
    | KeyExpected(found: Option<Token>) | CloseExpected(found: Option<Token>) | ValueExpected(found: Option<Token>)
    | NotSupported(op: string) | BadFlag(flag: char) | BadPattern | UnexpectedToken(rest: Token)

  type Parsed = Result<(Expr, nat), WhenError>

  /** Whether a pattern with flags is a regular expression, as the host's engine has it. */
  type Engine = (string, string) -> bool

  function BadFlags(flags: string): string {
    if flags == [] then [] else (if flags[0] in "ims" then [] else [flags[0]]) + BadFlags(flags[1..])
  }

  /** The flags a regular expression may have here. */
  predicate GoodFlags(flags: string) { forall c | c in flags :: c == 'i' || c == 'm' || c == 's' }

  lemma {:induction false} NoneBadIff(flags: string)
    ensures BadFlags(flags) == [] <==> GoodFlags(flags)
  {
    if flags != [] {
      var c, rest := flags[0], flags[1..];
      NoneBadIff(rest);
      assert flags == [c] + rest;
      assert forall x :: x in flags <==> x == c || x in rest;
      assert c in "ims" <==> c == 'i' || c == 'm' || c == 's';
      if c in "ims" {
        assert BadFlags(flags) == [] + BadFlags(rest) == BadFlags(rest);
      } else {
        assert BadFlags(flags)[0] == c;
      }
    }
  }

  function Compile(engine: Engine, key: string, r: Token): Result<Expr, WhenError>
    requires r.Regex?
  {
    var bad := BadFlags(r.flags);
    if bad != [] then Err(BadFlag(bad[0]))
    else if engine(r.pattern, r.flags) then Ok(Matches(key, r.pattern, r.flags))
    else Err(BadPattern)
  }

  function Peek(toks: seq<Token>, i: nat): Option<Token> {
    if i < |toks| then Some(toks[i]) else None
  }

  function WordValue(t: Token): Value
    requires t.Word? || t.Quoted?
  {
    if t == Word("true") then Flag(true) else if t == Word("false") then Flag(false) else Text(t.v)
  }

  // ---- The parser as functions of where it starts

  function ParseValue(toks: seq<Token>, key: string, equal: bool, i: nat): (r: Parsed)
    ensures r.Ok? ==> i < r.value.1 <= |toks|
  {
    if i < |toks| && (toks[i].Word? || toks[i].Quoted?) then Ok((Equals(key, WordValue(toks[i]), equal), i + 1))
    else Err(ValueExpected(Peek(toks, i)))
  }

  function ParseComparison(engine: Engine, toks: seq<Token>, key: string, i: nat): (r: Parsed)
    requires i <= |toks|
    ensures r.Ok? ==> i <= r.value.1 <= |toks|
  {
    match Peek(toks, i)
    case Some(EqEq) => ParseValue(toks, key, true, i + 1)
    case Some(BangEq) => ParseValue(toks, key, false, i + 1)
    case Some(Tilde) =>
      if i + 1 < |toks| && toks[i + 1].Regex? then
        match Compile(engine, key, toks[i + 1])
        case Ok(e) => Ok((e, i + 2))
        case Err(x) => Err(x)
      else Err(RegexExpected)
    case Some(Unsupported(op)) => Err(NotSupported(op))
    case _ => Ok((Key(key), i))
  }

  function ParsePrimary(engine: Engine, toks: seq<Token>, i: nat): (r: Parsed)
    requires i <= |toks|
    ensures r.Ok? ==> i < r.value.1 <= |toks|
    decreases |toks| - i, 0
  {
    match Peek(toks, i)
    case Some(LParen) =>
      (match ParseOr(engine, toks, i + 1)
       case Ok((inner, j)) =>
         if Peek(toks, j) == Some(RParen) then Ok((inner, j + 1)) else Err(CloseExpected(Peek(toks, j)))
       case Err(x) => Err(x))
    case Some(Word(v)) =>
      if v == "true" || v == "false" then Ok((Literal(v == "true"), i + 1))
      else ParseComparison(engine, toks, v, i + 1)
    case other => Err(KeyExpected(other))
  }

  function ParseUnary(engine: Engine, toks: seq<Token>, i: nat): (r: Parsed)
    requires i <= |toks|
    ensures r.Ok? ==> i < r.value.1 <= |toks|
    decreases |toks| - i, 1
  {
    if Peek(toks, i) == Some(Bang) then
      match ParseUnary(engine, toks, i + 1)
      case Ok((x, j)) => Ok((Not(x), j))
      case Err(x) => Err(x)
    else ParsePrimary(engine, toks, i)
  }

  function AndRest(engine: Engine, toks: seq<Token>, left: Expr, i: nat): (r: Parsed)
    requires i <= |toks|
    ensures r.Ok? ==> i <= r.value.1 <= |toks|
    decreases |toks| - i, 2
  {
    if Peek(toks, i) != Some(AndAnd) then Ok((left, i))
    else match ParseUnary(engine, toks, i + 1)
         case Ok((right, j)) => AndRest(engine, toks, And(left, right), j)
         case Err(x) => Err(x)
  }

  function ParseAnd(engine: Engine, toks: seq<Token>, i: nat): (r: Parsed)
    requires i <= |toks|
    ensures r.Ok? ==> i < r.value.1 <= |toks|
    decreases |toks| - i, 3
  {
    match ParseUnary(engine, toks, i)
    case Ok((left, j)) => AndRest(engine, toks, left, j)
    case Err(x) => Err(x)
  }

  function OrRest(engine: Engine, toks: seq<Token>, left: Expr, i: nat): (r: Parsed)
    requires i <= |toks|
    ensures r.Ok? ==> i <= r.value.1 <= |toks|
    decreases |toks| - i, 4
  {
    if Peek(toks, i) != Some(OrOr) then Ok((left, i))
    else match ParseAnd(engine, toks, i + 1)
         case Ok((right, j)) => OrRest(engine, toks, Or(left, right), j)
         case Err(x) => Err(x)
  }

  function ParseOr(engine: Engine, toks: seq<Token>, i: nat): (r: Parsed)
    requires i <= |toks|
    ensures r.Ok? ==> i < r.value.1 <= |toks|
    decreases |toks| - i, 5
  {
    match ParseAnd(engine, toks, i)
    case Ok((left, j)) => OrRest(engine, toks, left, j)
    case Err(x) => Err(x)
  }

  function Parse(engine: Engine, toks: seq<Token>): Result<Expr, WhenError> {
    match ParseOr(engine, toks, 0)
    case Ok((e, i)) => if i < |toks| then Err(UnexpectedToken(toks[i])) else Ok(e)
    case Err(x) => Err(x)
  }

  // ---- The grammar: tokens `i` up to `j` say `e`

  predicate IsKey(t: Token) { t.Word? && t.v != "true" && t.v != "false" }

  /** What a token on the right of `==` or `!=` stands for. */
  predicate SaysValue(t: Token, value: Value) {
    match value
    case Flag(flag) => t == Word(if flag then "true" else "false")
    case Text(text) => t == Quoted(text) || (t == Word(text) && text != "true" && text != "false")
  }

  predicate SaysAtom(engine: Engine, s: seq<Token>, e: Expr) {
    match e
    case Literal(value) => s == [Word(if value then "true" else "false")]
    case Key(key) => s == [Word(key)] && IsKey(s[0])
    case Equals(key, to, equal) =>
      && |s| == 3 && s[0] == Word(key) && IsKey(s[0]) && s[1] == (if equal then EqEq else BangEq)
      && SaysValue(s[2], to)
    case Matches(key, pattern, flags) =>
      && |s| == 3 && s[0] == Word(key) && IsKey(s[0]) && s[1] == Tilde && s[2] == Regex(pattern, flags)
      && GoodFlags(flags) && engine(pattern, flags)
    case _ => false
  }

  ghost predicate SaysPrimary(engine: Engine, toks: seq<Token>, i: nat, j: nat, e: Expr)
    requires i <= j <= |toks|
    decreases j - i, 0
  {
    || SaysAtom(engine, toks[i..j], e)
    || (i + 2 <= j && toks[i] == LParen && toks[j - 1] == RParen && SaysOr(engine, toks, i + 1, j - 1, e))
  }

  ghost predicate SaysUnary(engine: Engine, toks: seq<Token>, i: nat, j: nat, e: Expr)
    requires i <= j <= |toks|
    decreases j - i, 1
  {
    || SaysPrimary(engine, toks, i, j, e)
    || (e.Not? && i < j && toks[i] == Bang && SaysUnary(engine, toks, i + 1, j, e.expr))
  }

  ghost predicate SaysAnd(engine: Engine, toks: seq<Token>, i: nat, j: nat, e: Expr)
    requires i <= j <= |toks|
    decreases j - i, 2
  {
    || SaysUnary(engine, toks, i, j, e)
    || (e.And? && exists k {:trigger toks[k]} ::
          && i <= k < j && toks[k] == AndAnd
          && SaysAnd(engine, toks, i, k, e.left) && SaysUnary(engine, toks, k + 1, j, e.right))
  }

  ghost predicate SaysOr(engine: Engine, toks: seq<Token>, i: nat, j: nat, e: Expr)
    requires i <= j <= |toks|
    decreases j - i, 3
  {
    || SaysAnd(engine, toks, i, j, e)
    || (e.Or? && exists k {:trigger toks[k]} ::
          && i <= k < j && toks[k] == OrOr
          && SaysOr(engine, toks, i, k, e.left) && SaysAnd(engine, toks, k + 1, j, e.right))
  }

  // ---- What is accepted derives what is returned

  lemma {:induction false} PrimaryIsSound(engine: Engine, toks: seq<Token>, i: nat)
    requires i <= |toks| && ParsePrimary(engine, toks, i).Ok?
    ensures var (e, j) := ParsePrimary(engine, toks, i).value; SaysPrimary(engine, toks, i, j, e)
    decreases |toks| - i, 0
  {
    if Peek(toks, i) == Some(LParen) {
      OrIsSound(engine, toks, i + 1);
    } else {
      var (e, j) := ParsePrimary(engine, toks, i).value;
      if e.Matches? { NoneBadIff(e.flags); }
      assert SaysAtom(engine, toks[i..j], e);
    }
  }

  lemma {:induction false} UnaryIsSound(engine: Engine, toks: seq<Token>, i: nat)
    requires i <= |toks| && ParseUnary(engine, toks, i).Ok?
    ensures var (e, j) := ParseUnary(engine, toks, i).value; SaysUnary(engine, toks, i, j, e)
    decreases |toks| - i, 1
  {
    if Peek(toks, i) == Some(Bang) {
      UnaryIsSound(engine, toks, i + 1);
    } else {
      PrimaryIsSound(engine, toks, i);
    }
  }

  lemma {:induction false} AndRestIsSound(engine: Engine, toks: seq<Token>, i: nat, left: Expr, k: nat)
    requires i < k <= |toks| && SaysAnd(engine, toks, i, k, left) && AndRest(engine, toks, left, k).Ok?
    ensures var (e, j) := AndRest(engine, toks, left, k).value; SaysAnd(engine, toks, i, j, e)
    decreases |toks| - k, 2
  {
    if Peek(toks, k) == Some(AndAnd) {
      UnaryIsSound(engine, toks, k + 1);
      var (right, j) := ParseUnary(engine, toks, k + 1).value;
      assert toks[k] == AndAnd;
      assert SaysAnd(engine, toks, i, j, And(left, right));
      AndRestIsSound(engine, toks, i, And(left, right), j);
    }
  }

  lemma {:induction false} AndIsSound(engine: Engine, toks: seq<Token>, i: nat)
    requires i <= |toks| && ParseAnd(engine, toks, i).Ok?
    ensures var (e, j) := ParseAnd(engine, toks, i).value; SaysAnd(engine, toks, i, j, e)
    decreases |toks| - i, 3
  {
    UnaryIsSound(engine, toks, i);
    var (left, j) := ParseUnary(engine, toks, i).value;
    AndRestIsSound(engine, toks, i, left, j);
  }

  lemma {:induction false} OrRestIsSound(engine: Engine, toks: seq<Token>, i: nat, left: Expr, k: nat)
    requires i < k <= |toks| && SaysOr(engine, toks, i, k, left) && OrRest(engine, toks, left, k).Ok?
    ensures var (e, j) := OrRest(engine, toks, left, k).value; SaysOr(engine, toks, i, j, e)
    decreases |toks| - k, 4
  {
    if Peek(toks, k) == Some(OrOr) {
      AndIsSound(engine, toks, k + 1);
      var (right, j) := ParseAnd(engine, toks, k + 1).value;
      assert toks[k] == OrOr;
      assert SaysOr(engine, toks, i, j, Or(left, right));
      OrRestIsSound(engine, toks, i, Or(left, right), j);
    }
  }

  lemma {:induction false} OrIsSound(engine: Engine, toks: seq<Token>, i: nat)
    requires i <= |toks| && ParseOr(engine, toks, i).Ok?
    ensures var (e, j) := ParseOr(engine, toks, i).value; SaysOr(engine, toks, i, j, e)
    decreases |toks| - i, 5
  {
    AndIsSound(engine, toks, i);
    var (left, j) := ParseAnd(engine, toks, i).value;
    OrRestIsSound(engine, toks, i, left, j);
  }

  // ---- What derives is accepted, and returned

  /** The next token cannot go on with a comparison. */
  predicate AfterAtom(toks: seq<Token>, j: nat) {
    j < |toks| ==> !(toks[j].EqEq? || toks[j].BangEq? || toks[j].Tilde? || toks[j].Unsupported?)
  }

  lemma {:induction false} PrimaryIsComplete(engine: Engine, toks: seq<Token>, i: nat, j: nat, e: Expr)
    requires i <= j <= |toks| && SaysPrimary(engine, toks, i, j, e) && AfterAtom(toks, j)
    ensures ParsePrimary(engine, toks, i) == Ok((e, j)) && Peek(toks, i) != Some(Bang)
    decreases j - i, 0
  {
    if SaysAtom(engine, toks[i..j], e) {
      assert toks[i] == toks[i..j][0];
      if e.Matches? { NoneBadIff(e.flags); }
      if j == i + 3 { assert toks[i + 1] == toks[i..j][1] && toks[i + 2] == toks[i..j][2]; }
    } else {
      OrIsComplete(engine, toks, i + 1, j - 1, e);
    }
  }

  lemma {:induction false} UnaryIsComplete(engine: Engine, toks: seq<Token>, i: nat, j: nat, e: Expr)
    requires i <= j <= |toks| && SaysUnary(engine, toks, i, j, e) && AfterAtom(toks, j)
    ensures ParseUnary(engine, toks, i) == Ok((e, j))
    decreases j - i, 1
  {
    if SaysPrimary(engine, toks, i, j, e) {
      PrimaryIsComplete(engine, toks, i, j, e);
    } else {
      UnaryIsComplete(engine, toks, i + 1, j, e.expr);
    }
  }

  lemma {:induction false} AndIsComplete(engine: Engine, toks: seq<Token>, i: nat, j: nat, e: Expr)
    requires i <= j <= |toks| && SaysAnd(engine, toks, i, j, e) && AfterAtom(toks, j)
    ensures ParseAnd(engine, toks, i) == AndRest(engine, toks, e, j)
    decreases j - i, 2
  {
    if SaysUnary(engine, toks, i, j, e) {
      UnaryIsComplete(engine, toks, i, j, e);
    } else {
      var k :| i <= k < j && toks[k] == AndAnd
               && SaysAnd(engine, toks, i, k, e.left) && SaysUnary(engine, toks, k + 1, j, e.right);
      AndIsComplete(engine, toks, i, k, e.left);
      UnaryIsComplete(engine, toks, k + 1, j, e.right);
    }
  }

  lemma {:induction false} OrIsComplete(engine: Engine, toks: seq<Token>, i: nat, j: nat, e: Expr)
    requires i <= j <= |toks| && SaysOr(engine, toks, i, j, e)
    requires AfterAtom(toks, j) && Peek(toks, j) != Some(AndAnd)
    ensures ParseOr(engine, toks, i) == OrRest(engine, toks, e, j)
    decreases j - i, 3
  {
    if SaysAnd(engine, toks, i, j, e) {
      AndIsComplete(engine, toks, i, j, e);
    } else {
      var k :| i <= k < j && toks[k] == OrOr
               && SaysOr(engine, toks, i, k, e.left) && SaysAnd(engine, toks, k + 1, j, e.right);
      OrIsComplete(engine, toks, i, k, e.left);
      AndIsComplete(engine, toks, k + 1, j, e.right);
    }
  }

  /** The parser accepts exactly the grammar, and returns what the tokens say. */
  lemma ParsesExactlyTheGrammar(engine: Engine, toks: seq<Token>, e: Expr)
    ensures Parse(engine, toks) == Ok(e) <==> SaysOr(engine, toks, 0, |toks|, e)
  {
    if Parse(engine, toks) == Ok(e) { OrIsSound(engine, toks, 0); }
    if SaysOr(engine, toks, 0, |toks|, e) { OrIsComplete(engine, toks, 0, |toks|, e); }
  }

  /** No token list says two things. */
  lemma GrammarIsUnambiguous(engine: Engine, toks: seq<Token>, e: Expr, e': Expr)
    requires SaysOr(engine, toks, 0, |toks|, e) && SaysOr(engine, toks, 0, |toks|, e')
    ensures e == e'
  {
    ParsesExactlyTheGrammar(engine, toks, e);
    ParsesExactlyTheGrammar(engine, toks, e');
  }
}
