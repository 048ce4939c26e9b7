/** The parser as it runs: methods that call one another over one cursor. */
module WhenCursor {
  import opened Basics
  import opened WhenParser

  class Cursor {
    const engine: Engine
    const toks: seq<Token>
    var at: nat

    constructor (engine: Engine, toks: seq<Token>)
      ensures this.engine == engine && this.toks == toks && at == 0
    {
      this.engine, this.toks, at := engine, toks, 0;
    }

    /** The outcome `r`, and where it leaves the cursor, are `parsed`. */
    ghost predicate Is(r: Result<Expr, WhenError>, parsed: Parsed)
      reads this
    {
      match parsed
      case Ok((e, j)) => r == Ok(e) && at == j
      case Err(x) => r == Err(x)
    }

    method ParseOr() returns (r: Result<Expr, WhenError>)
      requires at <= |toks|
      modifies this
      ensures Is(r, WhenParser.ParseOr(engine, toks, old(at)))
      decreases |toks| - at, 3
    {
      var left :- ParseAnd();
      while Peek(toks, at) == Some(OrOr)
        invariant old(at) < at <= |toks|
        invariant OrRest(engine, toks, left, at) == WhenParser.ParseOr(engine, toks, old(at))
        decreases |toks| - at
      {
        at := at + 1;
        var right :- ParseAnd();
        left := Or(left, right);
      }
      return Ok(left);
    }

    method ParseAnd() returns (r: Result<Expr, WhenError>)
      requires at <= |toks|
      modifies this
      ensures Is(r, WhenParser.ParseAnd(engine, toks, old(at)))
      decreases |toks| - at, 2
    {
      var left :- ParseUnary();
      while Peek(toks, at) == Some(AndAnd)
        invariant old(at) < at <= |toks|
        invariant AndRest(engine, toks, left, at) == WhenParser.ParseAnd(engine, toks, old(at))
        decreases |toks| - at
      {
        at := at + 1;
        var right :- ParseUnary();
        left := And(left, right);
      }
      return Ok(left);
    }

    method ParseUnary() returns (r: Result<Expr, WhenError>)
      requires at <= |toks|
      modifies this
      ensures Is(r, WhenParser.ParseUnary(engine, toks, old(at)))
      decreases |toks| - at, 1
    {
      if Peek(toks, at) == Some(Bang) {
        at := at + 1;
        var x :- ParseUnary();
        return Ok(Not(x));
      }
      r := ParsePrimary();
    }

    /** The next token, if any; the cursor moves past it either way. */
    method Take() returns (t: Option<Token>)
      modifies this
      ensures t == Peek(toks, old(at)) && at == old(at) + 1
    {
      t := Peek(toks, at);
      at := at + 1;
    }

    method ParsePrimary() returns (r: Result<Expr, WhenError>)
      requires at <= |toks|
      modifies this
      ensures Is(r, WhenParser.ParsePrimary(engine, toks, old(at)))
      decreases |toks| - at, 0
    {
      var t := Take();
      if t == Some(LParen) {
        var inner :- ParseOr();
        var close := Take();
        if close != Some(RParen) { return Err(CloseExpected(close)); }
        return Ok(inner);
      }
      if t.None? || !t.value.Word? { return Err(KeyExpected(t)); }
      var v := t.value.v;
      if v == "true" || v == "false" { return Ok(Literal(v == "true")); }
      r := ParseComparison(v);
    }

    method ParseComparison(key: string) returns (r: Result<Expr, WhenError>)
      requires at <= |toks|
      modifies this
      ensures Is(r, WhenParser.ParseComparison(engine, toks, key, old(at)))
    {
      var op := Peek(toks, at);
      if op == Some(EqEq) || op == Some(BangEq) {
        at := at + 1;
        var v := Take();
        if v.None? || !(v.value.Word? || v.value.Quoted?) { return Err(ValueExpected(v)); }
        return Ok(Equals(key, WordValue(v.value), op == Some(EqEq)));
      }
      if op == Some(Tilde) {
        at := at + 1;
        var t := Take();
        if t.None? || !t.value.Regex? { return Err(RegexExpected); }
        return Compile(engine, key, t.value);
      }
      if op.Some? && op.value.Unsupported? { return Err(NotSupported(op.value.op)); }
      return Ok(Key(key));
    }

    method Parse() returns (r: Result<Expr, WhenError>)
      requires at == 0
      modifies this
      ensures r == WhenParser.Parse(engine, toks)
    {
      var e :- ParseOr();
      var rest := Take();
      if rest.Some? { return Err(UnexpectedToken(rest.value)); }
      return Ok(e);
    }
  }
}
