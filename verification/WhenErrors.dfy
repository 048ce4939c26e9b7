/**
 Where a token list stops being the start of an expression, and that the parser's error
 is about the token there.
 */
module WhenErrors {
  import opened Basics
  import opened WhenParser

  // ---- What the parser has looked at

  /** Past these an expression does not go on: the end, or a closing parenthesis. */
  predicate Stops(t: Option<Token>) { t == None || t == Some(RParen) }

  /** `s` and `t` are the same up to `j`, and there too, or `t` stops there. */
  ghost predicate SameTo(s: seq<Token>, t: seq<Token>, j: nat) {
    j <= |s| && j <= |t| && s[..j] == t[..j] && (Peek(t, j) == Peek(s, j) || Stops(Peek(t, j)))
  }

  lemma SameAt(s: seq<Token>, t: seq<Token>, i: nat, j: nat)
    requires SameTo(s, t, j) && i < j
    ensures SameTo(s, t, i) && Peek(s, i) == Peek(t, i) && s[i] == t[i]
  {
    assert s[i] == s[..j][i] && t[i] == t[..j][i];
    assert s[..i] == s[..j][..i] && t[..i] == t[..j][..i];
  }

  lemma ComparisonSame(engine: Engine, s: seq<Token>, t: seq<Token>, key: string, i: nat)
    requires i <= |s| && ParseComparison(engine, s, key, i).Ok?
    requires SameTo(s, t, ParseComparison(engine, s, key, i).value.1)
    ensures i <= |t| && ParseComparison(engine, t, key, i) == ParseComparison(engine, s, key, i)
  {
    var j := ParseComparison(engine, s, key, i).value.1;
    if i < j {
      SameAt(s, t, i, j);
      SameAt(s, t, i + 1, j);
    }
  }

  lemma {:induction false} PrimarySame(engine: Engine, s: seq<Token>, t: seq<Token>, i: nat)
    requires i <= |s| && ParsePrimary(engine, s, i).Ok? && SameTo(s, t, ParsePrimary(engine, s, i).value.1)
    ensures i <= |t| && ParsePrimary(engine, t, i) == ParsePrimary(engine, s, i)
    decreases |s| - i, 0
  {
    var (e, j) := ParsePrimary(engine, s, i).value;
    SameAt(s, t, i, j);
    if s[i] == LParen {
      SameAt(s, t, j - 1, j);
      OrSame(engine, s, t, i + 1);
    } else if s[i].v != "true" && s[i].v != "false" {
      ComparisonSame(engine, s, t, s[i].v, i + 1);
    }
  }

  lemma {:induction false} UnarySame(engine: Engine, s: seq<Token>, t: seq<Token>, i: nat)
    requires i <= |s| && ParseUnary(engine, s, i).Ok? && SameTo(s, t, ParseUnary(engine, s, i).value.1)
    ensures i <= |t| && ParseUnary(engine, t, i) == ParseUnary(engine, s, i)
    decreases |s| - i, 1
  {
    SameAt(s, t, i, ParseUnary(engine, s, i).value.1);
    if s[i] == Bang { UnarySame(engine, s, t, i + 1); } else { PrimarySame(engine, s, t, i); }
  }

  lemma {:induction false} AndRestSame(engine: Engine, s: seq<Token>, t: seq<Token>, left: Expr, i: nat)
    requires i <= |s| && AndRest(engine, s, left, i).Ok? && SameTo(s, t, AndRest(engine, s, left, i).value.1)
    ensures i <= |t| && AndRest(engine, t, left, i) == AndRest(engine, s, left, i)
    decreases |s| - i, 2
  {
    var j := AndRest(engine, s, left, i).value.1;
    if Peek(s, i) == Some(AndAnd) {
      var (right, k) := ParseUnary(engine, s, i + 1).value;
      SameAt(s, t, i, j);
      if k < j { SameAt(s, t, k, j); }
      UnarySame(engine, s, t, i + 1);
      AndRestSame(engine, s, t, And(left, right), k);
    }
  }

  lemma {:induction false} AndSame(engine: Engine, s: seq<Token>, t: seq<Token>, i: nat)
    requires i <= |s| && ParseAnd(engine, s, i).Ok? && SameTo(s, t, ParseAnd(engine, s, i).value.1)
    ensures i <= |t| && ParseAnd(engine, t, i) == ParseAnd(engine, s, i)
    decreases |s| - i, 3
  {
    var j := ParseAnd(engine, s, i).value.1;
    var (left, k) := ParseUnary(engine, s, i).value;
    if k < j { SameAt(s, t, k, j); }
    UnarySame(engine, s, t, i);
    AndRestSame(engine, s, t, left, k);
  }

  lemma {:induction false} OrRestSame(engine: Engine, s: seq<Token>, t: seq<Token>, left: Expr, i: nat)
    requires i <= |s| && OrRest(engine, s, left, i).Ok? && SameTo(s, t, OrRest(engine, s, left, i).value.1)
    ensures i <= |t| && OrRest(engine, t, left, i) == OrRest(engine, s, left, i)
    decreases |s| - i, 4
  {
    var j := OrRest(engine, s, left, i).value.1;
    if Peek(s, i) == Some(OrOr) {
      var (right, k) := ParseAnd(engine, s, i + 1).value;
      SameAt(s, t, i, j);
      if k < j { SameAt(s, t, k, j); }
      AndSame(engine, s, t, i + 1);
      OrRestSame(engine, s, t, Or(left, right), k);
    }
  }

  lemma {:induction false} OrSame(engine: Engine, s: seq<Token>, t: seq<Token>, i: nat)
    requires i <= |s| && ParseOr(engine, s, i).Ok? && SameTo(s, t, ParseOr(engine, s, i).value.1)
    ensures i <= |t| && ParseOr(engine, t, i) == ParseOr(engine, s, i)
    decreases |s| - i, 5
  {
    var j := ParseOr(engine, s, i).value.1;
    var (left, k) := ParseAnd(engine, s, i).value;
    if k < j { SameAt(s, t, k, j); }
    AndSame(engine, s, t, i);
    OrRestSame(engine, s, t, left, k);
  }

  // ---- Where the parser stops

  ghost function ComparisonStop(engine: Engine, toks: seq<Token>, key: string, i: nat): nat
    requires i <= |toks| && ParseComparison(engine, toks, key, i).Err?
  {
    if Peek(toks, i).value.Unsupported? then i else i + 1
  }

  ghost function PrimaryStop(engine: Engine, toks: seq<Token>, i: nat): nat
    requires i <= |toks| && ParsePrimary(engine, toks, i).Err?
    decreases |toks| - i, 0
  {
    match Peek(toks, i)
    case Some(LParen) =>
      (match ParseOr(engine, toks, i + 1)
       case Ok((_, j)) => j
       case Err(_) => OrStop(engine, toks, i + 1))
    case Some(Word(v)) => ComparisonStop(engine, toks, v, i + 1)
    case _ => i
  }

  ghost function UnaryStop(engine: Engine, toks: seq<Token>, i: nat): nat
    requires i <= |toks| && ParseUnary(engine, toks, i).Err?
    decreases |toks| - i, 1
  {
    if Peek(toks, i) == Some(Bang) then UnaryStop(engine, toks, i + 1) else PrimaryStop(engine, toks, i)
  }

  ghost function AndRestStop(engine: Engine, toks: seq<Token>, left: Expr, i: nat): nat
    requires i <= |toks| && AndRest(engine, toks, left, i).Err?
    decreases |toks| - i, 2
  {
    match ParseUnary(engine, toks, i + 1)
    case Ok((right, j)) => AndRestStop(engine, toks, And(left, right), j)
    case Err(_) => UnaryStop(engine, toks, i + 1)
  }

  ghost function AndStop(engine: Engine, toks: seq<Token>, i: nat): nat
    requires i <= |toks| && ParseAnd(engine, toks, i).Err?
    decreases |toks| - i, 3
  {
    match ParseUnary(engine, toks, i)
    case Ok((left, j)) => AndRestStop(engine, toks, left, j)
    case Err(_) => UnaryStop(engine, toks, i)
  }

  ghost function OrRestStop(engine: Engine, toks: seq<Token>, left: Expr, i: nat): nat
    requires i <= |toks| && OrRest(engine, toks, left, i).Err?
    decreases |toks| - i, 4
  {
    match ParseAnd(engine, toks, i + 1)
    case Ok((right, j)) => OrRestStop(engine, toks, Or(left, right), j)
    case Err(_) => AndStop(engine, toks, i + 1)
  }

  ghost function OrStop(engine: Engine, toks: seq<Token>, i: nat): nat
    requires i <= |toks| && ParseOr(engine, toks, i).Err?
    decreases |toks| - i, 5
  {
    match ParseAnd(engine, toks, i)
    case Ok((left, j)) => OrRestStop(engine, toks, left, j)
    case Err(_) => AndStop(engine, toks, i)
  }

  // ---- What the error says of the token there

  /** After this an expression is to come. */
  predicate CallsForKey(t: Token) { t == LParen || t == Bang || t == AndAnd || t == OrOr }

  /** With this an expression may end. */
  predicate EndsExpr(t: Token) { t.Word? || t.Quoted? || t.Regex? || t == RParen }

  /** The first bad flag is `c`. */
  ghost predicate IsFirstBad(flags: string, c: char) {
    exists n: nat :: n < |flags| && flags[n] == c && !GoodFlags([c]) && GoodFlags(flags[..n])
  }

  /** `x` is about the token at `k`, or the end, after what comes before it. */
  ghost predicate Fits(engine: Engine, toks: seq<Token>, k: nat, x: WhenError) {
    && k <= |toks|
    && match x
       case KeyExpected(found) => found == Peek(toks, k) && (k == 0 || CallsForKey(toks[k - 1]))
       case ValueExpected(found) =>
         found == Peek(toks, k) && k > 0 && (toks[k - 1] == EqEq || toks[k - 1] == BangEq)
       case CloseExpected(found) => found == Peek(toks, k) && k > 0 && EndsExpr(toks[k - 1])
       case NotSupported(op) => Peek(toks, k) == Some(Unsupported(op)) && k > 0 && toks[k - 1].Word?
       case RegexExpected => k > 0 && toks[k - 1] == Tilde && !(k < |toks| && toks[k].Regex?)
       case BadFlag(c) => k > 0 && toks[k - 1] == Tilde && k < |toks| && toks[k].Regex? && IsFirstBad(toks[k].flags, c)
       case BadPattern =>
         && k > 0 && toks[k - 1] == Tilde && k < |toks| && toks[k].Regex?
         && GoodFlags(toks[k].flags) && !engine(toks[k].pattern, toks[k].flags)
       case _ => false
  }

  lemma {:induction false} FirstBad(flags: string)
    requires BadFlags(flags) != []
    ensures IsFirstBad(flags, BadFlags(flags)[0])
  {
    var c, rest := flags[0], flags[1..];
    if c in "ims" {
      assert BadFlags(flags) == [] + BadFlags(rest) == BadFlags(rest);
      FirstBad(rest);
      var n: nat :| n < |rest| && rest[n] == BadFlags(rest)[0] && !GoodFlags([rest[n]]) && GoodFlags(rest[..n]);
      assert flags[..n + 1] == [c] + rest[..n] && flags[n + 1] == rest[n];
      assert c == 'i' || c == 'm' || c == 's';
    } else {
      assert BadFlags(flags)[0] == c && flags[..0] == [];
      assert c in [c];
    }
  }

  lemma ComparisonFits(engine: Engine, toks: seq<Token>, key: string, i: nat)
    requires 0 < i <= |toks| && ParseComparison(engine, toks, key, i).Err? && toks[i - 1].Word?
    ensures var k := ComparisonStop(engine, toks, key, i);
            i <= k <= |toks| && Fits(engine, toks, k, ParseComparison(engine, toks, key, i).error)
  {
    if toks[i] == Tilde && i + 1 < |toks| && toks[i + 1].Regex? {
      var flags := toks[i + 1].flags;
      NoneBadIff(flags);
      if BadFlags(flags) != [] { FirstBad(flags); }
    }
  }

  lemma ComparisonEnds(engine: Engine, toks: seq<Token>, key: string, i: nat)
    requires 0 < i <= |toks| && ParseComparison(engine, toks, key, i).Ok? && toks[i - 1].Word?
    ensures EndsExpr(toks[ParseComparison(engine, toks, key, i).value.1 - 1])
  {}

  lemma PrimaryEnds(engine: Engine, toks: seq<Token>, i: nat)
    requires i <= |toks| && ParsePrimary(engine, toks, i).Ok?
    ensures EndsExpr(toks[ParsePrimary(engine, toks, i).value.1 - 1])
  {
    if toks[i].Word? && toks[i].v != "true" && toks[i].v != "false" {
      ComparisonEnds(engine, toks, toks[i].v, i + 1);
    }
  }

  lemma {:induction false} UnaryEnds(engine: Engine, toks: seq<Token>, i: nat)
    requires i <= |toks| && ParseUnary(engine, toks, i).Ok?
    ensures EndsExpr(toks[ParseUnary(engine, toks, i).value.1 - 1])
    decreases |toks| - i
  {
    if toks[i] == Bang { UnaryEnds(engine, toks, i + 1); } else { PrimaryEnds(engine, toks, i); }
  }

  lemma {:induction false} AndRestEnds(engine: Engine, toks: seq<Token>, left: Expr, i: nat)
    requires 0 < i <= |toks| && AndRest(engine, toks, left, i).Ok? && EndsExpr(toks[i - 1])
    ensures EndsExpr(toks[AndRest(engine, toks, left, i).value.1 - 1])
    decreases |toks| - i
  {
    if Peek(toks, i) == Some(AndAnd) {
      var (right, j) := ParseUnary(engine, toks, i + 1).value;
      UnaryEnds(engine, toks, i + 1);
      AndRestEnds(engine, toks, And(left, right), j);
    }
  }

  lemma AndEnds(engine: Engine, toks: seq<Token>, i: nat)
    requires i <= |toks| && ParseAnd(engine, toks, i).Ok?
    ensures EndsExpr(toks[ParseAnd(engine, toks, i).value.1 - 1])
  {
    var (left, j) := ParseUnary(engine, toks, i).value;
    UnaryEnds(engine, toks, i);
    AndRestEnds(engine, toks, left, j);
  }

  lemma {:induction false} OrRestEnds(engine: Engine, toks: seq<Token>, left: Expr, i: nat)
    requires 0 < i <= |toks| && OrRest(engine, toks, left, i).Ok? && EndsExpr(toks[i - 1])
    ensures EndsExpr(toks[OrRest(engine, toks, left, i).value.1 - 1])
    decreases |toks| - i
  {
    if Peek(toks, i) == Some(OrOr) {
      var (right, j) := ParseAnd(engine, toks, i + 1).value;
      AndEnds(engine, toks, i + 1);
      OrRestEnds(engine, toks, Or(left, right), j);
    }
  }

  lemma OrEnds(engine: Engine, toks: seq<Token>, i: nat)
    requires i <= |toks| && ParseOr(engine, toks, i).Ok?
    ensures EndsExpr(toks[ParseOr(engine, toks, i).value.1 - 1])
  {
    var (left, j) := ParseAnd(engine, toks, i).value;
    AndEnds(engine, toks, i);
    OrRestEnds(engine, toks, left, j);
  }

  lemma {:induction false} PrimaryFits(engine: Engine, toks: seq<Token>, i: nat)
    requires i <= |toks| && ParsePrimary(engine, toks, i).Err? && (i == 0 || CallsForKey(toks[i - 1]))
    ensures var k := PrimaryStop(engine, toks, i);
            i <= k <= |toks| && Fits(engine, toks, k, ParsePrimary(engine, toks, i).error)
    decreases |toks| - i, 0
  {
    match Peek(toks, i)
    case Some(LParen) =>
      if ParseOr(engine, toks, i + 1).Ok? { OrEnds(engine, toks, i + 1); } else { OrFits(engine, toks, i + 1); }
    case Some(Word(v)) => ComparisonFits(engine, toks, v, i + 1);
    case _ =>
  }

  lemma {:induction false} UnaryFits(engine: Engine, toks: seq<Token>, i: nat)
    requires i <= |toks| && ParseUnary(engine, toks, i).Err? && (i == 0 || CallsForKey(toks[i - 1]))
    ensures var k := UnaryStop(engine, toks, i);
            i <= k <= |toks| && Fits(engine, toks, k, ParseUnary(engine, toks, i).error)
    decreases |toks| - i, 1
  {
    hide Fits;
    if Peek(toks, i) == Some(Bang) { UnaryFits(engine, toks, i + 1); } else { PrimaryFits(engine, toks, i); }
  }

  lemma {:induction false} AndRestFits(engine: Engine, toks: seq<Token>, left: Expr, i: nat)
    requires i <= |toks| && AndRest(engine, toks, left, i).Err?
    ensures var k := AndRestStop(engine, toks, left, i);
            i < k <= |toks| && Fits(engine, toks, k, AndRest(engine, toks, left, i).error)
    decreases |toks| - i, 2
  {
    hide Fits;
    match ParseUnary(engine, toks, i + 1)
    case Ok((right, j)) => AndRestFits(engine, toks, And(left, right), j);
    case Err(_) => UnaryFits(engine, toks, i + 1);
  }

  lemma {:induction false} AndFits(engine: Engine, toks: seq<Token>, i: nat)
    requires i <= |toks| && ParseAnd(engine, toks, i).Err? && (i == 0 || CallsForKey(toks[i - 1]))
    ensures var k := AndStop(engine, toks, i);
            i <= k <= |toks| && Fits(engine, toks, k, ParseAnd(engine, toks, i).error)
    decreases |toks| - i, 3
  {
    hide Fits;
    match ParseUnary(engine, toks, i)
    case Ok((left, j)) => AndRestFits(engine, toks, left, j);
    case Err(_) => UnaryFits(engine, toks, i);
  }

  lemma {:induction false} OrRestFits(engine: Engine, toks: seq<Token>, left: Expr, i: nat)
    requires i <= |toks| && OrRest(engine, toks, left, i).Err?
    ensures var k := OrRestStop(engine, toks, left, i);
            i < k <= |toks| && Fits(engine, toks, k, OrRest(engine, toks, left, i).error)
    decreases |toks| - i, 4
  {
    hide Fits;
    match ParseAnd(engine, toks, i + 1)
    case Ok((right, j)) => OrRestFits(engine, toks, Or(left, right), j);
    case Err(_) => AndFits(engine, toks, i + 1);
  }

  lemma {:induction false} OrFits(engine: Engine, toks: seq<Token>, i: nat)
    requires i <= |toks| && ParseOr(engine, toks, i).Err? && (i == 0 || CallsForKey(toks[i - 1]))
    ensures var k := OrStop(engine, toks, i);
            i <= k <= |toks| && Fits(engine, toks, k, ParseOr(engine, toks, i).error)
    decreases |toks| - i, 5
  {
    hide Fits;
    match ParseAnd(engine, toks, i)
    case Ok((left, j)) => OrRestFits(engine, toks, left, j);
    case Err(_) => AndFits(engine, toks, i);
  }

  // ---- Nothing that begins like that is an expression

  /** `t` has the tokens of `s` up to `k`, and that one; or, where a parenthesis is to be
      closed, it ends there. */
  ghost predicate BeginsBad(s: seq<Token>, t: seq<Token>, k: nat, x: WhenError) {
    && k <= |s| && k <= |t| && s[..k] == t[..k]
    && (Peek(t, k) == Peek(s, k) || (x.CloseExpected? && Peek(t, k) == None))
  }

  lemma BeginsAt(s: seq<Token>, t: seq<Token>, i: nat, k: nat, x: WhenError)
    requires BeginsBad(s, t, k, x) && i <= k
    ensures i < k || !x.CloseExpected? ==> SameTo(s, t, i) && Peek(s, i) == Peek(t, i)
    ensures i < k ==> s[i] == t[i]
  {
    assert i < k ==> s[i] == s[..k][i] && t[i] == t[..k][i];
    assert s[..i] == s[..k][..i] && t[..i] == t[..k][..i];
  }

  lemma ComparisonBad(engine: Engine, s: seq<Token>, t: seq<Token>, key: string, i: nat)
    requires 0 < i <= |s| && ParseComparison(engine, s, key, i).Err? && s[i - 1].Word?
    requires BeginsBad(s, t, ComparisonStop(engine, s, key, i), ParseComparison(engine, s, key, i).error)
    ensures i <= |t| && ParseComparison(engine, t, key, i).Err?
  {
    var k, x := ComparisonStop(engine, s, key, i), ParseComparison(engine, s, key, i).error;
    ComparisonFits(engine, s, key, i);
    BeginsAt(s, t, i, k, x);
    BeginsAt(s, t, k, k, x);
  }

  lemma {:induction false} PrimaryBad(engine: Engine, s: seq<Token>, t: seq<Token>, i: nat)
    requires i <= |s| && ParsePrimary(engine, s, i).Err? && (i == 0 || CallsForKey(s[i - 1]))
    requires BeginsBad(s, t, PrimaryStop(engine, s, i), ParsePrimary(engine, s, i).error)
    ensures i <= |t| && ParsePrimary(engine, t, i).Err?
    decreases |s| - i, 0
  {
    var k, x := PrimaryStop(engine, s, i), ParsePrimary(engine, s, i).error;
    PrimaryFits(engine, s, i);
    BeginsAt(s, t, i, k, x);
    match Peek(s, i)
    case Some(LParen) =>
      if ParseOr(engine, s, i + 1).Ok? { OrSame(engine, s, t, i + 1); } else { OrBad(engine, s, t, i + 1); }
    case Some(Word(v)) =>
      ComparisonFits(engine, s, v, i + 1);
      ComparisonBad(engine, s, t, v, i + 1);
    case _ =>
  }

  lemma {:induction false} UnaryBad(engine: Engine, s: seq<Token>, t: seq<Token>, i: nat)
    requires i <= |s| && ParseUnary(engine, s, i).Err? && (i == 0 || CallsForKey(s[i - 1]))
    requires BeginsBad(s, t, UnaryStop(engine, s, i), ParseUnary(engine, s, i).error)
    ensures i <= |t| && ParseUnary(engine, t, i).Err?
    decreases |s| - i, 1
  {
    UnaryFits(engine, s, i);
    BeginsAt(s, t, i, UnaryStop(engine, s, i), ParseUnary(engine, s, i).error);
    hide Fits, BeginsBad;
    if Peek(s, i) == Some(Bang) {
      UnaryFits(engine, s, i + 1);
      UnaryBad(engine, s, t, i + 1);
    } else {
      PrimaryBad(engine, s, t, i);
    }
  }

  lemma {:induction false} AndRestBad(engine: Engine, s: seq<Token>, t: seq<Token>, left: Expr, i: nat)
    requires i <= |s| && AndRest(engine, s, left, i).Err?
    requires BeginsBad(s, t, AndRestStop(engine, s, left, i), AndRest(engine, s, left, i).error)
    ensures i <= |t| && AndRest(engine, t, left, i).Err?
    decreases |s| - i, 2
  {
    var k, x := AndRestStop(engine, s, left, i), AndRest(engine, s, left, i).error;
    AndRestFits(engine, s, left, i);
    BeginsAt(s, t, i, k, x);
    match ParseUnary(engine, s, i + 1)
    case Ok((right, j)) =>
      AndRestFits(engine, s, And(left, right), j);
      BeginsAt(s, t, j, k, x);
      UnarySame(engine, s, t, i + 1);
      AndRestBad(engine, s, t, And(left, right), j);
    case Err(_) => UnaryBad(engine, s, t, i + 1);
  }

  lemma {:induction false} AndBad(engine: Engine, s: seq<Token>, t: seq<Token>, i: nat)
    requires i <= |s| && ParseAnd(engine, s, i).Err? && (i == 0 || CallsForKey(s[i - 1]))
    requires BeginsBad(s, t, AndStop(engine, s, i), ParseAnd(engine, s, i).error)
    ensures i <= |t| && ParseAnd(engine, t, i).Err?
    decreases |s| - i, 3
  {
    var k, x := AndStop(engine, s, i), ParseAnd(engine, s, i).error;
    match ParseUnary(engine, s, i)
    case Ok((left, j)) =>
      AndRestFits(engine, s, left, j);
      BeginsAt(s, t, j, k, x);
      UnarySame(engine, s, t, i);
      AndRestBad(engine, s, t, left, j);
    case Err(_) => UnaryBad(engine, s, t, i);
  }

  lemma {:induction false} OrRestBad(engine: Engine, s: seq<Token>, t: seq<Token>, left: Expr, i: nat)
    requires i <= |s| && OrRest(engine, s, left, i).Err?
    requires BeginsBad(s, t, OrRestStop(engine, s, left, i), OrRest(engine, s, left, i).error)
    ensures i <= |t| && OrRest(engine, t, left, i).Err?
    decreases |s| - i, 4
  {
    var k, x := OrRestStop(engine, s, left, i), OrRest(engine, s, left, i).error;
    OrRestFits(engine, s, left, i);
    BeginsAt(s, t, i, k, x);
    match ParseAnd(engine, s, i + 1)
    case Ok((right, j)) =>
      OrRestFits(engine, s, Or(left, right), j);
      BeginsAt(s, t, j, k, x);
      AndSame(engine, s, t, i + 1);
      OrRestBad(engine, s, t, Or(left, right), j);
    case Err(_) => AndBad(engine, s, t, i + 1);
  }

  lemma {:induction false} OrBad(engine: Engine, s: seq<Token>, t: seq<Token>, i: nat)
    requires i <= |s| && ParseOr(engine, s, i).Err? && (i == 0 || CallsForKey(s[i - 1]))
    requires BeginsBad(s, t, OrStop(engine, s, i), ParseOr(engine, s, i).error)
    ensures i <= |t| && ParseOr(engine, t, i).Err?
    decreases |s| - i, 5
  {
    var k, x := OrStop(engine, s, i), ParseOr(engine, s, i).error;
    match ParseAnd(engine, s, i)
    case Ok((left, j)) =>
      OrRestFits(engine, s, left, j);
      BeginsAt(s, t, j, k, x);
      AndSame(engine, s, t, i);
      OrRestBad(engine, s, t, left, j);
    case Err(_) => AndBad(engine, s, t, i);
  }

  // ---- What comes before it begins an expression

  lemma Begun(s: seq<Token>, k: nat, c: seq<Token>, j: nat)
    requires j < k <= |s|
    ensures var t := s[..k] + c; SameTo(s, t, j) && Peek(t, j) == Peek(s, j)
  {
    var t := s[..k] + c;
    assert t[j] == s[j];
    assert t[..j] == s[..j];
  }

  lemma ComparisonGoesOn(engine: Engine, s: seq<Token>, key: string, i: nat, p: string) returns (c: seq<Token>)
    requires 0 < i <= |s| && ParseComparison(engine, s, key, i).Err? && s[i - 1].Word? && engine(p, "")
    ensures var k := ComparisonStop(engine, s, key, i);
            k <= |s| && var t := s[..k] + c;
                        ParseComparison(engine, t, key, i).Ok? && ParseComparison(engine, t, key, i).value.1 == |t|
  {
    var k := ComparisonStop(engine, s, key, i);
    ComparisonFits(engine, s, key, i);
    c := if s[i].Unsupported? then [] else if s[i] == Tilde then [Regex(p, "")] else [Word("a")];
    if i < k { Begun(s, k, c, i); }
    var t := s[..k] + c;
    assert i < k ==> t[i] == s[i] && t[k] == c[0];
    assert BadFlags("") == [];
  }

  /** An expression up to the end is one before a closing parenthesis too. */
  lemma Closed(engine: Engine, t: seq<Token>, i: nat)
    requires i <= |t| && ParseOr(engine, t, i).Ok? && ParseOr(engine, t, i).value.1 == |t|
    ensures ParseOr(engine, t + [RParen], i) == ParseOr(engine, t, i)
  {
    var u := t + [RParen];
    assert u[..|t|] == t[..|t|] && u[|t|] == RParen;
    OrSame(engine, t, u, i);
  }

  lemma CloseGoesOn(engine: Engine, s: seq<Token>, i: nat)
    requires i < |s| && s[i] == LParen && ParseOr(engine, s, i + 1).Ok?
    ensures var k := ParseOr(engine, s, i + 1).value.1;
            var t := s[..k] + [RParen];
            ParsePrimary(engine, t, i).Ok? && ParsePrimary(engine, t, i).value.1 == |t|
  {
    var k := ParseOr(engine, s, i + 1).value.1;
    var t := s[..k] + [RParen];
    assert t[..k] == s[..k] && t[k] == RParen && t[i] == s[i];
    OrSame(engine, s, t, i + 1);
  }

  lemma InParens(engine: Engine, t: seq<Token>, i: nat)
    requires i < |t| && t[i] == LParen && ParseOr(engine, t, i + 1).Ok? && ParseOr(engine, t, i + 1).value.1 == |t|
    ensures var u := t + [RParen]; ParsePrimary(engine, u, i).Ok? && ParsePrimary(engine, u, i).value.1 == |u|
  {
    Closed(engine, t, i + 1);
    var u := t + [RParen];
    assert u[i] == t[i] && u[|t|] == RParen;
  }

  lemma WordGoesOn(engine: Engine, s: seq<Token>, i: nat, p: string) returns (c: seq<Token>)
    requires i < |s| && s[i].Word? && ParsePrimary(engine, s, i).Err? && engine(p, "")
    ensures var k := ComparisonStop(engine, s, s[i].v, i + 1);
            i < k <= |s| && var t := s[..k] + c;
                            ParsePrimary(engine, t, i).Ok? && ParsePrimary(engine, t, i).value.1 == |t|
  {
    var k := ComparisonStop(engine, s, s[i].v, i + 1);
    ComparisonFits(engine, s, s[i].v, i + 1);
    c := ComparisonGoesOn(engine, s, s[i].v, i + 1, p);
    assert (s[..k] + c)[i] == s[i];
  }

  lemma KeyGoesOn(engine: Engine, s: seq<Token>, i: nat)
    requires i <= |s|
    ensures var t := s[..i] + [Word("a")]; ParsePrimary(engine, t, i).Ok? && ParsePrimary(engine, t, i).value.1 == |t|
  {
    assert (s[..i] + [Word("a")])[i] == Word("a");
  }

  lemma {:induction false} PrimaryGoesOn(engine: Engine, s: seq<Token>, i: nat, p: string) returns (c: seq<Token>)
    requires i <= |s| && ParsePrimary(engine, s, i).Err? && (i == 0 || CallsForKey(s[i - 1])) && engine(p, "")
    ensures var k := PrimaryStop(engine, s, i);
            k <= |s| && var t := s[..k] + c;
                        i <= |t| && ParsePrimary(engine, t, i).Ok? && ParsePrimary(engine, t, i).value.1 == |t|
    decreases |s| - i, 0
  {
    var k := PrimaryStop(engine, s, i);
    PrimaryFits(engine, s, i);
    hide Fits;
    if Peek(s, i) == Some(LParen) {
      if ParseOr(engine, s, i + 1).Ok? {
        c := [RParen];
        CloseGoesOn(engine, s, i);
      } else {
        var inner := OrGoesOn(engine, s, i + 1, p);
        OrFits(engine, s, i + 1);
        c := inner + [RParen];
        hide ParseOr, ParsePrimary;
        assert (s[..k] + inner)[i] == s[i];
        InParens(engine, s[..k] + inner, i);
        assert s[..k] + c == s[..k] + inner + [RParen];
      }
    } else if i < |s| && s[i].Word? {
      c := WordGoesOn(engine, s, i, p);
    } else {
      c := [Word("a")];
      KeyGoesOn(engine, s, i);
    }
  }

  lemma PrimaryFirst(engine: Engine, t: seq<Token>, i: nat)
    requires i <= |t| && ParsePrimary(engine, t, i).Ok?
    ensures Peek(t, i) != Some(Bang)
  {}

  lemma {:induction false} UnaryGoesOn(engine: Engine, s: seq<Token>, i: nat, p: string) returns (c: seq<Token>)
    requires i <= |s| && ParseUnary(engine, s, i).Err? && (i == 0 || CallsForKey(s[i - 1])) && engine(p, "")
    ensures var k := UnaryStop(engine, s, i);
            k <= |s| && var t := s[..k] + c;
                        i <= |t| && ParseUnary(engine, t, i).Ok? && ParseUnary(engine, t, i).value.1 == |t|
    decreases |s| - i, 1
  {
    var k := UnaryStop(engine, s, i);
    UnaryFits(engine, s, i);
    if Peek(s, i) == Some(Bang) {
      UnaryFits(engine, s, i + 1);
      c := UnaryGoesOn(engine, s, i + 1, p);
      Begun(s, k, c, i);
    } else {
      c := PrimaryGoesOn(engine, s, i, p);
      hide Fits;
      if i < k {
        Begun(s, k, c, i);
      } else {
        PrimaryFirst(engine, s[..k] + c, i);
      }
    }
  }

  lemma {:induction false} AndRestGoesOn(engine: Engine, s: seq<Token>, left: Expr, i: nat, p: string)
    returns (c: seq<Token>)
    requires i <= |s| && AndRest(engine, s, left, i).Err? && engine(p, "")
    ensures var k := AndRestStop(engine, s, left, i);
            k <= |s| && var t := s[..k] + c;
                        i <= |t| && AndRest(engine, t, left, i).Ok? && AndRest(engine, t, left, i).value.1 == |t|
    decreases |s| - i, 2
  {
    var k := AndRestStop(engine, s, left, i);
    AndRestFits(engine, s, left, i);
    hide Fits;
    match ParseUnary(engine, s, i + 1)
    case Ok((right, j)) =>
      AndRestFits(engine, s, And(left, right), j);
      c := AndRestGoesOn(engine, s, And(left, right), j, p);
      Begun(s, k, c, i);
      Begun(s, k, c, j);
      UnarySame(engine, s, s[..k] + c, i + 1);
    case Err(_) =>
      c := UnaryGoesOn(engine, s, i + 1, p);
      Begun(s, k, c, i);
  }

  lemma {:induction false} AndGoesOn(engine: Engine, s: seq<Token>, i: nat, p: string) returns (c: seq<Token>)
    requires i <= |s| && ParseAnd(engine, s, i).Err? && (i == 0 || CallsForKey(s[i - 1])) && engine(p, "")
    ensures var k := AndStop(engine, s, i);
            k <= |s| && var t := s[..k] + c;
                        i <= |t| && ParseAnd(engine, t, i).Ok? && ParseAnd(engine, t, i).value.1 == |t|
    decreases |s| - i, 3
  {
    var k := AndStop(engine, s, i);
    match ParseUnary(engine, s, i)
    case Ok((left, j)) =>
      AndRestFits(engine, s, left, j);
      c := AndRestGoesOn(engine, s, left, j, p);
      Begun(s, k, c, j);
      UnarySame(engine, s, s[..k] + c, i);
    case Err(_) => c := UnaryGoesOn(engine, s, i, p);
  }

  lemma {:induction false} OrRestGoesOn(engine: Engine, s: seq<Token>, left: Expr, i: nat, p: string)
    returns (c: seq<Token>)
    requires i <= |s| && OrRest(engine, s, left, i).Err? && engine(p, "")
    ensures var k := OrRestStop(engine, s, left, i);
            k <= |s| && var t := s[..k] + c;
                        i <= |t| && OrRest(engine, t, left, i).Ok? && OrRest(engine, t, left, i).value.1 == |t|
    decreases |s| - i, 4
  {
    var k := OrRestStop(engine, s, left, i);
    OrRestFits(engine, s, left, i);
    hide Fits;
    match ParseAnd(engine, s, i + 1)
    case Ok((right, j)) =>
      OrRestFits(engine, s, Or(left, right), j);
      c := OrRestGoesOn(engine, s, Or(left, right), j, p);
      Begun(s, k, c, i);
      Begun(s, k, c, j);
      AndSame(engine, s, s[..k] + c, i + 1);
    case Err(_) =>
      c := AndGoesOn(engine, s, i + 1, p);
      Begun(s, k, c, i);
  }

  lemma {:induction false} OrGoesOn(engine: Engine, s: seq<Token>, i: nat, p: string) returns (c: seq<Token>)
    requires i <= |s| && ParseOr(engine, s, i).Err? && (i == 0 || CallsForKey(s[i - 1])) && engine(p, "")
    ensures var k := OrStop(engine, s, i);
            k <= |s| && var t := s[..k] + c;
                        i <= |t| && ParseOr(engine, t, i).Ok? && ParseOr(engine, t, i).value.1 == |t|
    decreases |s| - i, 5
  {
    var k := OrStop(engine, s, i);
    match ParseAnd(engine, s, i)
    case Ok((left, j)) =>
      OrRestFits(engine, s, left, j);
      c := OrRestGoesOn(engine, s, left, j, p);
      Begun(s, k, c, j);
      AndSame(engine, s, s[..k] + c, i);
    case Err(_) => c := AndGoesOn(engine, s, i, p);
  }

  // ---- The parser

  /** The tokens are all an expression. */
  ghost predicate IsExpr(engine: Engine, toks: seq<Token>) { exists e :: SaysOr(engine, toks, 0, |toks|, e) }

  lemma ParsesIffExpr(engine: Engine, toks: seq<Token>)
    ensures Parse(engine, toks).Ok? <==> IsExpr(engine, toks)
  {
    hide Parse, SaysOr;
    if Parse(engine, toks).Ok? { ParsesExactlyTheGrammar(engine, toks, Parse(engine, toks).value); }
    if e :| SaysOr(engine, toks, 0, |toks|, e) { ParsesExactlyTheGrammar(engine, toks, e); }
  }

  lemma TrailingStops(engine: Engine, toks: seq<Token>, t: seq<Token>)
    requires ParseOr(engine, toks, 0).Ok? && ParseOr(engine, toks, 0).value.1 < |toks|
    requires var k := ParseOr(engine, toks, 0).value.1; k <= |t| && t[..k] == toks[..k]
    ensures var k := ParseOr(engine, toks, 0).value.1;
            && (|t| == k ==> Parse(engine, t).Ok?)
            && (|t| > k && t[k] == toks[k] ==> Parse(engine, t).Err?)
  {
    var k := ParseOr(engine, toks, 0).value.1;
    if |t| == k || t[k] == toks[k] { OrSame(engine, toks, t, 0); }
  }

  /** The parser's error is about the first token with which no expression begins: what is
      before it begins one, and with it nothing does; or it is about the end. A closing
      parenthesis is called for when what is before is no expression itself, and a token
      is in excess when it is. */
  lemma ErrorIsAtFirstBadToken(engine: Engine, toks: seq<Token>, p: string) returns (k: nat, c: seq<Token>)
    requires Parse(engine, toks).Err? && engine(p, "")
    ensures k <= |toks| && IsExpr(engine, toks[..k] + c)
    ensures k < |toks| ==> forall t | toks[..k + 1] <= t :: !IsExpr(engine, t)
    ensures Parse(engine, toks).error.UnexpectedToken? ==>
              IsExpr(engine, toks[..k]) && Peek(toks, k) == Some(Parse(engine, toks).error.rest)
    ensures !Parse(engine, toks).error.UnexpectedToken? ==> Fits(engine, toks, k, Parse(engine, toks).error)
    ensures Parse(engine, toks).error.CloseExpected? ==> !IsExpr(engine, toks[..k])
  {
    var x := Parse(engine, toks).error;
    if ParseOr(engine, toks, 0).Ok? {
      k, c := ParseOr(engine, toks, 0).value.1, [];
      TrailingStops(engine, toks, toks[..k]);
      ParsesIffExpr(engine, toks[..k]);
      assert toks[..k] + [] == toks[..k];
      forall t | toks[..k + 1] <= t ensures !IsExpr(engine, t) {
        assert t[..k] == toks[..k] && t[k] == toks[..k + 1][k];
        TrailingStops(engine, toks, t);
        ParsesIffExpr(engine, t);
      }
    } else {
      k := OrStop(engine, toks, 0);
      OrFits(engine, toks, 0);
      c := OrGoesOn(engine, toks, 0, p);
      ParsesIffExpr(engine, toks[..k] + c);
      forall t | k < |toks| && toks[..k + 1] <= t ensures !IsExpr(engine, t) {
        assert t[..k] == toks[..k] && t[k] == toks[..k + 1][k];
        OrBad(engine, toks, t, 0);
        ParsesIffExpr(engine, t);
      }
      if x.CloseExpected? {
        var t := toks[..k];
        assert t[..k] == toks[..k];
        OrBad(engine, toks, t, 0);
        ParsesIffExpr(engine, t);
      }
    }
  }
}
