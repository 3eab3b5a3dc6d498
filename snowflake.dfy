/** What the Snowflake dialect prints for a call tree, as token sequences.
    `Render` is the whole unparse of a node; the recipe functions below it are the
    dialect's special cases (SUBSTR, LENGTH, LTRIM/RTRIM, IFF, TO_VARCHAR, LOG,
    REGEXP_INSTR, DATEDIFF, the clamped ROUND/TRUNCATE scale, the OVER window) and
    `BaseTokens` the generic layout every other call falls back to. */
module Snowflake {
  import opened Wrappers
  import opened SqlTree
  import opened SqlWriter
  import opened DialectProfile

  /** A STR_TO_DATE call is rewritten to TO_DATE and unparsed again; that one call
      is the only re-entry that does not shrink the tree, so it ranks higher. */
  function Rank(n: Node): nat
  {
    if n.Call? && n.name == "STR_TO_DATE" then 1 else 0
  }

  function FlagKeyword(f: TrimFlag): string
  {
    match f
    case Both => "BOTH"
    case Leading => "LEADING"
    case Trailing => "TRAILING"
  }

  /** An interval literal is printed as its bare value, a negative one as `(-value)`. */
  function IntervalLiteralTokens(sign: int, text: string): Tokens
  {
    if sign == -1 then ["(-"] + Emit(text) + [")"] else Emit(text)
  }

  /** Every identifier is quoted with a double quote. */
  function IdentifierToken(name: string): (r: string)
    ensures |r| >= 2 && r[0] == '"' && r[|r| - 1] == '"'
  {
    QuoteIdentifier(SnowflakeDefault, name)
  }

  // ---------------------------------------------------------------------------
  // The unparse of a tree

  function Render(n: Node): Result<Tokens, Error>
    decreases Size(n), Rank(n), 3
  {
    match n
    case Ident(x) => Ok([IdentifierToken(x)])
    case NumLit(t) => Ok(Emit(t))
    case StrLit(v) => Ok([QuoteStringLiteral(SnowflakeDefault, v)])
    case IntervalLit(sign, t) => Ok(IntervalLiteralTokens(sign, t))
    case FlagLit(f) => Ok([FlagKeyword(f)])
    case NullLit => Ok(["NULL"])
    case Window(_, _, _) => Err(Delegated("SqlWindow.unparse"))
    case Call(_, _, _, _) => RenderCall(n)
  }

  /** The operands rendered one by one, left to right; the first failure wins. */
  function RenderEach(ops: seq<Node>): (r: Result<seq<Tokens>, Error>)
    ensures r.Ok? ==> |r.value| == |ops|
    decreases SizeList(ops), 2, 4
  {
    if ops == [] then Ok([])
    else
      match RenderEach(ops[..|ops| - 1])
      case Err(e) => Err(e)
      case Ok(ps) =>
        match Render(ops[|ops| - 1])
        case Err(e) => Err(e)
        case Ok(p) => Ok(ps + [p])
  }

  /** `name(op, op, ...)` over every operand. */
  function FunCallAll(name: string, ops: seq<Node>): Result<Tokens, Error>
    decreases SizeList(ops), 2, 5
  {
    match RenderEach(ops)
    case Err(e) => Err(e)
    case Ok(ps) => Ok(CallLayout(name, ps))
  }

  /** The dialect's dispatch on the call's kind. */
  function RenderCall(c: Node): Result<Tokens, Error>
    requires c.Call?
    decreases Size(c), Rank(c), 2
  {
    match c.kind
    case Substring => FunCallAll("SUBSTR", c.operands)
    case ToNumber => Err(Delegated("ToNumberUtils"))
    case CharLength => LengthTokens(c)
    case Format => Err(Delegated("FormatFunctionUtil"))
    case Trim => TrimTokens(c)
    case Truncate => OtherFunctionTokens(c)
    case If => OtherFunctionTokens(c)
    case OtherFunction => OtherFunctionTokens(c)
    case DivideInteger => Err(Delegated("unparseDivideInteger"))
    case Over => OverTokens(c)
    case _ => BaseTokens(c)
  }

  /** The names whose rendering belongs to DateTimestampFormatUtil (S:217-225).
      DateTimestampFormatUtil is not part of this model; each constant's string
      value is taken to be its own Java name. */
  const DateTimestampFormatNames: set<string> := {
    "WEEKNUMBER_OF_YEAR", "YEARNUMBER_OF_CALENDAR", "MONTHNUMBER_OF_YEAR",
    "QUARTERNUMBER_OF_YEAR", "MONTHNUMBER_OF_QUARTER", "WEEKNUMBER_OF_MONTH",
    "WEEKNUMBER_OF_CALENDAR", "DAYOCCURRENCE_OF_MONTH", "DAYNUMBER_OF_CALENDAR"
  }

  /** The TO_DATE call a STR_TO_DATE call is rewritten to. */
  function ToDateCall(ops: seq<Node>): (r: Node)
    requires |ops| >= 2
    ensures r.Call? && r.operands == ops[..2] && Size(r) <= 1 + SizeList(ops)
  {
    SizeListPrefix(ops, 2);
    Call(OtherFunction, "TO_DATE", FunctionSyntax, ops[..2])
  }

  /** The dispatch on the function name for TRUNCATE, IF and other functions. */
  function OtherFunctionTokens(c: Node): Result<Tokens, Error>
    requires c.Call?
    decreases Size(c), Rank(c), 1
  {
    var ops := c.operands;
    if c.name == "TRUNCATE" || c.name == "ROUND" then MathTokens(c)
    else if c.name == "FORMAT_DATE" then FormatDateTokens(c)
    else if c.name == "LOG10" then Log10Tokens(c)
    else if c.name == "IF" then FunCallAll("IFF", ops)
    else if c.name == "STR_TO_DATE" then
      if |ops| < 2 then Err(OperandMissing(c.name, |ops|))
      else RenderCall(ToDateCall(ops))
    else if c.name == "INSTR" then FunCallAll("REGEXP_INSTR", ops)
    else if c.name == "DATE_DIFF" then
      SizeListReversed(ops);
      FunCallAll("DATEDIFF", Reversed(ops))
    else if c.name in DateTimestampFormatNames then Err(Delegated("DateTimestampFormatUtil"))
    else BaseTokens(c)
  }

  /** `LENGTH(op0)`. */
  function LengthTokens(c: Node): Result<Tokens, Error>
    requires c.Call?
    decreases Size(c), Rank(c), 0
  {
    var ops := c.operands;
    if |ops| == 0 then Err(OperandMissing(c.name, 0))
    else
      SizeListElement(ops, 0);
      match Render(ops[0])
      case Err(e) => Err(e)
      case Ok(x) => Ok(["LENGTH", "("] + x + [")"])
  }

  /** Java's `\s+`: one or more of space, tab, newline, vertical tab, form feed, return. */
  predicate AllWhitespace(s: string)
  {
    |s| > 0 && forall i :: 0 <= i < |s| ==> s[i] in {' ', '\t', '\n', '\U{B}', '\U{C}', '\r'}
  }

  /** The function a TRIM flag selects: LTRIM for LEADING, RTRIM for TRAILING,
      the call's own name for BOTH. */
  function TrimFunctionName(f: TrimFlag, name: string): string
  {
    match f
    case Leading => "LTRIM"
    case Trailing => "RTRIM"
    case Both => name
  }

  predicate IsLiteral(n: Node)
  {
    n.NumLit? || n.StrLit? || n.IntervalLit? || n.FlagLit? || n.NullLit?
  }

  /** The text a literal's `toValue()` gives for the trimmed characters; a NULL has
      none, and the value of other literal types is not part of this model. */
  function TrimCharsValue(n: Node): Result<string, Error>
    requires IsLiteral(n)
  {
    match n
    case StrLit(v) => Ok(v)
    case NumLit(t) => Ok(t)
    case NullLit => Err(InvalidOperand("TRIM characters are null"))
    case IntervalLit(_, _) => Err(Delegated("SqlLiteral.toValue"))
    case FlagLit(_) => Err(Delegated("SqlLiteral.toValue"))
  }

  /** `TRIM(flag, chars, value)` becomes `LTRIM|RTRIM|name(value[, chars])`, the
      characters left out when they are all whitespace. */
  function TrimTokens(c: Node): Result<Tokens, Error>
    requires c.Call?
    decreases Size(c), Rank(c), 0
  {
    var ops := c.operands;
    if |ops| < 1 then Err(OperandMissing(c.name, 0))
    else if !IsLiteral(ops[0]) then Err(InvalidOperand("TRIM flag must be a literal"))
    else if |ops| < 2 then Err(OperandMissing(c.name, 1))
    else if !IsLiteral(ops[1]) then Err(InvalidOperand("TRIM characters must be a literal"))
    else if !ops[0].FlagLit? then Err(InvalidOperand("TRIM flag must be a flag"))
    else if |ops| < 3 then Err(OperandMissing(c.name, 2))
    else
      SizeListElement(ops, 1);
      SizeListElement(ops, 2);
      var head := Emit(TrimFunctionName(ops[0].flag, c.name)) + ["("];
      match Render(ops[2])
      case Err(e) => Err(e)
      case Ok(value) =>
        match TrimCharsValue(ops[1])
        case Err(e) => Err(e)
        case Ok(chars) =>
          if AllWhitespace(chars) then Ok(head + value + [")"])
          else
            match Render(ops[1])
            case Err(e) => Err(e)
            case Ok(cs) => Ok(head + value + [","] + cs + [")"])
  }

  /** The scale of ROUND/TRUNCATE when it is not a numeric literal, clamped to the
      range Snowflake accepts. */
  function ClampCase(s: Tokens): Tokens
  {
    ["CASE WHEN "] + s + ["> 38 THEN 38 ", "WHEN "] + s + ["< -12 THEN -12 ", "ELSE "] + s + ["END"]
  }

  /** One `WHEN scale op bound THEN result` arm of a searched CASE over the scale. */
  datatype Arm = Arm(op: string, bound: int, result: int)

  /** The clamp's arms in the order the CASE tests them; the ELSE keeps the scale. */
  const ClampArms: seq<Arm> := [Arm(">", 38, 38), Arm("<", -12, -12)]

  /** The decimal text of a natural number. */
  function NatText(n: nat): string
    decreases n
  {
    (if n < 10 then "" else NatText(n / 10)) + [(('0' as int) + n % 10) as char]
  }

  /** The decimal text of an integer, with a leading `-` when negative. */
  function IntText(i: int): string
  {
    if i < 0 then "-" + NatText(-i) else NatText(i)
  }

  /** The text printed after the scale in one arm, e.g. `> 38 THEN 38 `. */
  function ArmText(a: Arm): string
  {
    a.op + " " + IntText(a.bound) + " THEN " + IntText(a.result) + " "
  }

  /** The arms in order, each opened by `keyword` (`CASE WHEN ` for the first,
      `WHEN ` for the rest) and testing the scale `s`. */
  function PrintArms(arms: seq<Arm>, s: Tokens, keyword: string): Tokens
  {
    if arms == [] then [] else [keyword] + s + [ArmText(arms[0])] + PrintArms(arms[1..], s, "WHEN ")
  }

  /** A searched CASE over the scale: its arms, then `ELSE scale END`. */
  function PrintCase(arms: seq<Arm>, s: Tokens): Tokens
  {
    PrintArms(arms, s, "CASE WHEN ") + ["ELSE "] + s + ["END"]
  }

  /** Whether an arm's comparison holds of the scale value `v`. */
  predicate Holds(a: Arm, v: int)
  {
    (a.op == ">" && v > a.bound) || (a.op == "<" && v < a.bound)
  }

  /** The value a searched CASE over the scale takes when the scale is `v`: the
      result of the first arm that holds, or `v` itself from the ELSE. */
  function EvalCase(arms: seq<Arm>, v: int): (r: int)
    ensures r == v || exists a :: a in arms && Holds(a, v) && r == a.result
  {
    if arms == [] then v
    else if Holds(arms[0], v) then arms[0].result
    else
      var r := EvalCase(arms[1..], v);
      assert forall a :: a in arms[1..] ==> a in arms;
      r
  }

  /** `ROUND|TRUNCATE(x[, scale])`. */
  function MathTokens(c: Node): Result<Tokens, Error>
    requires c.Call?
    decreases Size(c), Rank(c), 0
  {
    var ops := c.operands;
    if |ops| == 0 then Err(OperandMissing(c.name, 0))
    else
      SizeListElement(ops, 0);
      match Render(ops[0])
      case Err(e) => Err(e)
      case Ok(x) =>
        if |ops| == 1 then Ok(Emit(c.name) + ["("] + x + [")"])
        else
          SizeListElement(ops, 1);
          match Render(ops[1])
          case Err(e) => Err(e)
          case Ok(s) =>
            Ok(Emit(c.name) + ["("] + x + [","] + (if ops[1].NumLit? then s else ClampCase(s)) + [")"])
  }

  /** `FORMAT_DATE(fmt, d)` becomes `TO_VARCHAR(d,fmt)`. */
  function FormatDateTokens(c: Node): Result<Tokens, Error>
    requires c.Call?
    decreases Size(c), Rank(c), 0
  {
    var ops := c.operands;
    if |ops| < 2 then Err(OperandMissing(c.name, 1))
    else
      SizeListElement(ops, 0);
      SizeListElement(ops, 1);
      match Render(ops[1])
      case Err(e) => Err(e)
      case Ok(d) =>
        match Render(ops[0])
        case Err(e) => Err(e)
        case Ok(f) => Ok(["TO_VARCHAR", "("] + d + [","] + f + [")"])
  }

  /** `LOG10(1)` is folded to `0`; any other `LOG10(x)` becomes `LOG(10, x)`. */
  function Log10Tokens(c: Node): Result<Tokens, Error>
    requires c.Call?
    decreases Size(c), Rank(c), 0
  {
    var ops := c.operands;
    if |ops| == 0 then Err(OperandMissing(c.name, 0))
    else if ops[0] == NumLit("1") then Ok(["0"])
    else
      SizeListElement(ops, 0);
      match Render(ops[0])
      case Err(e) => Err(e)
      case Ok(x) => Ok(["LOG", "(", "10", ", "] + x + [")"])
  }

  /** `agg OVER (window)` when the window has no ORDER BY; with one, the generic
      window layout (not part of this model) takes over. */
  function OverTokens(c: Node): Result<Tokens, Error>
    requires c.Call?
    decreases Size(c), Rank(c), 0
  {
    var ops := c.operands;
    if |ops| < 2 then Err(OperandMissing(c.name, 1))
    else if !ops[1].Window? then Err(InvalidOperand("OVER operand 1 must be a window"))
    else if ops[1].orderList != [] then Err(Delegated("SqlWindow.unparse"))
    else
      SizeListElement(ops, 0);
      SizeListElement(ops, 1);
      match Render(ops[0])
      case Err(e) => Err(e)
      case Ok(agg) =>
        match WindowTokens(ops[1])
        case Err(e) => Err(e)
        case Ok(win) => Ok(agg + win)
  }

  /** A node list: its items comma separated inside an unmarked frame. */
  function NodeListTokens(list: seq<Node>): Result<Tokens, Error>
    decreases SizeList(list), 2, 6
  {
    match RenderEach(list)
    case Err(e) => Err(e)
    case Ok(ps) => Ok(CommaList(ps))
  }

  /** `OVER (name PARTITION BY ... ORDER BY ...)`, each part only when present. */
  function WindowTokens(w: Node): Result<Tokens, Error>
    requires w.Window?
    decreases Size(w), 0, 1
  {
    var name := match w.refName case Some(r) => [IdentifierToken(r)] case None => [];
    match WindowSections(w)
    case Err(e) => Err(e)
    case Ok(body) => Ok(["OVER ", "("] + name + body + [")"])
  }

  /** The `PARTITION BY` and `ORDER BY` parts of a window. */
  function WindowSections(w: Node): Result<Tokens, Error>
    requires w.Window?
    decreases Size(w), 0, 0
  {
    match (if w.partitions == [] then Ok([]) else NodeListTokens(w.partitions))
    case Err(e) => Err(e)
    case Ok(ps) =>
      match (if w.orderList == [] then Ok([]) else NodeListTokens(w.orderList))
      case Err(e) => Err(e)
      case Ok(os) =>
        Ok((if w.partitions == [] then [] else ["PARTITION BY"] + ps)
           + (if w.orderList == [] then [] else ["ORDER BY"] + os))
  }

  /** The number of operands a generic layout takes; a function takes any number. */
  predicate ArityFits(syntax: Syntax, n: nat)
  {
    match syntax
    case FunctionSyntax => true
    case BinarySyntax => n == 2
    case PrefixSyntax => n == 1
    case PostfixSyntax => n == 1
  }

  /** The generic layout: `name(ops)`, `a name b`, `name a` or `a name`. */
  function BaseTokens(c: Node): Result<Tokens, Error>
    requires c.Call?
    decreases Size(c), Rank(c), 0
  {
    var ops := c.operands;
    if !ArityFits(c.syntax, |ops|) then Err(InvalidOperand("wrong number of operands for " + c.name))
    else
      match c.syntax
      case FunctionSyntax => FunCallAll(c.name, ops)
      case PrefixSyntax =>
        SizeListElement(ops, 0);
        (match Render(ops[0])
         case Err(e) => Err(e)
         case Ok(a) => Ok(Emit(c.name) + a))
      case PostfixSyntax =>
        SizeListElement(ops, 0);
        (match Render(ops[0])
         case Err(e) => Err(e)
         case Ok(a) => Ok(a + Emit(c.name)))
      case BinarySyntax =>
        SizeListElement(ops, 0);
        SizeListElement(ops, 1);
        match Render(ops[0])
        case Err(e) => Err(e)
        case Ok(a) =>
          match Render(ops[1])
          case Err(e) => Err(e)
          case Ok(b) => Ok(a + (if SepPrints(c.name, 0) then Emit(c.name) else []) + b)
  }

  // ---------------------------------------------------------------------------
  // Date arithmetic with intervals

  /** Which operand of `a * b` holds the interval literal: the first when the second
      is an identifier or a numeric literal, the second otherwise. */
  function IntervalLiteralIndex(times: seq<Node>): (i: nat)
    requires |times| >= 2
    ensures i <= 1
  {
    if times[1].Ident? || times[1].NumLit? then 0 else 1
  }

  /** Which operand of `a * b` is the multiplier, by the same test. */
  function IdentifierIndex(times: seq<Node>): (i: nat)
    requires |times| >= 2
    ensures i <= 1
  {
    if times[1].Ident? || times[1].NumLit? then 1 else 0
  }

  /** `n * INTERVAL 'k' unit` becomes `n * k`, or plain `n` when k is 1. The
      interval's sign is not looked at. */
  function TimesIntervalTokens(t: Node): Result<Tokens, Error>
    requires t.Call?
  {
    var ops := t.operands;
    if |ops| < 2 then Err(OperandMissing(t.name, 1))
    else
      var lit := ops[IntervalLiteralIndex(ops)];
      if !lit.IntervalLit? then Err(InvalidOperand("interval operand is not an interval literal"))
      else
        match Render(ops[IdentifierIndex(ops)])
        case Err(e) => Err(e)
        case Ok(x) => Ok(x + (if lit.text != "1" then ["*"] + Emit(lit.text) else []))
  }

  /** The second operand of a date-plus-interval call: an interval literal, or a
      product of an expression and an interval literal. */
  function IntervalOperandTokens(n: Node): Result<Tokens, Error>
  {
    match n
    case IntervalLit(sign, text) => Ok(IntervalLiteralTokens(sign, text))
    case NumLit(_) => Err(InvalidOperand("literal is not an interval literal"))
    case StrLit(_) => Err(InvalidOperand("literal is not an interval literal"))
    case FlagLit(_) => Err(InvalidOperand("literal is not an interval literal"))
    case NullLit => Err(InvalidOperand("literal is not an interval literal"))
    case Call(kind, _, _, _) =>
      if kind == Times then TimesIntervalTokens(n) else Err(InvalidOperand("operand kind is not valid"))
    case Ident(_) => Err(InvalidOperand("operand kind is not valid"))
    case Window(_, _, _) => Err(InvalidOperand("operand kind is not valid"))
  }

  /** DATE_ADD / DATE_SUB over a day interval: `(d + n)` or `(d - n)`, the operator
      `+` exactly for a PLUS call. */
  function IntervalOperandsTokens(c: Node): Result<Tokens, Error>
    requires c.Call?
  {
    var ops := c.operands;
    if |ops| == 0 then Err(OperandMissing(c.name, 0))
    else
      match Render(ops[0])
      case Err(e) => Err(e)
      case Ok(d) =>
        if |ops| < 2 then Err(OperandMissing(c.name, 1))
        else
          match IntervalOperandTokens(ops[1])
          case Err(e) => Err(e)
          case Ok(i) => Ok(["("] + d + [if c.kind == Plus then "+" else "-"] + i + [")"])
  }

  /** The SQL type names the choice of a date function looks at. */
  datatype TypeName = DateType | IntervalDayType | OtherType

  /** The operator a date call is translated to. */
  datatype TargetFunc = DateSubFunc | DateAddFunc | BaseTargetFunc

  /** A DATE-typed call whose second operand is a day interval becomes DATE_SUB
      when it is a MINUS and DATE_ADD otherwise; every other call keeps the generic
      choice. A DATE call with fewer than two operands fails. */
  function GetTargetFunc(returnType: TypeName, kind: Kind, operandTypes: seq<TypeName>): Result<TargetFunc, Error>
  {
    if returnType != DateType then Ok(BaseTargetFunc)
    else if |operandTypes| < 2 then Err(OperandMissing("date operation", 1))
    else if operandTypes[1] == IntervalDayType then Ok(if kind == Minus then DateSubFunc else DateAddFunc)
    else Ok(BaseTargetFunc)
  }

  /** A single-value aggregate is replaced by its own first operand. */
  function RewriteSingleValueExpr(agg: Node): (r: Result<Node, Error>)
    ensures r.Ok? <==> agg.Call? && |agg.operands| > 0
    ensures r.Ok? ==> r.value == agg.operands[0] && Size(r.value) < Size(agg)
  {
    if !agg.Call? then Err(InvalidOperand("not a call"))
    else if |agg.operands| == 0 then Err(OperandMissing(agg.name, 0))
    else
      SizeListElement(agg.operands, 0);
      Ok(agg.operands[0])
  }
}
