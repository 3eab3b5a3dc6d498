/** The BigQuery dialect's emulation table: the operator names it claims to emulate,
    and how it writes each of them. Operands are unparsed by the generic dialect,
    which is not part of this model; it is the `render` parameter here. */
module BigQuery {
  import opened Wrappers
  import opened SqlTree
  import opened SqlWriter
  import opened DialectProfile

  /** The operators the dialect rewrites itself. */
  predicate EmulatesOperator(name: string)
  {
    name == "POSITION" || name == "UNION"
  }

  /** A set operator as the dialect declares one. */
  datatype SetOperator = SetOperator(name: string, kind: Kind, precedence: nat, all: bool)

  /** The operator UNION is printed as. */
  const UnionDistinct: SetOperator := SetOperator("UNION DISTINCT", Union, 14, true)

  const PositionThirdOperand := "3rd operand Not Supported for Function STRPOS in Big Query"

  /** The error for a name with no case, worded as the dialect words it. */
  function NotHandledMessage(name: string): string
  {
    "Emulation for Function :- " + name + "is not handled."
  }

  /** `STRPOS(b, a)` for `POSITION(a IN b)`; a third operand is refused once both
      others have been written. */
  function PositionTokens(render: Node -> Result<Tokens, Error>, ops: seq<Node>): Result<Tokens, Error>
  {
    if |ops| < 2 then Err(OperandMissing("POSITION", 1))
    else
      match render(ops[1])
      case Err(e) => Err(e)
      case Ok(b) =>
        match render(ops[0])
        case Err(e) => Err(e)
        case Ok(a) =>
          if |ops| == 3 then Err(Unsupported(PositionThirdOperand))
          else Ok(["STRPOS", "("] + b + [","] + a + [")"])
  }

  /** A set operator in binary syntax: left operand, the operator's name, right operand. */
  function BinaryTokens(render: Node -> Result<Tokens, Error>, op: SetOperator, ops: seq<Node>): Result<Tokens, Error>
  {
    if |ops| != 2 then Err(InvalidOperand("wrong number of operands for " + op.name))
    else
      match render(ops[0])
      case Err(e) => Err(e)
      case Ok(a) =>
        match render(ops[1])
        case Err(e) => Err(e)
        case Ok(b) => Ok(a + Emit(op.name) + b)
  }

  /** What the dialect writes for an emulated operator. */
  function EmulatedTokens(render: Node -> Result<Tokens, Error>, name: string, ops: seq<Node>): Result<Tokens, Error>
  {
    if name == "POSITION" then PositionTokens(render, ops)
    else if name == "UNION" then BinaryTokens(render, UnionDistinct, ops)
    else Err(NotHandled(NotHandledMessage(name)))
  }

  /** An operand, written by the generic unparser. */
  method UnparseOperand(w: Writer, render: Node -> Result<Tokens, Error>, n: Node) returns (res: Outcome<Error>)
    modifies w
    ensures res == StatusOf(render(n))
    ensures render(n).Ok? ==> w.tokens == old(w.tokens) + render(n).value && w.frames == old(w.frames)
  {
    var r := render(n);
    if r.Err? {
      return Fail(r.error);
    }
    w.PrintAll(r.value);
    res := Pass;
  }

  /** The dialect's `unparseSqlOperator`. */
  method UnparseSqlOperator(w: Writer, render: Node -> Result<Tokens, Error>, name: string, ops: seq<Node>)
    returns (res: Outcome<Error>)
    modifies w
    ensures res == StatusOf(EmulatedTokens(render, name, ops))
    ensures EmulatedTokens(render, name, ops).Ok? ==>
      w.tokens == old(w.tokens) + EmulatedTokens(render, name, ops).value && w.frames == old(w.frames)
  {
    if name == "POSITION" {
      res := UnparsePosition(w, render, ops);
    } else if name == "UNION" {
      res := UnparseBinary(w, render, UnionDistinct, ops);
    } else {
      res := Fail(NotHandled(NotHandledMessage(name)));
    }
  }

  /** POSITION as STRPOS with the operands swapped. */
  method UnparsePosition(w: Writer, render: Node -> Result<Tokens, Error>, ops: seq<Node>) returns (res: Outcome<Error>)
    modifies w
    ensures res == StatusOf(PositionTokens(render, ops))
    ensures PositionTokens(render, ops).Ok? ==>
      w.tokens == old(w.tokens) + PositionTokens(render, ops).value && w.frames == old(w.frames)
  {
    var f := w.StartFunCall("STRPOS");
    w.Sep(",");
    if |ops| < 2 {
      return Fail(OperandMissing("POSITION", 1));
    }
    res := UnparseOperand(w, render, ops[1]);
    if res.Fail? {
      return;
    }
    w.Sep(",");
    res := UnparseOperand(w, render, ops[0]);
    if res.Fail? {
      return;
    }
    if |ops| == 3 {
      return Fail(Unsupported(PositionThirdOperand));
    }
    w.EndFunCall(f);
    StrposAppend(old(w.tokens), render(ops[1]).value, render(ops[0]).value);
  }

  lemma StrposAppend(t0: Tokens, b: Tokens, a: Tokens)
    ensures t0 + ["STRPOS"] + ["("] + [] + b + [","] + a + [")"] == t0 + (["STRPOS", "("] + b + [","] + a + [")"])
  {
  }

  /** The generic binary layout: both operands in a fresh frame, the operator's name
      as its separator. */
  method UnparseBinary(w: Writer, render: Node -> Result<Tokens, Error>, op: SetOperator, ops: seq<Node>)
    returns (res: Outcome<Error>)
    requires op.name != "," && op.name != "."
    modifies w
    ensures res == StatusOf(BinaryTokens(render, op, ops))
    ensures BinaryTokens(render, op, ops).Ok? ==>
      w.tokens == old(w.tokens) + BinaryTokens(render, op, ops).value && w.frames == old(w.frames)
  {
    if |ops| != 2 {
      return Fail(InvalidOperand("wrong number of operands for " + op.name));
    }
    var f := w.StartList("", "");
    res := UnparseOperand(w, render, ops[0]);
    if res.Fail? {
      return;
    }
    w.Sep(op.name);
    res := UnparseOperand(w, render, ops[1]);
    if res.Fail? {
      return;
    }
    w.EndList(f);
    BinaryAppend(old(w.tokens), render(ops[0]).value, Emit(op.name), render(ops[1]).value);
  }

  lemma BinaryAppend(t0: Tokens, a: Tokens, op: Tokens, b: Tokens)
    ensures t0 + [] + a + op + b + [] == t0 + (a + op + b)
  {
  }

  // ---------------------------------------------------------------------------
  // Properties of the table

  /** Every name the dialect claims to emulate has a case, and only those fall through
      to the "not handled" error (given an operand renderer that never reports it). */
  lemma EmulationTableTotal(render: Node -> Result<Tokens, Error>, name: string, ops: seq<Node>)
    requires forall n :: render(n).Err? ==> !render(n).error.NotHandled?
    ensures EmulatesOperator(name) <==> !(EmulatedTokens(render, name, ops).Err? && EmulatedTokens(render, name, ops).error.NotHandled?)
    ensures !EmulatesOperator(name) ==> EmulatedTokens(render, name, ops) == Err(NotHandled(NotHandledMessage(name)))
  {
    if name == "POSITION" && |ops| >= 2 {
      assert !render(ops[1]).Err? || !render(ops[1]).error.NotHandled?;
      assert !render(ops[0]).Err? || !render(ops[0]).error.NotHandled?;
    }
    if name == "UNION" && |ops| == 2 {
      assert !render(ops[0]).Err? || !render(ops[0]).error.NotHandled?;
      assert !render(ops[1]).Err? || !render(ops[1]).error.NotHandled?;
    }
  }

  /** POSITION(a IN b) is STRPOS(b, a): the searched string first, no comma before it. */
  lemma PositionSwapsOperands(render: Node -> Result<Tokens, Error>, a: Node, b: Node)
    requires render(a).Ok? && render(b).Ok?
    ensures EmulatedTokens(render, "POSITION", [a, b])
      == Ok(["STRPOS", "("] + render(b).value + [","] + render(a).value + [")"])
  {
  }

  /** A third operand is never dropped: a three-operand POSITION has no output, and
      once both other operands render the error is the dialect's own refusal. */
  lemma PositionRefusesThirdOperand(render: Node -> Result<Tokens, Error>, ops: seq<Node>)
    requires |ops| == 3
    ensures EmulatedTokens(render, "POSITION", ops).Err?
    ensures render(ops[0]).Ok? && render(ops[1]).Ok? ==>
      EmulatedTokens(render, "POSITION", ops) == Err(Unsupported(PositionThirdOperand))
  {
  }

  /** UNION is the binary operator `UNION DISTINCT`, of kind UNION and precedence 14. */
  lemma UnionIsUnionDistinct(render: Node -> Result<Tokens, Error>, a: Node, b: Node)
    requires render(a).Ok? && render(b).Ok?
    ensures EmulatedTokens(render, "UNION", [a, b])
      == Ok(render(a).value + ["UNION DISTINCT"] + render(b).value)
    ensures UnionDistinct.kind == Union && UnionDistinct.precedence == 14
  {
  }

  /** Literal operands as the generic unparser writes them under BigQuery; anything
      else is left to code that is not part of this model. */
  function LiteralTokens(n: Node): Result<Tokens, Error>
  {
    match n
    case StrLit(v) => Ok([QuoteStringLiteral(BigQueryDefault, v)])
    case NumLit(t) => Ok(Emit(t))
    case NullLit => Ok(["NULL"])
    case _ => Err(Delegated("SqlDialect"))
  }

  /** `position('A' IN 'ABC')` is written `STRPOS('ABC', 'A')`. */
  lemma PositionFixture()
    ensures EmulatedTokens(LiteralTokens, "POSITION", [StrLit("A"), StrLit("ABC")])
      == Ok(["STRPOS", "(", "'ABC'", ",", "'A'", ")"])
  {
    ReplaceNoMatch("A", "'", [LiteralEscape(BigQueryDefault), '\'']);
    ReplaceNoMatch("ABC", "'", [LiteralEscape(BigQueryDefault), '\'']);
    assert QuoteStringLiteral(BigQueryDefault, "A") == "'A'";
    assert QuoteStringLiteral(BigQueryDefault, "ABC") == "'ABC'";
    assert LiteralTokens(StrLit("A")) == Ok(["'A'"]);
    assert LiteralTokens(StrLit("ABC")) == Ok(["'ABC'"]);
    PositionSwapsOperands(LiteralTokens, StrLit("A"), StrLit("ABC"));
    assert ["STRPOS", "("] + ["'ABC'"] + [","] + ["'A'"] + [")"] == ["STRPOS", "(", "'ABC'", ",", "'A'", ")"];
  }

  /** `SELECT MOD(11, 3) FROM product UNION SELECT 1 FROM product` is written with
      UNION DISTINCT between the two queries, each query as the generic unparser
      writes it. */
  lemma UnionFixture(render: Node -> Result<Tokens, Error>, a: Node, b: Node)
    requires render(a) == Ok(["SELECT MOD(11, 3)", "FROM foodmart.product"])
    requires render(b) == Ok(["SELECT 1", "FROM foodmart.product"])
    ensures EmulatedTokens(render, "UNION", [a, b])
      == Ok(["SELECT MOD(11, 3)", "FROM foodmart.product", "UNION DISTINCT", "SELECT 1", "FROM foodmart.product"])
  {
    UnionIsUnionDistinct(render, a, b);
    assert ["SELECT MOD(11, 3)", "FROM foodmart.product"] + ["UNION DISTINCT"] + ["SELECT 1", "FROM foodmart.product"]
        == ["SELECT MOD(11, 3)", "FROM foodmart.product", "UNION DISTINCT", "SELECT 1", "FROM foodmart.product"];
  }
}
