/** The Snowflake dialect's unparse, as it runs: each method writes into the frame
    writer step by step and is proved to leave exactly the tokens `Snowflake.Render`
    describes, with every frame it opened closed again. On an error the method
    stops where the source throws; what was written so far is then unspecified. */
module SnowflakeUnparse {
  import opened Wrappers
  import opened SqlTree
  import opened SqlWriter
  import opened DialectProfile
  import opened Snowflake
  import opened SnowflakeFacts

  /** `node.unparse(writer)` under the Snowflake dialect. */
  method Unparse(w: Writer, n: Node) returns (res: Outcome<Error>)
    modifies w
    decreases Size(n), Rank(n), 3
    ensures res == StatusOf(Render(n))
    ensures Render(n).Ok? ==> w.tokens == old(w.tokens) + Render(n).value && w.frames == old(w.frames)
  {
    match n
    case Ident(x) =>
      w.Print(IdentifierToken(x));
      res := Pass;
    case NumLit(t) =>
      w.Print(t);
      res := Pass;
    case StrLit(v) =>
      w.Print(QuoteStringLiteral(SnowflakeDefault, v));
      res := Pass;
    case IntervalLit(sign, t) =>
      UnparseSqlIntervalLiteral(w, sign, t);
      res := Pass;
    case FlagLit(f) =>
      w.Print(FlagKeyword(f));
      res := Pass;
    case NullLit =>
      w.Print("NULL");
      res := Pass;
    case Window(_, _, _) =>
      res := Fail(Delegated("SqlWindow.unparse"));
    case Call(_, _, _, _) =>
      res := UnparseCall(w, n);
  }

  /** An interval literal: its value, wrapped as `(-value)` when negative. */
  method UnparseSqlIntervalLiteral(w: Writer, sign: int, text: string)
    modifies w
    ensures w.tokens == old(w.tokens) + IntervalLiteralTokens(sign, text)
    ensures w.frames == old(w.frames)
  {
    if sign == -1 {
      w.Print("(-");
      w.Print(text);
      w.Print(")");
    } else {
      w.Print(text);
    }
  }

  /** One item of the innermost frame: `Sep(",")`, which prints the comma unless
      the item is the frame's first, then the node itself. */
  method UnparseItem(w: Writer, n: Node) returns (res: Outcome<Error>)
    requires |w.frames| > 0
    modifies w
    decreases Size(n), Rank(n), 4
    ensures res == StatusOf(Render(n))
    ensures Render(n).Ok? ==>
      var top := old(w.frames)[|old(w.frames)| - 1];
      && w.tokens == old(w.tokens) + (if top.items > 0 then [","] else []) + Render(n).value
      && w.frames == old(w.frames)[..|old(w.frames)| - 1] + [Frame(top.close, top.items + 1)]
  {
    w.Sep(",");
    res := Unparse(w, n);
  }

  /** The items of the innermost (fresh) frame: a comma before every item but the first. */
  method UnparseItems(w: Writer, ops: seq<Node>) returns (res: Outcome<Error>)
    requires |w.frames| > 0 && w.frames[|w.frames| - 1].items == 0
    modifies w
    decreases SizeList(ops), 2, 4
    ensures res == StatusOf(RenderEach(ops))
    ensures RenderEach(ops).Ok? ==>
      && w.tokens == old(w.tokens) + CommaList(RenderEach(ops).value)
      && w.frames == old(w.frames)[..|old(w.frames)| - 1]
                     + [Frame(old(w.frames)[|old(w.frames)| - 1].close, |ops|)]
  {
    ghost var outer := w.frames[..|w.frames| - 1];
    var close := w.frames[|w.frames| - 1].close;
    var i := 0;
    while i < |ops|
      invariant 0 <= i <= |ops|
      invariant RenderEach(ops[..i]).Ok?
      invariant w.tokens == old(w.tokens) + CommaList(RenderEach(ops[..i]).value)
      invariant w.frames == outer + [Frame(close, i)]
    {
      ghost var ps := RenderEach(ops[..i]).value;
      SizeListElement(ops, i);
      res := UnparseItem(w, ops[i]);
      assert ops[..i + 1] == ops[..i] + [ops[i]];
      RenderEachSnoc(ops[..i], ops[i]);
      if res.Fail? {
        RenderEachPrefixErr(ops, i + 1);
        return;
      }
      CommaListSnoc(old(w.tokens), ps, Render(ops[i]).value);
      i := i + 1;
    }
    assert ops[..i] == ops;
    res := Pass;
  }

  /** `name(op, op, ...)` over the given operands: the SUBSTR, IFF and REGEXP_INSTR
      loops and the generic function layout. */
  method UnparseFunCall(w: Writer, name: string, ops: seq<Node>) returns (res: Outcome<Error>)
    modifies w
    decreases SizeList(ops), 2, 5
    ensures res == StatusOf(FunCallAll(name, ops))
    ensures FunCallAll(name, ops).Ok? ==>
      w.tokens == old(w.tokens) + FunCallAll(name, ops).value && w.frames == old(w.frames)
  {
    var f := w.StartFunCall(name);
    res := UnparseItems(w, ops);
    if res.Fail? {
      return;
    }
    w.EndFunCall(f);
  }

  /** A node list (a window's partition or order keys) in an unmarked frame. */
  method UnparseNodeList(w: Writer, list: seq<Node>) returns (res: Outcome<Error>)
    modifies w
    decreases SizeList(list), 2, 5
    ensures res == StatusOf(NodeListTokens(list))
    ensures NodeListTokens(list).Ok? ==>
      w.tokens == old(w.tokens) + NodeListTokens(list).value && w.frames == old(w.frames)
  {
    var f := w.StartList("", "");
    res := UnparseItems(w, list);
    if res.Fail? {
      return;
    }
    w.EndList(f);
  }

  /** The dialect's `unparseCall`: the dispatch on the call's kind. */
  method UnparseCall(w: Writer, c: Node) returns (res: Outcome<Error>)
    requires c.Call?
    modifies w
    decreases Size(c), Rank(c), 2
    ensures res == StatusOf(RenderCall(c))
    ensures RenderCall(c).Ok? ==> w.tokens == old(w.tokens) + RenderCall(c).value && w.frames == old(w.frames)
  {
    match c.kind
    case Substring =>
      res := UnparseFunCall(w, "SUBSTR", c.operands);
    case ToNumber =>
      res := Fail(Delegated("ToNumberUtils"));
    case CharLength =>
      res := UnparseCharLength(w, c);
    case Format =>
      res := Fail(Delegated("FormatFunctionUtil"));
    case Trim =>
      res := UnparseTrim(w, c);
    case Truncate =>
      res := UnparseOtherFunction(w, c);
    case If =>
      res := UnparseOtherFunction(w, c);
    case OtherFunction =>
      res := UnparseOtherFunction(w, c);
    case DivideInteger =>
      res := Fail(Delegated("unparseDivideInteger"));
    case Over =>
      res := HandleOverCall(w, c);
    case _ =>
      res := UnparseBase(w, c);
  }

  /** `LENGTH(op0)`. */
  method UnparseCharLength(w: Writer, c: Node) returns (res: Outcome<Error>)
    requires c.Call?
    modifies w
    decreases Size(c), Rank(c), 0
    ensures res == StatusOf(LengthTokens(c))
    ensures LengthTokens(c).Ok? ==> w.tokens == old(w.tokens) + LengthTokens(c).value && w.frames == old(w.frames)
  {
    var ops := c.operands;
    var f := w.StartFunCall("LENGTH");
    if |ops| == 0 {
      return Fail(OperandMissing(c.name, 0));
    }
    SizeListElement(ops, 0);
    res := Unparse(w, ops[0]);
    if res.Fail? {
      return;
    }
    w.EndFunCall(f);
    AppendCall(old(w.tokens), ["LENGTH"], Render(ops[0]).value);
  }

  /** TRIM as LTRIM, RTRIM or TRIM over the value, then the characters unless they
      are all whitespace. */
  method UnparseTrim(w: Writer, c: Node) returns (res: Outcome<Error>)
    requires c.Call?
    modifies w
    decreases Size(c), Rank(c), 1
    ensures res == StatusOf(TrimTokens(c))
    ensures TrimTokens(c).Ok? ==> w.tokens == old(w.tokens) + TrimTokens(c).value && w.frames == old(w.frames)
  {
    var ops := c.operands;
    if |ops| < 1 {
      return Fail(OperandMissing(c.name, 0));
    }
    if !IsLiteral(ops[0]) {
      return Fail(InvalidOperand("TRIM flag must be a literal"));
    }
    if |ops| < 2 {
      return Fail(OperandMissing(c.name, 1));
    }
    if !IsLiteral(ops[1]) {
      return Fail(InvalidOperand("TRIM characters must be a literal"));
    }
    if !ops[0].FlagLit? {
      return Fail(InvalidOperand("TRIM flag must be a flag"));
    }
    res := UnparseTrimCall(w, c);
  }

  /** The part of the TRIM rewrite that writes: once the flag and the characters are
      known to be literals, the call opens and its operands follow. */
  method UnparseTrimCall(w: Writer, c: Node) returns (res: Outcome<Error>)
    requires c.Call? && |c.operands| >= 2 && IsLiteral(c.operands[0]) && IsLiteral(c.operands[1])
    requires c.operands[0].FlagLit?
    modifies w
    decreases Size(c), Rank(c), 0
    ensures res == StatusOf(TrimTokens(c))
    ensures TrimTokens(c).Ok? ==> w.tokens == old(w.tokens) + TrimTokens(c).value && w.frames == old(w.frames)
  {
    var ops := c.operands;
    var f := w.StartFunCall(TrimFunctionName(ops[0].flag, c.name));
    if |ops| < 3 {
      return Fail(OperandMissing(c.name, 2));
    }
    SizeListElement(ops, 1);
    SizeListElement(ops, 2);
    ghost var t0 := old(w.tokens);
    ghost var name := Emit(TrimFunctionName(ops[0].flag, c.name));
    res := Unparse(w, ops[2]);
    if res.Fail? {
      return;
    }
    var chars := TrimCharsValue(ops[1]);
    if chars.Err? {
      return Fail(chars.error);
    }
    ghost var value := Render(ops[2]).value;
    if !AllWhitespace(chars.value) {
      w.Print(",");
      res := Unparse(w, ops[1]);
      ghost var cs := Render(ops[1]).value;
      w.EndFunCall(f);
      AppendCallPair(t0, name, value, cs);
      assert TrimTokens(c) == Ok(name + ["("] + value + [","] + cs + [")"]);
    } else {
      w.EndFunCall(f);
      AppendCall(t0, name, value);
      assert TrimTokens(c) == Ok(name + ["("] + value + [")"]);
    }
  }

  lemma AppendCallPair(t0: Tokens, name: Tokens, x: Tokens, y: Tokens)
    ensures t0 + name + ["("] + x + [","] + y + [")"] == t0 + (name + ["("] + x + [","] + y + [")"])
  {
  }

  lemma AppendCall(t0: Tokens, name: Tokens, body: Tokens)
    ensures t0 + name + ["("] + body + [")"] == t0 + (name + ["("] + body + [")"])
  {
  }

  /** The dispatch on the function name for TRUNCATE, IF and other functions. */
  method UnparseOtherFunction(w: Writer, c: Node) returns (res: Outcome<Error>)
    requires c.Call?
    modifies w
    decreases Size(c), Rank(c), 1
    ensures res == StatusOf(OtherFunctionTokens(c))
    ensures OtherFunctionTokens(c).Ok? ==>
      w.tokens == old(w.tokens) + OtherFunctionTokens(c).value && w.frames == old(w.frames)
  {
    var ops := c.operands;
    if c.name == "TRUNCATE" || c.name == "ROUND" {
      res := HandleMathFunction(w, c);
    } else if c.name == "FORMAT_DATE" {
      res := UnparseFormatDate(w, c);
    } else if c.name == "LOG10" {
      res := UnparseLog10(w, c);
    } else if c.name == "IF" {
      res := UnparseFunCall(w, "IFF", ops);
    } else if c.name == "STR_TO_DATE" {
      if |ops| < 2 {
        return Fail(OperandMissing(c.name, |ops|));
      }
      res := UnparseCall(w, ToDateCall(ops));
    } else if c.name == "INSTR" {
      res := UnparseFunCall(w, "REGEXP_INSTR", ops);
    } else if c.name == "DATE_DIFF" {
      res := UnparseDateDiff(w, c);
    } else if c.name in DateTimestampFormatNames {
      res := Fail(Delegated("DateTimestampFormatUtil"));
    } else {
      res := UnparseBase(w, c);
    }
  }

  /** `DATEDIFF(...)` over the operands from the last to the first. */
  method UnparseDateDiff(w: Writer, c: Node) returns (res: Outcome<Error>)
    requires c.Call?
    modifies w
    decreases Size(c), Rank(c), 0
    ensures res == StatusOf(FunCallAll("DATEDIFF", Reversed(c.operands)))
    ensures FunCallAll("DATEDIFF", Reversed(c.operands)).Ok? ==>
      && w.tokens == old(w.tokens) + FunCallAll("DATEDIFF", Reversed(c.operands)).value
      && w.frames == old(w.frames)
  {
    var f := w.StartFunCall("DATEDIFF");
    res := UnparseItemsBackwards(w, c.operands);
    if res.Fail? {
      return;
    }
    w.EndFunCall(f);
    AppendCall(old(w.tokens), Emit("DATEDIFF"), CommaList(RenderEach(Reversed(c.operands)).value));
  }

  /** The operands from the last to the first, each after `Sep(",")`, in the frame
      the caller opened. */
  method UnparseItemsBackwards(w: Writer, ops: seq<Node>) returns (res: Outcome<Error>)
    requires |w.frames| > 0 && w.frames[|w.frames| - 1].items == 0
    modifies w
    decreases SizeList(ops), 2, 4
    ensures res == StatusOf(RenderEach(Reversed(ops)))
    ensures RenderEach(Reversed(ops)).Ok? ==>
      && w.tokens == old(w.tokens) + CommaList(RenderEach(Reversed(ops)).value)
      && w.frames == old(w.frames)[..|old(w.frames)| - 1]
                     + [Frame(old(w.frames)[|old(w.frames)| - 1].close, |ops|)]
  {
    ghost var outer := w.frames[..|w.frames| - 1];
    var close := w.frames[|w.frames| - 1].close;
    var index := |ops| - 1;
    while index >= 0
      invariant -1 <= index < |ops|
      invariant RenderEach(Reversed(ops[index + 1..])).Ok?
      invariant w.tokens == old(w.tokens) + CommaList(RenderEach(Reversed(ops[index + 1..])).value)
      invariant w.frames == outer + [Frame(close, |ops| - 1 - index)]
    {
      ghost var ps := RenderEach(Reversed(ops[index + 1..])).value;
      SizeListElement(ops, index);
      res := UnparseItem(w, ops[index]);
      if res.Fail? {
        BackwardsFailure(ops, index);
        return;
      }
      BackwardsStep(ops, index);
      CommaListSnoc(old(w.tokens), ps, Render(ops[index]).value);
      index := index - 1;
    }
    assert ops[0..] == ops;
    res := Pass;
  }

  /** One more operand, taken from the front, renders at the end of the reversed list. */
  lemma BackwardsStep(ops: seq<Node>, index: nat)
    requires index < |ops| && RenderEach(Reversed(ops[index + 1..])).Ok? && Render(ops[index]).Ok?
    ensures RenderEach(Reversed(ops[index..]))
      == Ok(RenderEach(Reversed(ops[index + 1..])).value + [Render(ops[index]).value])
  {
    ReversedFrom(ops, index);
    RenderEachSnoc(Reversed(ops[index + 1..]), ops[index]);
  }

  /** The first operand that fails, going backwards, is the error of the whole list. */
  lemma BackwardsFailure(ops: seq<Node>, index: nat)
    requires index < |ops| && RenderEach(Reversed(ops[index + 1..])).Ok? && Render(ops[index]).Err?
    ensures RenderEach(Reversed(ops)) == Err(Render(ops[index]).error)
  {
    ReversedFrom(ops, index);
    RenderEachSnoc(Reversed(ops[index + 1..]), ops[index]);
    ReversedSuffix(ops, index);
    RenderEachPrefixErr(Reversed(ops), |ops| - index);
  }

  /** ROUND/TRUNCATE with the scale clamped unless it is a numeric literal. */
  method HandleMathFunction(w: Writer, c: Node) returns (res: Outcome<Error>)
    requires c.Call?
    modifies w
    decreases Size(c), Rank(c), 0
    ensures res == StatusOf(MathTokens(c))
    ensures MathTokens(c).Ok? ==> w.tokens == old(w.tokens) + MathTokens(c).value && w.frames == old(w.frames)
  {
    var ops := c.operands;
    var f := w.StartFunCall(c.name);
    if |ops| == 0 {
      return Fail(OperandMissing(c.name, 0));
    }
    ghost var name := Emit(c.name);
    SizeListElement(ops, 0);
    res := Unparse(w, ops[0]);
    if res.Fail? {
      return;
    }
    ghost var x := Render(ops[0]).value;
    if |ops| > 1 {
      w.Print(",");
      SizeListElement(ops, 1);
      res := UnparseScale(w, ops[1]);
      if res.Fail? {
        return;
      }
      ghost var s := Render(ops[1]).value;
      ghost var y := if ops[1].NumLit? then s else ClampCase(s);
      w.EndFunCall(f);
      AppendCallPair(old(w.tokens), name, x, y);
      assert MathTokens(c) == Ok(name + ["("] + x + [","] + y + [")"]);
    } else {
      w.EndFunCall(f);
      AppendCall(old(w.tokens), name, x);
      assert MathTokens(c) == Ok(name + ["("] + x + [")"]);
    }
  }

  /** The scale operand: as it is when a numeric literal, inside the clamping CASE
      otherwise. */
  method UnparseScale(w: Writer, s: Node) returns (res: Outcome<Error>)
    modifies w
    decreases Size(s), Rank(s), 4
    ensures res == StatusOf(Render(s))
    ensures Render(s).Ok? ==>
      && w.tokens == old(w.tokens) + (if s.NumLit? then Render(s).value else ClampCase(Render(s).value))
      && w.frames == old(w.frames)
  {
    if s.NumLit? {
      res := Unparse(w, s);
      return;
    }
    ghost var t0 := w.tokens;
    w.Print("CASE WHEN ");
    res := Unparse(w, s);
    if res.Fail? {
      return;
    }
    w.Print("> 38 THEN 38 ");
    w.Print("WHEN ");
    res := Unparse(w, s);
    w.Print("< -12 THEN -12 ");
    w.Print("ELSE ");
    res := Unparse(w, s);
    w.Print("END");
    ClampAppend(t0, Render(s).value);
  }

  lemma ClampAppend(t0: Tokens, x: Tokens)
    ensures t0 + ["CASE WHEN "] + x + ["> 38 THEN 38 "] + ["WHEN "] + x + ["< -12 THEN -12 "] + ["ELSE "] + x + ["END"]
         == t0 + ClampCase(x)
  {
  }

  /** `TO_VARCHAR(op1,op0)`. */
  method UnparseFormatDate(w: Writer, c: Node) returns (res: Outcome<Error>)
    requires c.Call?
    modifies w
    decreases Size(c), Rank(c), 0
    ensures res == StatusOf(FormatDateTokens(c))
    ensures FormatDateTokens(c).Ok? ==>
      w.tokens == old(w.tokens) + FormatDateTokens(c).value && w.frames == old(w.frames)
  {
    var ops := c.operands;
    var f := w.StartFunCall("TO_VARCHAR");
    if |ops| < 2 {
      return Fail(OperandMissing(c.name, 1));
    }
    SizeListElement(ops, 0);
    SizeListElement(ops, 1);
    res := Unparse(w, ops[1]);
    if res.Fail? {
      return;
    }
    w.Print(",");
    res := Unparse(w, ops[0]);
    if res.Fail? {
      return;
    }
    w.EndFunCall(f);
    AppendCallPair(old(w.tokens), ["TO_VARCHAR"], Render(ops[1]).value, Render(ops[0]).value);
    assert ["TO_VARCHAR"] + ["("] == ["TO_VARCHAR", "("];
    assert FormatDateTokens(c) == Ok(["TO_VARCHAR"] + ["("] + Render(ops[1]).value + [","] + Render(ops[0]).value + [")"]);
  }

  /** `0` for LOG10(1), `LOG(10, x)` otherwise. */
  method UnparseLog10(w: Writer, c: Node) returns (res: Outcome<Error>)
    requires c.Call?
    modifies w
    decreases Size(c), Rank(c), 0
    ensures res == StatusOf(Log10Tokens(c))
    ensures Log10Tokens(c).Ok? ==> w.tokens == old(w.tokens) + Log10Tokens(c).value && w.frames == old(w.frames)
  {
    var ops := c.operands;
    if |ops| == 0 {
      return Fail(OperandMissing(c.name, 0));
    }
    if ops[0] == NumLit("1") {
      w.Print("0");
      return Pass;
    }
    var f := w.StartFunCall("LOG");
    w.Print("10");
    w.Print(", ");
    SizeListElement(ops, 0);
    res := Unparse(w, ops[0]);
    if res.Fail? {
      return;
    }
    w.EndFunCall(f);
    Log10Append(old(w.tokens), Render(ops[0]).value);
  }

  lemma Log10Append(t0: Tokens, x: Tokens)
    ensures t0 + ["LOG"] + ["("] + ["10"] + [", "] + x + [")"] == t0 + (["LOG", "(", "10", ", "] + x + [")"])
  {
  }

  /** OVER: the aggregate and the Snowflake window when the window has no ORDER BY. */
  method HandleOverCall(w: Writer, c: Node) returns (res: Outcome<Error>)
    requires c.Call?
    modifies w
    decreases Size(c), Rank(c), 0
    ensures res == StatusOf(OverTokens(c))
    ensures OverTokens(c).Ok? ==> w.tokens == old(w.tokens) + OverTokens(c).value && w.frames == old(w.frames)
  {
    var ops := c.operands;
    if |ops| < 2 {
      return Fail(OperandMissing(c.name, 1));
    }
    if !ops[1].Window? {
      return Fail(InvalidOperand("OVER operand 1 must be a window"));
    }
    if ops[1].orderList != [] {
      return Fail(Delegated("SqlWindow.unparse"));
    }
    SizeListElement(ops, 0);
    SizeListElement(ops, 1);
    res := Unparse(w, ops[0]);
    if res.Fail? {
      return;
    }
    res := UnparseSqlWindow(w, ops[1]);
  }

  /** `OVER (name PARTITION BY ... ORDER BY ...)`. */
  method UnparseSqlWindow(w: Writer, win: Node) returns (res: Outcome<Error>)
    requires win.Window?
    modifies w
    decreases Size(win), 0, 1
    ensures res == StatusOf(WindowTokens(win))
    ensures WindowTokens(win).Ok? ==> w.tokens == old(w.tokens) + WindowTokens(win).value && w.frames == old(w.frames)
  {
    ghost var name: Tokens := match win.refName case Some(r) => [IdentifierToken(r)] case None => [];
    w.Print("OVER ");
    var f := w.StartList("(", ")");
    if win.refName.Some? {
      w.Print(IdentifierToken(win.refName.value));
    }
    res := UnparseWindowSections(w, win);
    if res.Fail? {
      return;
    }
    w.EndList(f);
    WindowAppend(old(w.tokens), name, WindowSections(win).value);
  }

  /** The window's parts, in the frame its parenthesis opened. */
  method UnparseWindowSections(w: Writer, win: Node) returns (res: Outcome<Error>)
    requires win.Window? && |w.frames| > 0
    modifies w
    decreases Size(win), 0, 0
    ensures res == StatusOf(WindowSections(win))
    ensures WindowSections(win).Ok? ==>
      && w.tokens == old(w.tokens) + WindowSections(win).value
      && |w.frames| == |old(w.frames)|
      && w.frames[..|w.frames| - 1] == old(w.frames)[..|old(w.frames)| - 1]
      && w.frames[|w.frames| - 1].close == old(w.frames)[|old(w.frames)| - 1].close
  {
    ghost var parts: Tokens := [];
    if win.partitions != [] {
      res := UnparseWindowSection(w, "PARTITION BY", win.partitions);
      if res.Fail? {
        return;
      }
      parts := ["PARTITION BY"] + NodeListTokens(win.partitions).value;
    }
    ghost var t1 := w.tokens;
    assert t1 == old(w.tokens) + parts;
    ghost var orders: Tokens := [];
    if win.orderList != [] {
      res := UnparseWindowSection(w, "ORDER BY", win.orderList);
      if res.Fail? {
        return;
      }
      orders := ["ORDER BY"] + NodeListTokens(win.orderList).value;
    }
    assert w.tokens == t1 + orders;
    assert WindowSections(win) == Ok(parts + orders);
    res := Pass;
  }

  /** `PARTITION BY` or `ORDER BY` and its list, as the next item of the window's frame. */
  method UnparseWindowSection(w: Writer, keyword: string, list: seq<Node>) returns (res: Outcome<Error>)
    requires |w.frames| > 0 && keyword != "" && keyword != "," && keyword != "."
    modifies w
    decreases SizeList(list), 2, 6
    ensures res == StatusOf(NodeListTokens(list))
    ensures NodeListTokens(list).Ok? ==>
      && w.tokens == old(w.tokens) + [keyword] + NodeListTokens(list).value
      && w.frames == old(w.frames)[..|old(w.frames)| - 1]
                     + [Frame(old(w.frames)[|old(w.frames)| - 1].close, old(w.frames)[|old(w.frames)| - 1].items + 1)]
  {
    w.Sep(keyword);
    var f := w.StartList("", "");
    res := UnparseNodeList(w, list);
    if res.Fail? {
      return;
    }
    w.EndList(f);
  }

  lemma WindowAppend(t0: Tokens, name: Tokens, body: Tokens)
    ensures t0 + ["OVER "] + ["("] + name + body + [")"] == t0 + (["OVER ", "("] + name + body + [")"])
  {
  }

  /** The generic layout the dialect falls back to. */
  method UnparseBase(w: Writer, c: Node) returns (res: Outcome<Error>)
    requires c.Call?
    modifies w
    decreases Size(c), Rank(c), 0
    ensures res == StatusOf(BaseTokens(c))
    ensures BaseTokens(c).Ok? ==> w.tokens == old(w.tokens) + BaseTokens(c).value && w.frames == old(w.frames)
  {
    var ops := c.operands;
    if !ArityFits(c.syntax, |ops|) {
      return Fail(InvalidOperand("wrong number of operands for " + c.name));
    }
    match c.syntax
    case FunctionSyntax =>
      res := UnparseFunCall(w, c.name, ops);
    case PrefixSyntax =>
      SizeListElement(ops, 0);
      w.Print(c.name);
      res := Unparse(w, ops[0]);
    case PostfixSyntax =>
      SizeListElement(ops, 0);
      res := Unparse(w, ops[0]);
      if res.Fail? {
        return;
      }
      w.Print(c.name);
    case BinarySyntax =>
      res := UnparseBinary(w, c);
  }

  /** `a name b`: both operands in a fresh frame, the operator as its separator. */
  method UnparseBinary(w: Writer, c: Node) returns (res: Outcome<Error>)
    requires c.Call? && c.syntax == BinarySyntax && |c.operands| == 2
    modifies w
    decreases SizeList(c.operands), 2, 7
    ensures res == StatusOf(BaseTokens(c))
    ensures BaseTokens(c).Ok? ==> w.tokens == old(w.tokens) + BaseTokens(c).value && w.frames == old(w.frames)
  {
    var ops := c.operands;
    SizeListElement(ops, 0);
    SizeListElement(ops, 1);
    var f := w.StartList("", "");
    res := Unparse(w, ops[0]);
    if res.Fail? {
      return;
    }
    w.Sep(c.name);
    res := Unparse(w, ops[1]);
    if res.Fail? {
      return;
    }
    w.EndList(f);
    ghost var op := if SepPrints(c.name, 0) then Emit(c.name) else [];
    AppendThree(old(w.tokens), Render(ops[0]).value, op, Render(ops[1]).value);
    assert BaseTokens(c) == Ok(Render(ops[0]).value + op + Render(ops[1]).value);
  }

  lemma AppendThree(t0: Tokens, a: Tokens, b: Tokens, c: Tokens)
    ensures t0 + [] + a + b + c + [] == t0 + (a + b + c)
  {
  }

  // ---------------------------------------------------------------------------
  // Date arithmetic with intervals

  /** `(d + n)` / `(d - n)` for a date plus or minus a day interval. */
  method UnparseIntervalOperandsBasedFunctions(w: Writer, c: Node) returns (res: Outcome<Error>)
    requires c.Call?
    modifies w
    ensures res == StatusOf(IntervalOperandsTokens(c))
    ensures IntervalOperandsTokens(c).Ok? ==>
      w.tokens == old(w.tokens) + IntervalOperandsTokens(c).value && w.frames == old(w.frames)
  {
    var ops := c.operands;
    var f := w.StartList("(", ")");
    if |ops| == 0 {
      return Fail(OperandMissing(c.name, 0));
    }
    res := Unparse(w, ops[0]);
    if res.Fail? {
      return;
    }
    var op := if c.kind == Plus then "+" else "-";
    w.Sep(op);
    if |ops| < 2 {
      return Fail(OperandMissing(c.name, 1));
    }
    res := UnparseIntervalOperand(w, ops[1]);
    if res.Fail? {
      return;
    }
    ghost var i := IntervalOperandTokens(ops[1]).value;
    w.EndList(f);
    IntervalAppend(old(w.tokens), Render(ops[0]).value, op, i);
    assert IntervalOperandsTokens(c) == Ok(["("] + Render(ops[0]).value + [op] + i + [")"]);
  }

  /** The interval operand, inside the frame the caller opened. */
  method UnparseIntervalOperand(w: Writer, interval: Node) returns (res: Outcome<Error>)
    requires |w.frames| > 0
    modifies w
    ensures res == StatusOf(IntervalOperandTokens(interval))
    ensures IntervalOperandTokens(interval).Ok? ==>
      && w.tokens == old(w.tokens) + IntervalOperandTokens(interval).value
      && |w.frames| == |old(w.frames)|
      && w.frames[..|w.frames| - 1] == old(w.frames)[..|old(w.frames)| - 1]
      && w.frames[|w.frames| - 1].close == old(w.frames)[|old(w.frames)| - 1].close
  {
    if interval.IntervalLit? {
      UnparseSqlIntervalLiteral(w, interval.sign, interval.text);
      res := Pass;
    } else if interval.NumLit? || interval.StrLit? || interval.FlagLit? || interval.NullLit? {
      res := Fail(InvalidOperand("literal is not an interval literal"));
    } else if interval.Call? && interval.kind == Times {
      res := UnparseExpressionIntervalCall(w, interval);
    } else {
      res := Fail(InvalidOperand("operand kind is not valid"));
    }
  }

  lemma IntervalAppend(t0: Tokens, d: Tokens, op: string, i: Tokens)
    ensures t0 + ["("] + d + [op] + i + [")"] == t0 + (["("] + d + [op] + i + [")"])
  {
  }

  /** `n * k` for `n * INTERVAL 'k' unit`, just `n` when k is 1; the separators go
      into the enclosing frame. */
  method UnparseExpressionIntervalCall(w: Writer, t: Node) returns (res: Outcome<Error>)
    requires t.Call? && |w.frames| > 0
    modifies w
    ensures res == StatusOf(TimesIntervalTokens(t))
    ensures TimesIntervalTokens(t).Ok? ==>
      && w.tokens == old(w.tokens) + TimesIntervalTokens(t).value
      && |w.frames| == |old(w.frames)|
      && w.frames[..|w.frames| - 1] == old(w.frames)[..|old(w.frames)| - 1]
      && w.frames[|w.frames| - 1].close == old(w.frames)[|old(w.frames)| - 1].close
  {
    var ops := t.operands;
    if |ops| < 2 {
      return Fail(OperandMissing(t.name, 1));
    }
    var lit := ops[IntervalLiteralIndex(ops)];
    if !lit.IntervalLit? {
      return Fail(InvalidOperand("interval operand is not an interval literal"));
    }
    res := Unparse(w, ops[IdentifierIndex(ops)]);
    if res.Fail? {
      return;
    }
    if lit.text != "1" {
      w.Sep("*");
      w.Sep(lit.text);
    }
  }
}
