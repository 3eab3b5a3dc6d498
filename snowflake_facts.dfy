/** What the Snowflake rendering guarantees: every operand kept and in order, the
    renamings and reorderings of the dialect's recipes, the TRIM and LOG10 special
    cases, the clamped scale, the OVER window without ORDER BY, and the date
    arithmetic with intervals. */
module SnowflakeFacts {
  import opened Wrappers
  import opened SqlTree
  import opened SqlWriter
  import opened DialectProfile
  import opened Snowflake

  /** Every operand renders without error. */
  predicate AllRender(ops: seq<Node>)
  {
    forall i :: 0 <= i < |ops| ==> Render(ops[i]).Ok?
  }

  /** The rendering of each operand, in operand order. */
  function RenderedOperands(ops: seq<Node>): (r: seq<Tokens>)
    requires AllRender(ops)
    ensures |r| == |ops|
  {
    seq(|ops|, i requires 0 <= i < |ops| => Render(ops[i]).value)
  }

  /** `r` is `name(op, op, ...)` over exactly the given operands, and fails exactly
      when one of them fails. */
  predicate IsCallOver(r: Result<Tokens, Error>, name: string, ops: seq<Node>)
  {
    && r.Ok? == AllRender(ops)
    && (AllRender(ops) ==> r.value == CallLayout(name, RenderedOperands(ops)))
  }

  // ---------------------------------------------------------------------------
  // The operand list

  /** The operand list renders exactly when every operand does, to the operands'
      own renderings in order. */
  lemma {:induction false} RenderEachSpec(ops: seq<Node>)
    ensures RenderEach(ops).Ok? == AllRender(ops)
    ensures AllRender(ops) ==> RenderEach(ops).value == RenderedOperands(ops)
    decreases |ops|
  {
    if ops != [] {
      var init := ops[..|ops| - 1];
      RenderEachSpec(init);
      assert AllRender(ops) ==> AllRender(init) by {
        if AllRender(ops) {
          forall i | 0 <= i < |init| ensures Render(init[i]).Ok? {
            assert init[i] == ops[i];
          }
        }
      }
      if AllRender(init) && Render(ops[|ops| - 1]).Ok? {
        assert AllRender(ops) by {
          forall i | 0 <= i < |ops| ensures Render(ops[i]).Ok? {
            if i < |init| { assert init[i] == ops[i]; }
          }
        }
      }
    }
  }

  /** Once a prefix of the operands fails, the whole list fails with the same error. */
  lemma {:induction false} RenderEachPrefixErr(ops: seq<Node>, k: nat)
    requires k <= |ops| && RenderEach(ops[..k]).Err?
    ensures RenderEach(ops) == RenderEach(ops[..k])
    decreases |ops| - k
  {
    if k < |ops| {
      assert ops[..k + 1][..k] == ops[..k];
      RenderEachPrefixErr(ops, k + 1);
    } else {
      assert ops[..k] == ops;
    }
  }

  /** Rendering one more operand at the end of a list. */
  lemma RenderEachSnoc(ops: seq<Node>, x: Node)
    requires RenderEach(ops).Ok?
    ensures Render(x).Err? ==> RenderEach(ops + [x]) == Err(Render(x).error)
    ensures Render(x).Ok? ==> RenderEach(ops + [x]) == Ok(RenderEach(ops).value + [Render(x).value])
  {
    assert (ops + [x])[..|ops|] == ops;
  }

  /** The tail of a list, reversed, is the front of the whole list reversed. */
  lemma {:induction false} ReversedSuffix<T>(s: seq<T>, k: nat)
    requires k <= |s|
    ensures Reversed(s)[..|s| - k] == Reversed(s[k..])
    decreases k
  {
    if k > 0 {
      ReversedSuffix(s, k - 1);
      var t := s[k - 1..];
      assert t[1..] == s[k..];
      assert Reversed(t) == Reversed(s[k..]) + [s[k - 1]];
      assert Reversed(s)[..|s| - k] == Reversed(s)[..|s| - (k - 1)][..|s| - k];
    } else {
      assert s[0..] == s;
    }
  }

  lemma FunCallAllSpec(name: string, ops: seq<Node>)
    ensures IsCallOver(FunCallAll(name, ops), name, ops)
  {
    RenderEachSpec(ops);
  }

  // ---------------------------------------------------------------------------
  // Dispatch

  /** The calls that reach the dispatch on the function name. */
  predicate ReachesOtherFunction(c: Node)
  {
    c.Call? && c.kind in {Truncate, If, OtherFunction}
  }

  /** The kinds the dialect has no rule for. */
  predicate GenericKind(k: Kind)
  {
    k in {Plus, Minus, Times, Union, Position, OtherKind}
  }

  lemma RenderDispatch(c: Node)
    requires c.Call?
    ensures Render(c) == RenderCall(c)
    ensures ReachesOtherFunction(c) ==> Render(c) == OtherFunctionTokens(c)
    ensures GenericKind(c.kind) ==> Render(c) == BaseTokens(c)
  {
  }

  // ---------------------------------------------------------------------------
  // Renamed and reordered functions

  /** SUBSTRING is printed as SUBSTR over all its operands. */
  lemma SubstringIsSubstr(c: Node)
    requires c.Call? && c.kind == Substring
    ensures IsCallOver(Render(c), "SUBSTR", c.operands)
  {
    RenderDispatch(c);
    FunCallAllSpec("SUBSTR", c.operands);
  }

  /** IF is printed as IFF and INSTR as REGEXP_INSTR, over all their operands. */
  lemma IfAndInstrRenamed(c: Node)
    requires ReachesOtherFunction(c)
    ensures c.name == "IF" ==> IsCallOver(Render(c), "IFF", c.operands)
    ensures c.name == "INSTR" ==> IsCallOver(Render(c), "REGEXP_INSTR", c.operands)
  {
    RenderDispatch(c);
    FunCallAllSpec("IFF", c.operands);
    FunCallAllSpec("REGEXP_INSTR", c.operands);
  }

  /** DATE_DIFF(a, b, ...) is printed as DATEDIFF over the operands in reverse order. */
  lemma DateDiffReversesOperands(c: Node)
    requires ReachesOtherFunction(c) && c.name == "DATE_DIFF"
    ensures Render(c).Ok? == AllRender(c.operands)
    ensures AllRender(c.operands) ==>
      Render(c).value == CallLayout("DATEDIFF", Reversed(RenderedOperands(c.operands)))
  {
    var ops := c.operands;
    var rev := Reversed(ops);
    RenderDispatch(c);
    FunCallAllSpec("DATEDIFF", rev);
    assert AllRender(rev) == AllRender(ops) by {
      if AllRender(ops) {
        forall i | 0 <= i < |rev| ensures Render(rev[i]).Ok? {
          ReversedAt(ops, i);
        }
      }
      if AllRender(rev) {
        forall i | 0 <= i < |ops| ensures Render(ops[i]).Ok? {
          ReversedAt(ops, |ops| - 1 - i);
        }
      }
    }
    if AllRender(ops) {
      var a := RenderedOperands(rev);
      var b := Reversed(RenderedOperands(ops));
      forall i | 0 <= i < |a| ensures a[i] == b[i] {
        ReversedAt(ops, i);
        ReversedAt(RenderedOperands(ops), i);
      }
      assert a == b;
    }
  }

  /** STR_TO_DATE(s, f, ...) is printed as TO_DATE(s, f): the call is rewritten and
      unparsed again, and any operand after the second is dropped. */
  lemma StrToDateIsToDate(c: Node)
    requires ReachesOtherFunction(c) && c.name == "STR_TO_DATE" && |c.operands| >= 2
    ensures IsCallOver(Render(c), "TO_DATE", c.operands[..2])
  {
    var td := ToDateCall(c.operands);
    RenderDispatch(c);
    assert Render(c) == RenderCall(td);
    assert "TO_DATE" !in DateTimestampFormatNames;
    assert RenderCall(td) == OtherFunctionTokens(td) == BaseTokens(td);
    FunCallAllSpec("TO_DATE", c.operands[..2]);
  }

  /** STR_TO_DATE with fewer than two operands fails. */
  lemma StrToDateNeedsTwoOperands(c: Node)
    requires ReachesOtherFunction(c) && c.name == "STR_TO_DATE" && |c.operands| < 2
    ensures Render(c) == Err(OperandMissing("STR_TO_DATE", |c.operands|))
  {
    RenderDispatch(c);
  }

  /** FORMAT_DATE(fmt, d) is printed as TO_VARCHAR(d,fmt): the operands swap places. */
  lemma FormatDateSwapsOperands(c: Node)
    requires ReachesOtherFunction(c) && c.name == "FORMAT_DATE" && |c.operands| >= 2
    ensures Render(c).Ok? == (Render(c.operands[0]).Ok? && Render(c.operands[1]).Ok?)
    ensures Render(c).Ok? ==>
      Render(c).value == ["TO_VARCHAR", "("] + Render(c.operands[1]).value + [","] + Render(c.operands[0]).value + [")"]
  {
    RenderDispatch(c);
  }

  /** CHAR_LENGTH(x) is printed as LENGTH(x). */
  lemma CharLengthIsLength(c: Node)
    requires c.Call? && c.kind == CharLength && |c.operands| >= 1
    ensures Render(c).Ok? == Render(c.operands[0]).Ok?
    ensures Render(c).Ok? ==> Render(c).value == ["LENGTH", "("] + Render(c.operands[0]).value + [")"]
  {
    RenderDispatch(c);
  }

  // ---------------------------------------------------------------------------
  // LOG10

  /** LOG10(1) is folded to the constant 0; any other argument becomes LOG(10, x). */
  lemma Log10Rewrite(c: Node)
    requires ReachesOtherFunction(c) && c.name == "LOG10" && |c.operands| >= 1
    ensures c.operands[0] == NumLit("1") ==> Render(c) == Ok(["0"])
    ensures c.operands[0] != NumLit("1") ==>
      && Render(c).Ok? == Render(c.operands[0]).Ok?
      && (Render(c).Ok? ==> Render(c).value == ["LOG", "(", "10", ", "] + Render(c.operands[0]).value + [")"])
  {
    RenderDispatch(c);
  }

  // ---------------------------------------------------------------------------
  // ROUND and TRUNCATE

  /** Evaluated at a scale value `v`, the clamp's arms (`> 38 THEN 38`, `< -12 THEN
      -12`, `ELSE v`) give a scale within Snowflake's range [-12, 38], leave one
      already in range as it is, and move one outside it to the nearer bound. */
  lemma ClampCaseMeaning(v: int)
    ensures -12 <= EvalCase(ClampArms, v) <= 38
    ensures -12 <= v <= 38 ==> EvalCase(ClampArms, v) == v
    ensures v > 38 ==> EvalCase(ClampArms, v) == 38
    ensures v < -12 ==> EvalCase(ClampArms, v) == -12
  {
    assert ClampArms[1..] == [Arm("<", -12, -12)];
    assert ClampArms[1..][1..] == [];
  }

  lemma UpperBoundText()
    ensures IntText(38) == "38"
  {
    assert NatText(3) == "3";
  }

  lemma LowerBoundText()
    ensures IntText(-12) == "-12"
  {
    assert NatText(1) == "1";
    assert NatText(12) == "12";
  }

  /** The two arms print as the comparisons the dialect writes. */
  lemma ClampArmTexts()
    ensures ArmText(ClampArms[0]) == "> 38 THEN 38 "
    ensures ArmText(ClampArms[1]) == "< -12 THEN -12 "
  {
    UpperBoundText();
    LowerBoundText();
  }

  /** A CASE of two arms: the first opened by `CASE WHEN `, the second by `WHEN `. */
  lemma PrintCaseOfTwo(a: Arm, b: Arm, s: Tokens)
    ensures PrintCase([a, b], s)
      == ["CASE WHEN "] + s + [ArmText(a), "WHEN "] + s + [ArmText(b), "ELSE "] + s + ["END"]
  {
    assert [b][1..] == [];
    var second := ["WHEN "] + s + [ArmText(b)];
    assert PrintArms([b], s, "WHEN ") == second + PrintArms([], s, "WHEN ") == second;
    assert [a, b][1..] == [b];
    var first := ["CASE WHEN "] + s + [ArmText(a)];
    assert PrintArms([a, b], s, "CASE WHEN ") == first + second;
  }

  /** The CASE the dialect prints for the scale `s` is the searched CASE of the
      clamp's arms over `s`, so `ClampCaseMeaning` is the value it evaluates to. */
  lemma ClampCaseIsPrintCase(s: Tokens)
    ensures ClampCase(s) == PrintCase(ClampArms, s)
  {
    ClampArmTexts();
    PrintCaseOfTwo(ClampArms[0], ClampArms[1], s);
    assert ClampArms == [ClampArms[0], ClampArms[1]];
  }

  /** The clamped scale repeats the scale expression three times, once in each arm. */
  lemma ClampCaseRepeatsScale(s: Tokens)
    ensures |ClampCase(s)| == 3 * |s| + 6
    ensures ClampCase(s)[1..1 + |s|] == s
    ensures ClampCase(s)[3 + |s|..3 + 2 * |s|] == s
    ensures ClampCase(s)[5 + 2 * |s|..5 + 3 * |s|] == s
  {
  }

  /** ROUND/TRUNCATE keep a numeric-literal scale as it is and wrap any other scale
      in the clamping CASE; with one operand the call is printed unchanged. */
  lemma MathScaleHandling(c: Node)
    requires ReachesOtherFunction(c) && (c.name == "TRUNCATE" || c.name == "ROUND")
    requires |c.operands| >= 1
    ensures |c.operands| == 1 ==>
      && Render(c).Ok? == Render(c.operands[0]).Ok?
      && (Render(c).Ok? ==> Render(c).value == Emit(c.name) + ["("] + Render(c.operands[0]).value + [")"])
    ensures |c.operands| >= 2 ==>
      && Render(c).Ok? == (Render(c.operands[0]).Ok? && Render(c.operands[1]).Ok?)
      && (Render(c).Ok? ==>
            var x := Render(c.operands[0]).value;
            var s := Render(c.operands[1]).value;
            Render(c).value == Emit(c.name) + ["("] + x + [","]
              + (if c.operands[1].NumLit? then s else ClampCase(s)) + [")"])
  {
    RenderDispatch(c);
  }

  // ---------------------------------------------------------------------------
  // TRIM

  /** TRIM(flag, chars, value) becomes LTRIM for LEADING, RTRIM for TRAILING and
      keeps its name for BOTH; the characters follow the value unless they are all
      whitespace. */
  lemma TrimLayout(c: Node)
    requires c.Call? && c.kind == Trim && |c.operands| >= 3
    requires c.operands[0].FlagLit? && c.operands[1].StrLit?
    ensures Render(c).Ok? == Render(c.operands[2]).Ok?
    ensures Render(c).Ok? ==>
      var v := c.operands[1].value;
      Render(c).value ==
        Emit(TrimFunctionName(c.operands[0].flag, c.name)) + ["("] + Render(c.operands[2]).value
        + (if AllWhitespace(v) then [] else [",", QuoteStringLiteral(SnowflakeDefault, v)])
        + [")"]
  {
    RenderDispatch(c);
    assert Render(c) == TrimTokens(c);
    assert Render(c.operands[1]) == Ok([QuoteStringLiteral(SnowflakeDefault, c.operands[1].value)]);
  }

  /** TRIM whose first operand is not a flag, or whose second is not a literal, fails. */
  lemma TrimRejectsMalformed(c: Node)
    requires c.Call? && c.kind == Trim && |c.operands| >= 2
    requires !c.operands[0].FlagLit? || !IsLiteral(c.operands[1])
    ensures Render(c).Err?
  {
    RenderDispatch(c);
  }

  /** The flag decides the function: LTRIM exactly for LEADING, RTRIM exactly for
      TRAILING (given a call not itself named so). */
  lemma TrimFunctionNameChoice(f: TrimFlag, name: string)
    requires name != "LTRIM" && name != "RTRIM"
    ensures TrimFunctionName(f, name) == "LTRIM" <==> f == Leading
    ensures TrimFunctionName(f, name) == "RTRIM" <==> f == Trailing
    ensures TrimFunctionName(f, name) == name <==> f == Both
  {
  }

  // ---------------------------------------------------------------------------
  // OVER

  /** An OVER whose window has an ORDER BY is left to the generic window layout; one
      without is printed as `agg OVER (name PARTITION BY ...)`, with no ORDER BY. */
  lemma OverWindowLayout(c: Node)
    requires c.Call? && c.kind == Over && |c.operands| >= 2 && c.operands[1].Window?
    ensures c.operands[1].orderList != [] ==> Render(c) == Err(Delegated("SqlWindow.unparse"))
    ensures c.operands[1].orderList == [] ==>
      var win := c.operands[1];
      && Render(c).Ok? == (Render(c.operands[0]).Ok? && AllRender(win.partitions))
      && (Render(c).Ok? ==>
            Render(c).value == Render(c.operands[0]).value + ["OVER ", "("]
              + (match win.refName case Some(r) => [IdentifierToken(r)] case None => [])
              + (if win.partitions == [] then [] else ["PARTITION BY"] + CommaList(RenderedOperands(win.partitions)))
              + [")"])
  {
    var win := c.operands[1];
    RenderDispatch(c);
    assert Render(c) == OverTokens(c);
    if win.orderList == [] {
      PartitionOnlySections(win);
      assert WindowTokens(win).Ok? == AllRender(win.partitions);
      assert OverTokens(c).Ok? == (Render(c.operands[0]).Ok? && WindowTokens(win).Ok?);
    }
  }

  /** Without an ORDER BY a window's parts are its PARTITION BY list, if any. */
  lemma PartitionOnlySections(win: Node)
    requires win.Window? && win.orderList == []
    ensures WindowSections(win).Ok? == AllRender(win.partitions)
    ensures WindowSections(win).Ok? ==>
      WindowSections(win).value == (if win.partitions == [] then [] else ["PARTITION BY"] + CommaList(RenderedOperands(win.partitions)))
  {
    RenderEachSpec(win.partitions);
    if win.partitions != [] {
      assert NodeListTokens(win.partitions).Ok? == AllRender(win.partitions);
    }
  }

  // ---------------------------------------------------------------------------
  // Generic layout

  /** A call of a kind and name the dialect has no rule for, in function syntax, is
      printed as `name(op, ...)` over all its operands. */
  lemma GenericFunctionLayout(c: Node)
    requires c.Call? && c.syntax == FunctionSyntax && GenericKind(c.kind)
    ensures IsCallOver(Render(c), c.name, c.operands)
  {
    RenderDispatch(c);
    FunCallAllSpec(c.name, c.operands);
  }

  /** A binary call needs exactly two operands and prints its name between them. */
  lemma GenericBinaryLayout(c: Node)
    requires c.Call? && c.syntax == BinarySyntax && GenericKind(c.kind)
    ensures |c.operands| != 2 ==> Render(c).Err?
    ensures |c.operands| == 2 ==>
      && Render(c).Ok? == (Render(c.operands[0]).Ok? && Render(c.operands[1]).Ok?)
      && (Render(c).Ok? ==>
            Render(c).value == Render(c.operands[0]).value
              + (if SepPrints(c.name, 0) then Emit(c.name) else []) + Render(c.operands[1]).value)
  {
    RenderDispatch(c);
  }

  // ---------------------------------------------------------------------------
  // Date arithmetic with intervals

  /** The two selectors of `a * b` always pick different operands. */
  lemma SelectorsPickBothOperands(times: seq<Node>)
    requires |times| >= 2
    ensures {IntervalLiteralIndex(times), IdentifierIndex(times)} == {0, 1}
  {
  }

  /** An identifier or numeric multiplier may stand on either side of the interval. */
  lemma TimesIntervalEitherOrder(x: Node, name: string, syntax: Syntax, sign: int, text: string)
    requires x.Ident? || x.NumLit?
    ensures TimesIntervalTokens(Call(Times, name, syntax, [x, IntervalLit(sign, text)]))
         == TimesIntervalTokens(Call(Times, name, syntax, [IntervalLit(sign, text), x]))
  {
  }

  /** A product whose interval is 1 prints only the multiplier; any other interval
      is appended as `* k`. */
  lemma TimesIntervalLayout(x: Node, name: string, syntax: Syntax, sign: int, text: string)
    requires Render(x).Ok?
    ensures TimesIntervalTokens(Call(Times, name, syntax, [x, IntervalLit(sign, text)]))
         == Ok(Render(x).value + (if text == "1" then [] else ["*"] + Emit(text)))
  {
  }

  /** A date plus or minus an interval is parenthesised: the date, the operator
      (`+` exactly for a PLUS call), then the interval operand's own tokens. */
  lemma IntervalOperandsLayout(c: Node)
    requires c.Call? && |c.operands| >= 2
    ensures IntervalOperandsTokens(c).Ok? ==
      (Render(c.operands[0]).Ok? && IntervalOperandTokens(c.operands[1]).Ok?)
    ensures IntervalOperandsTokens(c).Ok? ==>
      var d := Render(c.operands[0]).value;
      var t := IntervalOperandsTokens(c).value;
      && t[0] == "(" && t[|t| - 1] == ")"
      && t[1..1 + |d|] == d
      && (t[1 + |d|] == "+" <==> c.kind == Plus)
      && (t[1 + |d|] == "-" <==> c.kind != Plus)
      && t == ["("] + d + [if c.kind == Plus then "+" else "-"]
              + IntervalOperandTokens(c.operands[1]).value + [")"]
  {
  }

  /** A product as the interval operand is written by the multiplier rule. */
  lemma ProductOperand(t: Node)
    requires t.Call? && t.kind == Times
    ensures IntervalOperandTokens(t) == TimesIntervalTokens(t)
  {
  }

  /** Only a DATE call with a day interval as its second operand is redirected, to
      DATE_SUB exactly when it is a MINUS. */
  lemma TargetFuncChoice(returnType: TypeName, kind: Kind, operandTypes: seq<TypeName>)
    requires returnType != DateType || |operandTypes| >= 2
    ensures GetTargetFunc(returnType, kind, operandTypes).Ok?
    ensures GetTargetFunc(returnType, kind, operandTypes).value != BaseTargetFunc <==>
      returnType == DateType && operandTypes[1] == IntervalDayType
    ensures GetTargetFunc(returnType, kind, operandTypes).value == DateSubFunc <==>
      returnType == DateType && operandTypes[1] == IntervalDayType && kind == Minus
  {
  }
}
