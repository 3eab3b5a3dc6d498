/** Concrete Snowflake renderings of the dialect's own examples: SUBSTR, LENGTH,
    TO_VARCHAR, TO_DATE and IFF in place of the source functions, LOG10 folded or
    rewritten, TRIM turned into LTRIM or RTRIM or kept with its characters, the
    clamped TRUNCATE scale, and a date plus a multiple of a one-day interval. Each
    is stated token by token; the generic lemmas over variable operands beside them
    keep the concrete proofs small. */
module SnowflakeFixtures {
  import opened Wrappers
  import opened SqlTree
  import opened SqlWriter
  import opened DialectProfile
  import opened Snowflake
  import opened SnowflakeFacts

  // ---------------------------------------------------------------------------
  // Leaves

  /** An identifier without a double quote is printed inside double quotes. */
  lemma RenderPlainIdent(x: string)
    requires '"' !in x
    ensures Render(Ident(x)) == Ok(["\"" + x + "\""])
  {
    ReplaceNoMatch(x, "\"", "\"" + "\"");
    SnowflakeProfileConstants();
    assert IdentifierToken(x) == "\"" + x + "\"";
  }

  /** A string without a single quote is printed inside single quotes. */
  lemma RenderPlainString(v: string)
    requires '\'' !in v
    ensures QuoteStringLiteral(SnowflakeDefault, v) == "'" + v + "'"
    ensures Render(StrLit(v)) == Ok(["'" + v + "'"])
  {
    ReplaceNoMatch(v, "'", ['\'', '\'']);
  }

  /** A numeric literal is printed as its text. */
  lemma RenderNumber(t: string)
    requires t != ""
    ensures Render(NumLit(t)) == Ok([t])
  {
  }

  /** Two operands that render, rendered one by one. */
  lemma RenderedTwo(a: Node, b: Node)
    requires Render(a).Ok? && Render(b).Ok?
    ensures AllRender([a, b])
    ensures RenderedOperands([a, b]) == [Render(a).value, Render(b).value]
  {
    var ops := [a, b];
    forall i | 0 <= i < |ops| ensures Render(ops[i]).Ok? {
      if i == 1 { assert ops[i] == b; }
    }
    var r := RenderedOperands(ops);
    assert r[0] == Render(a).value && r[1] == Render(b).value;
  }

  /** Three operands that render, rendered one by one. */
  lemma RenderedThree(a: Node, b: Node, c: Node)
    requires Render(a).Ok? && Render(b).Ok? && Render(c).Ok?
    ensures AllRender([a, b, c])
    ensures RenderedOperands([a, b, c]) == [Render(a).value, Render(b).value, Render(c).value]
  {
    var ops := [a, b, c];
    forall i | 0 <= i < |ops| ensures Render(ops[i]).Ok? {
      if i == 1 { assert ops[i] == b; } else if i == 2 { assert ops[i] == c; }
    }
    var r := RenderedOperands(ops);
    assert r[0] == Render(a).value && r[1] == Render(b).value && r[2] == Render(c).value;
  }

  /** `name(pa, pb)` with two rendered operands. */
  lemma CallLayoutTwo(name: string, pa: Tokens, pb: Tokens)
    requires name != ""
    ensures CallLayout(name, [pa, pb]) == [name, "("] + pa + [","] + pb + [")"]
  {
    CommaListFront(pb, []);
    assert [pb] + [] == [pb];
    CommaListFront(pa, [pb]);
    assert [pa] + [pb] == [pa, pb];
  }

  /** `name(pa, pb, pc)` with three rendered operands. */
  lemma CallLayoutThree(name: string, pa: Tokens, pb: Tokens, pc: Tokens)
    requires name != ""
    ensures CallLayout(name, [pa, pb, pc]) == [name, "("] + pa + [","] + pb + [","] + pc + [")"]
  {
    CommaListFront(pc, []);
    assert [pc] + [] == [pc];
    CommaListFront(pb, [pc]);
    assert [pb] + [pc] == [pb, pc];
    CommaListFront(pa, [pb, pc]);
    assert [pa] + [pb, pc] == [pa, pb, pc];
  }

  lemma RenderNull()
    ensures Render(NullLit) == Ok(["NULL"])
  {
  }

  /** A call over two operands that render: `name(a, b)`. */
  lemma CallOverTwo(r: Result<Tokens, Error>, name: string, a: Node, b: Node)
    requires IsCallOver(r, name, [a, b]) && name != ""
    requires Render(a).Ok? && Render(b).Ok?
    ensures r == Ok([name, "("] + Render(a).value + [","] + Render(b).value + [")"])
  {
    RenderedTwo(a, b);
    CallLayoutTwo(name, Render(a).value, Render(b).value);
  }

  /** A call over three operands that render: `name(a, b, c)`. */
  lemma CallOverThree(r: Result<Tokens, Error>, name: string, a: Node, b: Node, c: Node)
    requires IsCallOver(r, name, [a, b, c]) && name != ""
    requires Render(a).Ok? && Render(b).Ok? && Render(c).Ok?
    ensures r == Ok([name, "("] + Render(a).value + [","] + Render(b).value + [","] + Render(c).value + [")"])
  {
    RenderedThree(a, b, c);
    CallLayoutThree(name, Render(a).value, Render(b).value, Render(c).value);
  }

  // ---------------------------------------------------------------------------
  // LOG10

  lemma Log10TwoPieces()
    ensures ["LOG", "(", "10", ", "] + ["2"] + [")"] == ["LOG", "(", "10", ", ", "2", ")"]
  {
  }

  /** LOG10(2) is printed as LOG(10, 2). */
  lemma Log10Two()
    ensures Render(Call(OtherFunction, "LOG10", FunctionSyntax, [NumLit("2")]))
         == Ok(["LOG", "(", "10", ", ", "2", ")"])
  {
    Log10Rewrite(Call(OtherFunction, "LOG10", FunctionSyntax, [NumLit("2")]));
    RenderNumber("2");
    assert NumLit("2") != NumLit("1");
    Log10TwoPieces();
  }

  /** LOG10(1) is printed as the constant 0. */
  lemma Log10One()
    ensures Render(Call(OtherFunction, "LOG10", FunctionSyntax, [NumLit("1")])) == Ok(["0"])
  {
    Log10Rewrite(Call(OtherFunction, "LOG10", FunctionSyntax, [NumLit("1")]));
  }

  // ---------------------------------------------------------------------------
  // TRIM

  lemma LtrimPieces()
    ensures "'" + " str " + "'" == "' str '"
    ensures ["LTRIM"] + ["("] + ["' str '"] + [] + [")"] == ["LTRIM", "(", "' str '", ")"]
  {
  }

  /** TRIM(LEADING ' ' FROM ' str ') is printed as LTRIM(' str '). */
  lemma TrimLeadingFixture()
    ensures Render(Call(Trim, "TRIM", FunctionSyntax, [FlagLit(Leading), StrLit(" "), StrLit(" str ")]))
         == Ok(["LTRIM", "(", "' str '", ")"])
  {
    TrimLayout(Call(Trim, "TRIM", FunctionSyntax, [FlagLit(Leading), StrLit(" "), StrLit(" str ")]));
    RenderPlainString(" str ");
    assert AllWhitespace(" ");
    LtrimPieces();
  }

  lemma TrimCharsPieces()
    ensures "'" + "AABCAADCAA" + "'" == "'AABCAADCAA'"
    ensures "'" + "A" + "'" == "'A'"
    ensures ["TRIM"] + ["("] + ["'AABCAADCAA'"] + [",", "'A'"] + [")"]
         == ["TRIM", "(", "'AABCAADCAA'", ",", "'A'", ")"]
  {
  }

  lemma CharsA()
    ensures QuoteStringLiteral(SnowflakeDefault, "A") == "'A'"
    ensures !AllWhitespace("A")
  {
    RenderPlainString("A");
    TrimCharsPieces();
    assert "A"[0] == 'A';
  }

  /** TRIM(BOTH 'A' FROM 'AABCAADCAA') keeps its name and prints the characters
      after the value: TRIM('AABCAADCAA', 'A'). */
  lemma TrimCharsFixture()
    ensures Render(Call(Trim, "TRIM", FunctionSyntax, [FlagLit(Both), StrLit("A"), StrLit("AABCAADCAA")]))
         == Ok(["TRIM", "(", "'AABCAADCAA'", ",", "'A'", ")"])
  {
    TrimLayout(Call(Trim, "TRIM", FunctionSyntax, [FlagLit(Both), StrLit("A"), StrLit("AABCAADCAA")]));
    RenderPlainString("AABCAADCAA");
    TrimCharsPieces();
    CharsA();
  }

  /** TRIM whose characters are not all whitespace: the flag's function over the
      value, then the quoted characters. */
  lemma TrimCharsOf(f: TrimFlag, chars: string, x: Node)
    requires Render(x).Ok? && !AllWhitespace(chars)
    ensures Render(Call(Trim, "TRIM", FunctionSyntax, [FlagLit(f), StrLit(chars), x]))
         == Ok([TrimFunctionName(f, "TRIM"), "("] + Render(x).value
               + [",", QuoteStringLiteral(SnowflakeDefault, chars), ")"])
  {
    var c := Call(Trim, "TRIM", FunctionSyntax, [FlagLit(f), StrLit(chars), x]);
    var name := TrimFunctionName(f, "TRIM");
    assert name != "";
    TrimLayout(c);
    assert Emit(name) == [name];
    var q := QuoteStringLiteral(SnowflakeDefault, chars);
    assert [name] + ["("] + Render(x).value + [",", q] + [")"]
        == [name, "("] + Render(x).value + [",", q, ")"];
  }

  /** TRIM whose characters are all whitespace: the flag's function over the value. */
  lemma TrimBlankOf(f: TrimFlag, chars: string, x: Node)
    requires Render(x).Ok? && AllWhitespace(chars)
    ensures Render(Call(Trim, "TRIM", FunctionSyntax, [FlagLit(f), StrLit(chars), x]))
         == Ok([TrimFunctionName(f, "TRIM"), "("] + Render(x).value + [")"])
  {
    var c := Call(Trim, "TRIM", FunctionSyntax, [FlagLit(f), StrLit(chars), x]);
    var name := TrimFunctionName(f, "TRIM");
    assert name != "";
    TrimLayout(c);
    assert Emit(name) == [name];
    assert [name] + ["("] + Render(x).value + [] + [")"] == [name, "("] + Render(x).value + [")"];
  }

  lemma TrimBothPieces()
    ensures "\"" + "full_name" + "\"" == "\"full_name\""
    ensures ["TRIM", "("] + ["\"full_name\""] + [")"] == ["TRIM", "(", "\"full_name\"", ")"]
    ensures AllWhitespace(" ")
  {
    assert " "[0] == ' ';
  }

  /** TRIM(BOTH ' ' FROM "full_name") keeps its name and leaves out the blank:
      TRIM("full_name"). */
  lemma TrimBothFixture()
    ensures Render(Call(Trim, "TRIM", FunctionSyntax, [FlagLit(Both), StrLit(" "), Ident("full_name")]))
         == Ok(["TRIM", "(", "\"full_name\"", ")"])
  {
    RenderPlainIdent("full_name");
    TrimBothPieces();
    TrimBlankOf(Both, " ", Ident("full_name"));
  }

  lemma LtrimCharsPieces()
    ensures ["LTRIM", "("] + ["\"first_name\""] + [",", "'A'", ")"]
         == ["LTRIM", "(", "\"first_name\"", ",", "'A'", ")"]
  {
  }

  /** TRIM(LEADING 'A' FROM "first_name") is printed as LTRIM("first_name", 'A'). */
  lemma LtrimCharsFixture()
    ensures Render(Call(Trim, "TRIM", FunctionSyntax, [FlagLit(Leading), StrLit("A"), Ident("first_name")]))
         == Ok(["LTRIM", "(", "\"first_name\"", ",", "'A'", ")"])
  {
    RenderFirstName();
    CharsA();
    LtrimCharsPieces();
    TrimCharsOf(Leading, "A", Ident("first_name"));
  }

  lemma RtrimCharsPieces()
    ensures ["RTRIM", "("] + ["'AABCAADCAA'"] + [",", "'A'", ")"]
         == ["RTRIM", "(", "'AABCAADCAA'", ",", "'A'", ")"]
  {
  }

  /** TRIM(TRAILING 'A' FROM 'AABCAADCAA') is printed as RTRIM('AABCAADCAA', 'A'). */
  lemma RtrimCharsFixture()
    ensures Render(Call(Trim, "TRIM", FunctionSyntax, [FlagLit(Trailing), StrLit("A"), StrLit("AABCAADCAA")]))
         == Ok(["RTRIM", "(", "'AABCAADCAA'", ",", "'A'", ")"])
  {
    RenderPlainString("AABCAADCAA");
    TrimCharsPieces();
    CharsA();
    RtrimCharsPieces();
    TrimCharsOf(Trailing, "A", StrLit("AABCAADCAA"));
  }

  // ---------------------------------------------------------------------------
  // TRUNCATE

  lemma EmployeeIdPieces()
    ensures "\"" + "employee_id" + "\"" == "\"employee_id\""
  {
  }

  lemma RenderEmployeeId()
    ensures Render(Ident("employee_id")) == Ok(["\"employee_id\""])
  {
    RenderPlainIdent("employee_id");
    EmployeeIdPieces();
  }

  lemma ScalePieces()
    ensures ["TRUNCATE"] + ["("] + ["2.30259"] + [","] + ClampCase(["\"employee_id\""]) + [")"]
         == ["TRUNCATE", "(", "2.30259", ",", "CASE WHEN ", "\"employee_id\"", "> 38 THEN 38 ",
             "WHEN ", "\"employee_id\"", "< -12 THEN -12 ", "ELSE ", "\"employee_id\"", "END", ")"]
  {
  }

  /** TRUNCATE(2.30259, "employee_id") with a column as its scale clamps the scale:
      TRUNCATE(2.30259, CASE WHEN "employee_id" > 38 THEN 38 WHEN "employee_id" < -12
      THEN -12 ELSE "employee_id" END). */
  lemma TruncateClampFixture()
    ensures Render(Call(Truncate, "TRUNCATE", FunctionSyntax, [NumLit("2.30259"), Ident("employee_id")]))
         == Ok(["TRUNCATE", "(", "2.30259", ",", "CASE WHEN ", "\"employee_id\"", "> 38 THEN 38 ",
                "WHEN ", "\"employee_id\"", "< -12 THEN -12 ", "ELSE ", "\"employee_id\"", "END", ")"])
  {
    MathScaleHandling(Call(Truncate, "TRUNCATE", FunctionSyntax, [NumLit("2.30259"), Ident("employee_id")]));
    RenderEmployeeId();
    RenderNumber("2.30259");
    ScalePieces();
  }

  // ---------------------------------------------------------------------------
  // Date plus an interval

  lemma DatePlusPieces()
    ensures "\"" + "birth_date" + "\"" == "\"birth_date\""
    ensures "\"" + "store_id" + "\"" == "\"store_id\""
    ensures ["("] + ["\"birth_date\""] + ["+"] + ["\"store_id\""] + [")"]
         == ["(", "\"birth_date\"", "+", "\"store_id\"", ")"]
  {
  }

  /** "store_id" * INTERVAL '1' DAY as an interval operand is the multiplier alone. */
  lemma StoreIdDays()
    ensures IntervalOperandTokens(Call(Times, "*", BinarySyntax, [Ident("store_id"), IntervalLit(1, "1")]))
         == Ok(["\"store_id\""])
  {
    var t := Call(Times, "*", BinarySyntax, [Ident("store_id"), IntervalLit(1, "1")]);
    RenderPlainIdent("store_id");
    DatePlusPieces();
    TimesIntervalLayout(Ident("store_id"), "*", BinarySyntax, 1, "1");
    assert Render(Ident("store_id")).value == ["\"store_id\""];
    assert TimesIntervalTokens(t) == Ok(Render(Ident("store_id")).value + []);
    assert Render(Ident("store_id")).value + [] == ["\"store_id\""];
    ProductOperand(t);
  }

  /** "birth_date" + "store_id" * INTERVAL '1' DAY is printed as
      ("birth_date" + "store_id"): a one-day interval leaves only the multiplier. */
  lemma DatePlusFixture()
    ensures IntervalOperandsTokens(Call(Plus, "+", BinarySyntax,
              [Ident("birth_date"), Call(Times, "*", BinarySyntax, [Ident("store_id"), IntervalLit(1, "1")])]))
         == Ok(["(", "\"birth_date\"", "+", "\"store_id\"", ")"])
  {
    var t := Call(Times, "*", BinarySyntax, [Ident("store_id"), IntervalLit(1, "1")]);
    StoreIdDays();
    RenderPlainIdent("birth_date");
    DatePlusPieces();
    var c := Call(Plus, "+", BinarySyntax, [Ident("birth_date"), t]);
    assert Render(c.operands[0]).value == ["\"birth_date\""];
    IntervalOperandsLayout(c);
  }

  // ---------------------------------------------------------------------------
  // Renamed functions

  lemma SubstrPieces()
    ensures "\"" + "brand_name" + "\"" == "\"brand_name\""
    ensures ["SUBSTR", "("] + ["\"brand_name\""] + [","] + ["2"] + [")"]
         == ["SUBSTR", "(", "\"brand_name\"", ",", "2", ")"]
  {
  }

  /** SUBSTRING("brand_name" FROM 2) is printed as SUBSTR("brand_name", 2). */
  lemma SubstrFixture()
    ensures Render(Call(Substring, "SUBSTRING", FunctionSyntax, [Ident("brand_name"), NumLit("2")]))
         == Ok(["SUBSTR", "(", "\"brand_name\"", ",", "2", ")"])
  {
    var c := Call(Substring, "SUBSTRING", FunctionSyntax, [Ident("brand_name"), NumLit("2")]);
    SubstringIsSubstr(c);
    RenderPlainIdent("brand_name");
    RenderNumber("2");
    SubstrPieces();
    CallOverTwo(Render(c), "SUBSTR", Ident("brand_name"), NumLit("2"));
  }

  lemma LengthPieces()
    ensures "'" + "xyz" + "'" == "'xyz'"
    ensures ["LENGTH", "("] + ["'xyz'"] + [")"] == ["LENGTH", "(", "'xyz'", ")"]
  {
  }

  /** CHAR_LENGTH('xyz') is printed as LENGTH('xyz'). */
  lemma LengthFixture()
    ensures Render(Call(CharLength, "CHAR_LENGTH", FunctionSyntax, [StrLit("xyz")]))
         == Ok(["LENGTH", "(", "'xyz'", ")"])
  {
    CharLengthIsLength(Call(CharLength, "CHAR_LENGTH", FunctionSyntax, [StrLit("xyz")]));
    RenderPlainString("xyz");
    LengthPieces();
  }

  /** FORMAT_DATE(fmt, d) with operands printed as `ft` and `dt`. */
  lemma FormatDateOf(fmt: Node, d: Node, ft: Tokens, dt: Tokens)
    requires Render(fmt) == Ok(ft) && Render(d) == Ok(dt)
    ensures Render(Call(OtherFunction, "FORMAT_DATE", FunctionSyntax, [fmt, d]))
         == Ok(["TO_VARCHAR", "("] + dt + [","] + ft + [")"])
  {
    FormatDateSwapsOperands(Call(OtherFunction, "FORMAT_DATE", FunctionSyntax, [fmt, d]));
  }

  lemma ToVarcharPieces()
    ensures "\"" + "HIREDATE" + "\"" == "\"HIREDATE\""
    ensures "'" + "YYYY-MM-DD" + "'" == "'YYYY-MM-DD'"
    ensures ["TO_VARCHAR", "("] + ["\"HIREDATE\""] + [","] + ["'YYYY-MM-DD'"] + [")"]
         == ["TO_VARCHAR", "(", "\"HIREDATE\"", ",", "'YYYY-MM-DD'", ")"]
  {
  }

  lemma RenderHiredate()
    ensures Render(Ident("HIREDATE")) == Ok(["\"HIREDATE\""])
    ensures Render(StrLit("YYYY-MM-DD")) == Ok(["'YYYY-MM-DD'"])
  {
    RenderPlainIdent("HIREDATE");
    RenderPlainString("YYYY-MM-DD");
    ToVarcharPieces();
  }

  /** FORMAT_DATE('YYYY-MM-DD', "HIREDATE") is printed as
      TO_VARCHAR("HIREDATE", 'YYYY-MM-DD'). */
  lemma ToVarcharFixture()
    ensures Render(Call(OtherFunction, "FORMAT_DATE", FunctionSyntax, [StrLit("YYYY-MM-DD"), Ident("HIREDATE")]))
         == Ok(["TO_VARCHAR", "(", "\"HIREDATE\"", ",", "'YYYY-MM-DD'", ")"])
  {
    RenderHiredate();
    FormatDateOf(StrLit("YYYY-MM-DD"), Ident("HIREDATE"), ["'YYYY-MM-DD'"], ["\"HIREDATE\""]);
    ToVarcharPieces();
  }

  lemma ToDatePieces()
    ensures "'" + "20181106" + "'" == "'20181106'"
    ensures "'" + "YYYYMMDD" + "'" == "'YYYYMMDD'"
    ensures ["TO_DATE", "("] + ["'20181106'"] + [","] + ["'YYYYMMDD'"] + [")"]
         == ["TO_DATE", "(", "'20181106'", ",", "'YYYYMMDD'", ")"]
  {
  }

  /** STR_TO_DATE('20181106', 'YYYYMMDD') is printed as TO_DATE('20181106', 'YYYYMMDD'). */
  lemma ToDateFixture()
    ensures Render(Call(OtherFunction, "STR_TO_DATE", FunctionSyntax, [StrLit("20181106"), StrLit("YYYYMMDD")]))
         == Ok(["TO_DATE", "(", "'20181106'", ",", "'YYYYMMDD'", ")"])
  {
    var c := Call(OtherFunction, "STR_TO_DATE", FunctionSyntax, [StrLit("20181106"), StrLit("YYYYMMDD")]);
    StrToDateIsToDate(c);
    assert c.operands[..2] == [StrLit("20181106"), StrLit("YYYYMMDD")];
    RenderPlainString("20181106");
    RenderPlainString("YYYYMMDD");
    ToDatePieces();
    CallOverTwo(Render(c), "TO_DATE", StrLit("20181106"), StrLit("YYYYMMDD"));
  }

  lemma FirstNamePieces()
    ensures "\"" + "first_name" + "\"" == "\"first_name\""
    ensures "'" + "" + "'" == "''"
    ensures ["\"first_name\""] + ["IS NULL"] == ["\"first_name\"", "IS NULL"]
    ensures ["\"first_name\""] + ["="] + ["''"] == ["\"first_name\"", "=", "''"]
    ensures ["\"first_name\"", "IS NULL"] + ["OR"] + ["\"first_name\"", "=", "''"]
         == ["\"first_name\"", "IS NULL", "OR", "\"first_name\"", "=", "''"]
  {
  }

  lemma RenderFirstName()
    ensures Render(Ident("first_name")) == Ok(["\"first_name\""])
  {
    RenderPlainIdent("first_name");
    FirstNamePieces();
  }

  lemma RenderEmptyString()
    ensures Render(StrLit("")) == Ok(["''"])
  {
    RenderPlainString("");
    FirstNamePieces();
  }

  /** A postfix operator the dialect has no rule for follows its operand. */
  lemma PostfixOf(name: string, x: Node)
    requires name != "" && Render(x).Ok?
    ensures Render(Call(OtherKind, name, PostfixSyntax, [x])) == Ok(Render(x).value + [name])
  {
    RenderDispatch(Call(OtherKind, name, PostfixSyntax, [x]));
  }

  /** A binary operator the dialect has no rule for stands between its operands. */
  lemma BinaryOf(name: string, x: Node, y: Node)
    requires name != "" && name != "," && name != "." && Render(x).Ok? && Render(y).Ok?
    ensures Render(Call(OtherKind, name, BinarySyntax, [x, y])) == Ok(Render(x).value + [name] + Render(y).value)
  {
    GenericBinaryLayout(Call(OtherKind, name, BinarySyntax, [x, y]));
  }

  /** "first_name" IS NULL */
  lemma FirstNameIsNull()
    ensures Render(Call(OtherKind, "IS NULL", PostfixSyntax, [Ident("first_name")]))
         == Ok(["\"first_name\"", "IS NULL"])
  {
    RenderFirstName();
    PostfixOf("IS NULL", Ident("first_name"));
    FirstNamePieces();
  }

  /** "first_name" = '' */
  lemma FirstNameIsEmpty()
    ensures Render(Call(OtherKind, "=", BinarySyntax, [Ident("first_name"), StrLit("")]))
         == Ok(["\"first_name\"", "=", "''"])
  {
    RenderFirstName();
    RenderEmptyString();
    BinaryOf("=", Ident("first_name"), StrLit(""));
    FirstNamePieces();
  }

  /** "first_name" IS NULL OR "first_name" = '' */
  const FirstNameMissing: Node :=
    Call(OtherKind, "OR", BinarySyntax,
      [Call(OtherKind, "IS NULL", PostfixSyntax, [Ident("first_name")]),
       Call(OtherKind, "=", BinarySyntax, [Ident("first_name"), StrLit("")])])

  lemma RenderFirstNameMissing()
    ensures Render(FirstNameMissing) == Ok(["\"first_name\"", "IS NULL", "OR", "\"first_name\"", "=", "''"])
  {
    FirstNameIsNull();
    FirstNameIsEmpty();
    BinaryOf("OR", Call(OtherKind, "IS NULL", PostfixSyntax, [Ident("first_name")]),
      Call(OtherKind, "=", BinarySyntax, [Ident("first_name"), StrLit("")]));
    FirstNamePieces();
  }

  /** IF(cond, x, y), its operands printed as `ct`, `xt` and `yt`, is printed as
      IFF(cond, x, y). */
  lemma IffOf(cond: Node, x: Node, y: Node, ct: Tokens, xt: Tokens, yt: Tokens)
    requires Render(cond) == Ok(ct) && Render(x) == Ok(xt) && Render(y) == Ok(yt)
    ensures Render(Call(If, "IF", FunctionSyntax, [cond, x, y]))
         == Ok(["IFF", "("] + ct + [","] + xt + [","] + yt + [")"])
  {
    var c := Call(If, "IF", FunctionSyntax, [cond, x, y]);
    IfAndInstrRenamed(c);
    CallOverThree(Render(c), "IFF", cond, x, y);
  }

  lemma IffOverFirstName(cond: Node, ct: Tokens)
    requires Render(cond) == Ok(ct)
    ensures Render(Call(If, "IF", FunctionSyntax, [cond, NullLit, Ident("first_name")]))
         == Ok(["IFF", "("] + ct + [","] + ["NULL"] + [","] + ["\"first_name\""] + [")"])
  {
    RenderFirstName();
    RenderNull();
    IffOf(cond, NullLit, Ident("first_name"), ct, ["NULL"], ["\"first_name\""]);
  }

  lemma IffPieces(cond: Tokens)
    requires cond == ["\"first_name\"", "IS NULL", "OR", "\"first_name\"", "=", "''"]
    ensures ["IFF", "("] + cond + [","] + ["NULL"] + [","] + ["\"first_name\""] + [")"]
         == ["IFF", "(", "\"first_name\"", "IS NULL", "OR", "\"first_name\"", "=", "''",
             ",", "NULL", ",", "\"first_name\"", ")"]
  {
  }

  /** IF("first_name" IS NULL OR "first_name" = '', NULL, "first_name") is printed
      as IFF with the same three operands. */
  lemma IffFixture()
    ensures Render(Call(If, "IF", FunctionSyntax, [FirstNameMissing, NullLit, Ident("first_name")]))
         == Ok(["IFF", "(", "\"first_name\"", "IS NULL", "OR", "\"first_name\"", "=", "''",
                ",", "NULL", ",", "\"first_name\"", ")"])
  {
    var ct := ["\"first_name\"", "IS NULL", "OR", "\"first_name\"", "=", "''"];
    RenderFirstNameMissing();
    IffOverFirstName(FirstNameMissing, ct);
    IffPieces(ct);
  }

  /** LOG10(x) for an operand other than the literal 1, printed as `xt`. */
  lemma Log10Of(x: Node, xt: Tokens)
    requires x != NumLit("1") && Render(x) == Ok(xt)
    ensures Render(Call(OtherFunction, "LOG10", FunctionSyntax, [x])) == Ok(["LOG", "(", "10", ", "] + xt + [")"])
  {
    Log10Rewrite(Call(OtherFunction, "LOG10", FunctionSyntax, [x]));
  }

  lemma Log10ColumnPieces()
    ensures "\"" + "product_id" + "\"" == "\"product_id\""
    ensures ["LOG", "(", "10", ", "] + ["\"product_id\""] + [")"]
         == ["LOG", "(", "10", ", ", "\"product_id\"", ")"]
  {
  }

  lemma RenderProductId()
    ensures Render(Ident("product_id")) == Ok(["\"product_id\""])
  {
    RenderPlainIdent("product_id");
    Log10ColumnPieces();
  }

  /** LOG10("product_id") is printed as LOG(10, "product_id"). */
  lemma Log10ColumnFixture()
    ensures Render(Call(OtherFunction, "LOG10", FunctionSyntax, [Ident("product_id")]))
         == Ok(["LOG", "(", "10", ", ", "\"product_id\"", ")"])
  {
    RenderProductId();
    Log10Of(Ident("product_id"), ["\"product_id\""]);
    Log10ColumnPieces();
  }
}
