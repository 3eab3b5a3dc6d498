/** Per-product dialect profiles: identifier quoting and casing, null collation,
    capability flags, string-literal quoting, and the null-ordering emulation that
    the null collation drives. */
module DialectProfile {
  import opened Wrappers

  datatype Product = CalciteProduct | SnowflakeProduct | BigQueryProduct | TeradataProduct

  datatype Casing = Unchanged | ToUpper | ToLower

  /** Where nulls sort when a query says nothing: HIGH and LOW treat null as larger or
      smaller than every value, FIRST and LAST put it at one end whatever the direction. */
  datatype NullCollation = High | Low | First | Last

  datatype Conformance = DefaultConformance | SnowflakeConformance

  datatype Profile = Profile(
    product: Product,
    identifierQuote: Option<string>,
    unquotedCasing: Casing,
    nullCollation: NullCollation,
    conformance: Conformance,
    supportsAliasedValues: bool,
    supportsCharSet: bool)

  /** The empty context every dialect starts from. */
  function EmptyContext(product: Product): Profile
  {
    Profile(product, None, Unchanged, High, DefaultConformance, true, true)
  }

  /** Snowflake: double-quoted identifiers, unquoted ones upper-cased, no aliased
      VALUES rows and no CHARACTER SET clause. */
  const SnowflakeDefault: Profile :=
    EmptyContext(SnowflakeProduct).(identifierQuote := Some("\""), unquotedCasing := ToUpper,
                                    conformance := SnowflakeConformance,
                                    supportsAliasedValues := false, supportsCharSet := false)

  /** BigQuery: nulls sort low. */
  const BigQueryDefault: Profile := EmptyContext(BigQueryProduct).(nullCollation := Low)

  /** Teradata: double-quoted identifiers, no aliased VALUES rows. */
  const TeradataDefault: Profile :=
    EmptyContext(TeradataProduct).(identifierQuote := Some("\""), supportsAliasedValues := false)

  lemma SnowflakeProfileConstants()
    ensures SnowflakeDefault.identifierQuote == Some("\"")
    ensures SnowflakeDefault.unquotedCasing == ToUpper
    ensures !SnowflakeDefault.supportsAliasedValues && !SnowflakeDefault.supportsCharSet
    ensures BigQueryDefault.nullCollation == Low
    ensures TeradataDefault.identifierQuote == Some("\"") && !TeradataDefault.supportsAliasedValues
  {
  }

  // ---------------------------------------------------------------------------
  // Quoting

  /** Java's String.replace: every non-overlapping occurrence of `pat`, scanning
      left to right, is replaced by `rep`. */
  function Replace(s: string, pat: string, rep: string): string
    requires |pat| > 0
    decreases |s|
  {
    if |pat| <= |s| && s[..|pat|] == pat then rep + Replace(s[|pat|..], pat, rep)
    else if s == [] then []
    else [s[0]] + Replace(s[1..], pat, rep)
  }

  /** Identifier quoting: the profile's quote on both sides, an embedded quote doubled;
      a profile without a quote string prints the name bare. */
  function QuoteIdentifier(p: Profile, name: string): string
  {
    match p.identifierQuote
    case None => name
    case Some(q) => if |q| == 0 then name else q + Replace(name, q, q + q) + q
  }

  /** The character that escapes a single quote inside a string literal: BigQuery
      uses a backslash, every other product doubles the quote. */
  function LiteralEscape(p: Profile): char
  {
    if p.product == BigQueryProduct then '\\' else '\''
  }

  function QuoteStringLiteral(p: Profile, s: string): (r: string)
    ensures |r| >= 2 && r[0] == '\'' && r[|r| - 1] == '\''
  {
    "'" + Replace(s, "'", [LiteralEscape(p), '\'']) + "'"
  }

  /** Strips the enclosing quotes and turns each escaped quote back into a quote;
      text that is not enclosed in quotes comes back unchanged. */
  function UnquoteStringLiteral(p: Profile, v: string): string
  {
    if 2 <= |v| && v[0] == '\'' && v[|v| - 1] == '\'' then
      Replace(v[1..|v| - 1], [LiteralEscape(p), '\''], "'")
    else v
  }

  /** Escaping then unescaping the quotes gives back the original text, for either
      escape character. */
  lemma {:induction false} UnescapeEscape(s: string, e: char)
    ensures Replace(Replace(s, "'", [e, '\'']), [e, '\''], "'") == s
    decreases |s|
  {
    var esc := Replace(s, "'", [e, '\'']);
    if s == [] {
    } else if s[0] == '\'' {
      assert s[..1] == "'";
      var rest := Replace(s[1..], "'", [e, '\'']);
      assert esc == [e, '\''] + rest;
      assert esc[..2] == [e, '\''] && esc[2..] == rest;
      UnescapeEscape(s[1..], e);
    } else {
      assert s[..1] != "'";
      var rest := Replace(s[1..], "'", [e, '\'']);
      assert esc == [s[0]] + rest;
      assert esc[1..] == rest;
      UnescapeEscape(s[1..], e);
    }
  }

  /** The escaped text starts with the original's first character, or with the
      escape character when that was a quote. */
  lemma FirstOfEscaped(t: string, e: char)
    requires t != []
    ensures var r := Replace(t, "'", [e, '\'']);
      r != [] && r[0] == (if t[0] == '\'' then e else t[0])
  {
    if t[0] == '\'' {
      assert t[..1] == "'";
    } else {
      assert t[..1] != "'";
    }
  }

  /** Unquoting inverts quoting, for every profile. */
  lemma QuoteRoundTrip(p: Profile, s: string)
    ensures UnquoteStringLiteral(p, QuoteStringLiteral(p, s)) == s
  {
    var body := Replace(s, "'", [LiteralEscape(p), '\'']);
    var q := QuoteStringLiteral(p, s);
    assert q[1..|q| - 1] == body;
    UnescapeEscape(s, LiteralEscape(p));
  }

  /** The quoting fixtures: the empty string quotes to two quotes and back, and an
      embedded quote is escaped with a backslash on BigQuery and doubled elsewhere. */
  lemma QuoteFixtures(p: Profile)
    ensures QuoteStringLiteral(p, "") == "''"
    ensures UnquoteStringLiteral(p, "''") == ""
    ensures QuoteStringLiteral(p, "can't run") ==
      if p.product == BigQueryProduct then "'can\\'t run'" else "'can''t run'"
    ensures UnquoteStringLiteral(p,
      if p.product == BigQueryProduct then "'can\\'t run'" else "'can''t run'") == "can't run"
  {
    assert "''"[1..1] == "";
    QuoteCantRun(p);
    QuoteRoundTrip(p, "can't run");
  }

  /** Where quotes are doubled, a lone quote inside the literal is not an escape and
      is kept as it is. */
  lemma UnquoteLoneQuote(p: Profile)
    requires p.product != BigQueryProduct
    ensures UnquoteStringLiteral(p, "'can't run'") == "can't run"
  {
    var t := "can't run";
    assert "'can't run'"[1..10] == t;
    assert t[3] == '\'' && t[4] == 't';
    NoPairUnchanged(t, "''", "'");
  }

  /** Text in which the two-character pattern never occurs is left unchanged. */
  lemma {:induction false} NoPairUnchanged(s: string, pat: string, rep: string)
    requires |pat| == 2
    requires forall k :: 0 <= k < |s| - 1 ==> s[k] != pat[0] || s[k + 1] != pat[1]
    ensures Replace(s, pat, rep) == s
    decreases |s|
  {
    if s != [] {
      ReplacePast(s, pat, rep);
      forall k | 0 <= k < |s[1..]| - 1
        ensures s[1..][k] != pat[0] || s[1..][k + 1] != pat[1]
      {
        assert s[1..][k] == s[k + 1] && s[1..][k + 1] == s[k + 2];
      }
      NoPairUnchanged(s[1..], pat, rep);
      assert s == [s[0]] + s[1..];
    }
  }

  /** Where a two-character pattern does not start the text, Replace keeps the first
      character. */
  lemma ReplacePast(s: string, pat: string, rep: string)
    requires s != [] && |pat| == 2
    requires |s| < 2 || s[0] != pat[0] || s[1] != pat[1]
    ensures Replace(s, pat, rep) == [s[0]] + Replace(s[1..], pat, rep)
  {
    if 2 <= |s| {
      assert s[..2][0] == s[0] && s[..2][1] == s[1];
    }
  }

  lemma QuoteCantRun(p: Profile)
    ensures QuoteStringLiteral(p, "can't run") ==
      if p.product == BigQueryProduct then "'can\\'t run'" else "'can''t run'"
  {
    var e := LiteralEscape(p);
    EscapeCantRun(e);
    CantRunPieces();
  }

  lemma CantRunPieces()
    ensures "can't run" == "can" + "'" + "t run"
    ensures "'" + ("can" + ['\\', '\''] + "t run") + "'" == "'can\\'t run'"
    ensures "'" + ("can" + ['\'', '\''] + "t run") + "'" == "'can''t run'"
  {
  }

  lemma EscapeCantRun(e: char)
    ensures Replace("can't run", "'", [e, '\'']) == "can" + [e, '\''] + "t run"
  {
    CantRunPieces();
    EscapeOneQuote("can", "t run", e);
  }

  /** A text with a single quote in it: the quote is escaped and the text on either
      side is kept. */
  lemma {:induction false} EscapeOneQuote(pre: string, post: string, e: char)
    requires '\'' !in pre && '\'' !in post
    ensures Replace(pre + "'" + post, "'", [e, '\'']) == pre + [e, '\''] + post
    decreases |pre|
  {
    var s := pre + "'" + post;
    if pre == [] {
      assert s == "'" + post;
      ReplaceFront(s, e);
      assert s[1..] == post;
      ReplaceNoMatch(post, "'", [e, '\'']);
    } else {
      ReplaceFront(s, e);
      assert s[0] == pre[0] && s[1..] == pre[1..] + "'" + post;
      EscapeOneQuote(pre[1..], post, e);
      assert pre == [pre[0]] + pre[1..];
    }
  }

  /** BigQuery escapes the quote in a character literal with a backslash; a product
      that doubles quotes writes two of them. */
  lemma CharLiteralFixtures(p: Profile)
    ensures QuoteStringLiteral(p, "that's all folks!") ==
      if p.product == BigQueryProduct then "'that\\'s all folks!'" else "'that''s all folks!'"
  {
    ThatsAllPieces();
    EscapeOneQuote("that", "s all folks!", LiteralEscape(p));
    if p.product == BigQueryProduct {
      ThatsAllBackslash();
    } else {
      ThatsAllDoubled();
    }
  }

  lemma ThatsAllPieces()
    ensures "that's all folks!" == "that" + "'" + "s all folks!"
  {
  }

  lemma ThatsAllBackslash()
    ensures "'" + ("that" + ['\\', '\''] + "s all folks!") + "'" == "'that\\'s all folks!'"
  {
  }

  lemma ThatsAllDoubled()
    ensures "'" + ("that" + ['\'', '\''] + "s all folks!") + "'" == "'that''s all folks!'"
  {
  }

  /** Replace takes the first character: an escaped quote for a quote, the
      character itself otherwise. */
  lemma ReplaceFront(s: string, e: char)
    requires s != []
    ensures Replace(s, "'", [e, '\''])
         == (if s[0] == '\'' then [e, '\''] else [s[0]]) + Replace(s[1..], "'", [e, '\''])
  {
    assert s[..1] == [s[0]];
  }

  /** Text without the pattern is left unchanged by Replace. */
  lemma {:induction false} ReplaceNoMatch(s: string, pat: string, rep: string)
    requires |pat| == 1 && pat[0] !in s
    ensures Replace(s, pat, rep) == s
    decreases |s|
  {
    if s != [] {
      assert s[..1] != pat by { assert s[..1][0] == s[0]; }
      assert forall k :: 0 <= k < |s[1..]| ==> s[1..][k] == s[k + 1];
      ReplaceNoMatch(s[1..], pat, rep);
    }
  }

  // ---------------------------------------------------------------------------
  // Null ordering

  /** Whether nulls come first, under the collation, for an ORDER BY item that says
      nothing about nulls. */
  function DefaultNullsFirst(c: NullCollation, desc: bool): bool
  {
    match c
    case High => desc
    case Low => !desc
    case First => true
    case Last => false
  }

  datatype SortExpr = Column(name: string) | IsNullOf(name: string)

  datatype SortKey = SortKey(expr: SortExpr, desc: bool)

  /** The sort keys written for `x [DESC] NULLS FIRST|LAST`: when the collation does not
      already give the requested null order, a synthetic `x IS NULL` key comes first,
      descending exactly when nulls are to come first. */
  function OrderByKeys(c: NullCollation, x: string, desc: bool, nullsFirst: bool): seq<SortKey>
  {
    (if nullsFirst == DefaultNullsFirst(c, desc) then [] else [SortKey(IsNullOf(x), nullsFirst)])
    + [SortKey(Column(x), desc)]
  }

  /** Whether a row with a null `x` sorts before a row with a non-null `x` under the
      keys: the first key decides, because an IS NULL key always separates the two and
      a column key separates them by the collation. */
  function NullsFirstUnder(c: NullCollation, keys: seq<SortKey>): bool
    requires keys != []
  {
    match keys[0].expr
    case IsNullOf(_) => keys[0].desc  // false sorts before true when ascending
    case Column(_) => DefaultNullsFirst(c, keys[0].desc)
  }

  /** The emitted keys put nulls where the query asked, sort by `x` in the requested
      direction last, and add a synthetic key only when the collation disagrees. */
  lemma OrderByKeysHonourNullDirection(c: NullCollation, x: string, desc: bool, nullsFirst: bool)
    ensures var keys := OrderByKeys(c, x, desc, nullsFirst);
      && NullsFirstUnder(c, keys) == nullsFirst
      && keys[|keys| - 1] == SortKey(Column(x), desc)
      && (|keys| == 2 <==> nullsFirst != DefaultNullsFirst(c, desc))
  {
  }

  function SortKeyTokens(k: SortKey): seq<string>
  {
    (match k.expr
     case Column(x) => [x]
     case IsNullOf(x) => [x, "IS NULL"])
    + (if k.desc then ["DESC"] else [])
  }

  function OrderByTokens(keys: seq<SortKey>): seq<string>
  {
    if keys == [] then []
    else if |keys| == 1 then SortKeyTokens(keys[0])
    else SortKeyTokens(keys[0]) + [","] + OrderByTokens(keys[1..])
  }

  /** The four null-ordering fixtures under BigQuery's LOW collation. */
  lemma BigQueryNullOrderingFixtures()
    ensures OrderByTokens(OrderByKeys(BigQueryDefault.nullCollation, "product_id", true, true))
      == ["product_id", "IS NULL", "DESC", ",", "product_id", "DESC"]
    ensures OrderByTokens(OrderByKeys(BigQueryDefault.nullCollation, "product_id", false, false))
      == ["product_id", "IS NULL", ",", "product_id"]
    ensures OrderByTokens(OrderByKeys(BigQueryDefault.nullCollation, "product_id", false, true))
      == ["product_id"]
    ensures OrderByTokens(OrderByKeys(BigQueryDefault.nullCollation, "product_id", true, false))
      == ["product_id", "DESC"]
  {
  }
}
