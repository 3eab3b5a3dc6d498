# Calcite SQL dialect emulation and runtime functions, in Dafny

This project models three parts of Apache Calcite.

- **The Snowflake dialect's `unparseCall`** and its helpers. Given a parsed SQL
  call tree, it writes Snowflake SQL text into a `SqlWriter`:
  - SUBSTRING becomes SUBSTR, CHAR_LENGTH becomes LENGTH, IF becomes IFF,
    INSTR becomes REGEXP_INSTR and STR_TO_DATE becomes TO_DATE;
  - DATE_DIFF becomes DATEDIFF with its operands reversed, and FORMAT_DATE
    becomes TO_VARCHAR with its operands swapped;
  - LOG10 is folded to 0 or rewritten as LOG(10, x), and the scale of ROUND and
    TRUNCATE is clamped to [-12, 38];
  - TRIM becomes LTRIM, RTRIM or TRIM;
  - an OVER whose window has no ORDER BY is written out here;
  - a date plus or minus a day interval becomes `(d + n)`;
  - the DATE_ADD / DATE_SUB target is chosen for DATE arithmetic;
  - the dialect's profile constants are kept (double-quoted identifiers,
    upper-case unquoted casing, no aliased VALUES, no character sets).
- **The BigQuery dialect's emulation table.** POSITION is written as STRPOS
  with its operands swapped, and refuses a third operand. UNION is written as
  the binary operator `UNION DISTINCT`. Every other name fails with "not
  handled". String literals escape a quote with a backslash, and nulls sort
  low.
- **The runtime functions whose behaviour the `SqlFunctionsTest` suite fixes**:
  - string functions: RTRIM, LTRIM and TRIM, LPAD and RPAD, INITCAP, INSTR and
    CHARINDEX;
  - integer functions: FLOOR and CEIL to a multiple, TRUNCATE and ROUND;
  - comparison: list comparison, LESSER and GREATER;
  - nulls: NVL, IFNULL and ISNULL;
  - list operators: MULTISET UNION, EXCEPT and INTERSECT, in their ALL and
    DISTINCT forms.

## How the model is organised

- **Tree and writer** (`sql_tree.dfy`, `sql_writer.dfy`):
  - A SQL node is a value (`SqlTree.Node`).
  - The writer is a class, `SqlWriter.Writer`, whose `tokens` and `frames`
    fields its methods update. It models `print`, `startList`, `startFunCall`,
    `sep`, `endList` and `endFunCall`.
  - `Sep(",")` and `Sep(".")` print nothing before the first item of a frame.
    Every other separator always prints.
- **Snowflake rendering, functional** (`snowflake.dfy`): `Snowflake.Render(n)`
  is the token sequence the dialect writes for `n`, or the error it raises.
  Recursive calls such as STR_TO_DATE's re-unparse go through it.
- **Snowflake rendering, as methods** (`snowflake_unparse.dfy`): the dialect's
  own methods (`unparseCall`, `unparseTrim`, `handleMathFunction`,
  `unparseSqlWindow`, …) are imperative methods that write into a `Writer`.
  Each is proved to append exactly the tokens `Render` specifies, and to leave
  the frame stack as it found it.
- **Snowflake properties** (`snowflake_facts.dfy`, `snowflake_fixtures.dfy`):
  the renamings, reorderings and layouts are stated over every input. The
  dialect's own test expectations are proved as concrete instances.
- **BigQuery** (`bigquery.dfy`): the emulation table as a function, and
  `unparseSqlOperator` as a method over a writer. The rendering of operands is
  a parameter.
- **Dialect profiles** (`dialect_profile.dfy`): the profile constants, string
  literal quoting and unquoting, and null ordering in ORDER BY.
- **Runtime functions** (`sql_functions_*.dfy`): pure functions. Each is proved
  against an independent characterisation (a nearest multiple, a multiset
  difference, the character-by-character meaning of INITCAP, the leftmost
  occurrence) and against the test suite's expected values.

A failure in the source (an exception, an assertion, delegation to code outside
this model) is an `Err` value. Which error arises is part of the contracts.

## Model

| member | source | states |
|---|---|---|
| SqlTree.Reversed | core/src/main/java/org/apache/calcite/sql/dialect/SnowflakeSqlDialect.java:208-216 | the operands from last to first: the result has the same length; where each element goes is stated by SqlTree.ReversedAt |
| SqlTree.ReversedAt | core/src/main/java/org/apache/calcite/sql/dialect/SnowflakeSqlDialect.java:210-214 | position i of the reversed list holds operand `size - 1 - i`, as the DATE_DIFF loop visits them |
| SqlWriter.Writer.constructor | core/src/main/java/org/apache/calcite/sql/dialect/SnowflakeSqlDialect.java:85 | scaffolding for the writer `unparseCall` receives (the writer class itself, SqlPrettyWriter, is not part of this model): a fresh writer has no output and no open frame |
| SqlWriter.Writer.Print | core/src/main/java/org/apache/calcite/sql/dialect/SnowflakeSqlDialect.java:247-255 | printing appends the text as one token (an empty text adds none) and leaves the frames alone |
| SqlWriter.Writer.PrintAll | core/src/main/java/org/apache/calcite/sql/dialect/SnowflakeSqlDialect.java:105 | scaffolding for the output side of `operand.unparse(writer, …)` (SqlPrettyWriter is not part of this model): the operand's tokens are appended and the frames are left alone |
| SqlWriter.Writer.StartList | core/src/main/java/org/apache/calcite/sql/dialect/SnowflakeSqlDialect.java:148-149 | opening a list prints its opening text and pushes a frame with no items; the handle is the new frame's depth |
| SqlWriter.Writer.StartFunCall | core/src/main/java/org/apache/calcite/sql/dialect/BigQuerySqlDialect.java:58 | a function call prints its name and `(` and pushes a frame that `)` closes |
| SqlWriter.Writer.Sep | core/src/main/java/org/apache/calcite/sql/dialect/BigQuerySqlDialect.java:59-62 | a separator is printed unless it is a comma or dot before the frame's first item; the item count of the innermost frame goes up by one; nothing else changes |
| SqlWriter.Writer.EndList | core/src/main/java/org/apache/calcite/sql/dialect/SnowflakeSqlDialect.java:157-165 | closing the innermost frame prints its closing text and pops exactly that frame |
| SqlWriter.Writer.EndFunCall | core/src/main/java/org/apache/calcite/sql/dialect/BigQuerySqlDialect.java:66 | closing a call prints `)` and pops its frame |
| DialectProfile.SnowflakeProfileConstants | core/src/main/java/org/apache/calcite/sql/dialect/SnowflakeSqlDialect.java:45-63 | Snowflake quotes identifiers with `"`, upper-cases unquoted ones, and supports neither aliased VALUES nor character sets; BigQuery collates nulls low; Teradata quotes with `"` and has no aliased VALUES |
| DialectProfile.QuoteIdentifier | core/src/main/java/org/apache/calcite/sql/dialect/SnowflakeSqlDialect.java:48 | an identifier between the profile's quote strings, an inner quote doubled; Snowflake.IdentifierToken states the double quotes |
| DialectProfile.Replace | core/src/test/java/org/apache/calcite/rel/rel2sql/RelToSqlConverterTest.java:5226-5243 | every occurrence of the pattern replaced from the left, as Java's `String.replace`; DialectProfile.UnescapeEscape shows it undoes the escaping |
| DialectProfile.UnquoteStringLiteral | core/src/test/java/org/apache/calcite/rel/rel2sql/RelToSqlConverterTest.java:5226-5243 | a quoted literal's inner text with each escaped quote turned back into a quote; DialectProfile.QuoteRoundTrip proves it inverts QuoteStringLiteral |
| DialectProfile.QuoteStringLiteral | core/src/test/java/org/apache/calcite/rel/rel2sql/RelToSqlConverterTest.java:5226-5243 | a quoted literal starts and ends with a single quote |
| DialectProfile.UnescapeEscape | core/src/test/java/org/apache/calcite/rel/rel2sql/RelToSqlConverterTest.java:5226-5243 | turning each escaped quote back into a quote undoes the escaping, whatever the escape character |
| DialectProfile.FirstOfEscaped | core/src/test/java/org/apache/calcite/rel/rel2sql/RelToSqlConverterTest.java:5226-5243 | an escaped text starts with the escape character exactly when the original started with a quote, and otherwise with the original's first character |
| DialectProfile.QuoteRoundTrip | core/src/test/java/org/apache/calcite/rel/rel2sql/RelToSqlConverterTest.java:5226-5243 | unquoting a quoted literal gives back the original string, for every dialect |
| DialectProfile.QuoteFixtures | core/src/test/java/org/apache/calcite/rel/rel2sql/RelToSqlConverterTest.java:5226-5243 | `''` quotes and unquotes the empty string; `can't run` quotes to `'can\'t run'` on BigQuery and to `'can''t run'` elsewhere, and unquotes back |
| DialectProfile.UnquoteLoneQuote | core/src/test/java/org/apache/calcite/rel/rel2sql/RelToSqlConverterTest.java:5238-5240 | outside BigQuery, `'can't run'`, with an undoubled quote inside, unquotes to `can't run` |
| DialectProfile.QuoteCantRun | core/src/test/java/org/apache/calcite/rel/rel2sql/RelToSqlConverterTest.java:5228-5231 | the escaped form of `can't run` is chosen by the dialect: backslash for BigQuery, doubled quote otherwise |
| DialectProfile.CharLiteralFixtures | core/src/test/java/org/apache/calcite/rel/rel2sql/RelToSqlConverterTest.java:1432-1441 | `that's all folks!` is written `'that\'s all folks!'` on BigQuery and `'that''s all folks!'` elsewhere |
| DialectProfile.DefaultNullsFirst | core/src/main/java/org/apache/calcite/sql/dialect/BigQuerySqlDialect.java:37 | whether a collation puts nulls first by default: HIGH exactly for DESC, LOW exactly for ASC, FIRST always, LAST never |
| DialectProfile.OrderByKeys | core/src/main/java/org/apache/calcite/sql/dialect/BigQuerySqlDialect.java:33-37 | the ORDER BY keys for one column, with an `IS NULL` key only when the collation's default disagrees; DialectProfile.OrderByKeysHonourNullDirection states their meaning |
| DialectProfile.NullsFirstUnder | core/src/test/java/org/apache/calcite/rel/rel2sql/RelToSqlConverterTest.java:1547-1625 | whether a list of ORDER BY keys sorts nulls first, read from its first key; the reference OrderByKeysHonourNullDirection is stated against |
| DialectProfile.OrderByKeysHonourNullDirection | core/src/main/java/org/apache/calcite/sql/dialect/BigQuerySqlDialect.java:33-37 | the emitted ORDER BY keys put nulls first exactly when asked; they end with the column in the requested direction; they add an `IS NULL` key exactly when the collation's default disagrees |
| DialectProfile.BigQueryNullOrderingFixtures | core/src/test/java/org/apache/calcite/rel/rel2sql/RelToSqlConverterTest.java:1547-1625 | under BigQuery's low null collation, the four NULLS FIRST/LAST with ASC/DESC combinations give the expected keys |
| Snowflake.IdentifierToken | core/src/main/java/org/apache/calcite/sql/dialect/SnowflakeSqlDialect.java:48 | every identifier is written between double quotes |
| Snowflake.Render | core/src/main/java/org/apache/calcite/sql/dialect/SnowflakeSqlDialect.java:85-130 | the whole unparse of a node; each case is stated by the SnowflakeFacts lemmas, and SnowflakeUnparse.Unparse appends exactly this |
| Snowflake.RenderCall | core/src/main/java/org/apache/calcite/sql/dialect/SnowflakeSqlDialect.java:85-130 | the dispatch on the call's kind, as stated by SnowflakeFacts.RenderDispatch |
| Snowflake.OtherFunctionTokens | core/src/main/java/org/apache/calcite/sql/dialect/SnowflakeSqlDialect.java:168-232 | the dispatch on the function name; its cases are stated by IfAndInstrRenamed, DateDiffReversesOperands, StrToDateIsToDate, FormatDateSwapsOperands, Log10Rewrite and MathScaleHandling |
| Snowflake.LengthTokens | core/src/main/java/org/apache/calcite/sql/dialect/SnowflakeSqlDialect.java:103-107 | LENGTH over operand 0, as stated by SnowflakeFacts.CharLengthIsLength |
| Snowflake.TrimTokens | core/src/main/java/org/apache/calcite/sql/dialect/SnowflakeSqlDialect.java:361-385 | the TRIM rewrite, as stated by SnowflakeFacts.TrimLayout and SnowflakeFacts.TrimRejectsMalformed |
| Snowflake.TrimCharsValue | core/src/main/java/org/apache/calcite/sql/dialect/SnowflakeSqlDialect.java:380 | the text of the characters operand that the whitespace test reads; a NULL fails, and the value of other literal types is not modelled |
| Snowflake.TrimFunctionName | core/src/main/java/org/apache/calcite/sql/dialect/SnowflakeSqlDialect.java:368-377 | the function a flag selects, as stated by SnowflakeFacts.TrimFunctionNameChoice |
| Snowflake.AllWhitespace | core/src/main/java/org/apache/calcite/sql/dialect/SnowflakeSqlDialect.java:380 | Java's `\s+`: a non-empty string of space, tab, newline, vertical tab, form feed and return |
| Snowflake.ClampCase | core/src/main/java/org/apache/calcite/sql/dialect/SnowflakeSqlDialect.java:246-255 | the CASE printed around a non-literal scale; its meaning is stated by SnowflakeFacts.ClampCaseIsPrintCase and SnowflakeFacts.ClampCaseMeaning |
| Snowflake.PrintCase | core/src/main/java/org/apache/calcite/sql/dialect/SnowflakeSqlDialect.java:246-255 | a searched CASE over the scale from a list of arms, the ELSE keeping the scale; ClampCase is this over the clamp's arms (SnowflakeFacts.ClampCaseIsPrintCase) |
| Snowflake.MathTokens | core/src/main/java/org/apache/calcite/sql/dialect/SnowflakeSqlDialect.java:239-259 | ROUND/TRUNCATE with the value and the possibly clamped scale, as stated by SnowflakeFacts.MathScaleHandling |
| Snowflake.FormatDateTokens | core/src/main/java/org/apache/calcite/sql/dialect/SnowflakeSqlDialect.java:174-180 | TO_VARCHAR with the operands swapped, as stated by SnowflakeFacts.FormatDateSwapsOperands |
| Snowflake.Log10Tokens | core/src/main/java/org/apache/calcite/sql/dialect/SnowflakeSqlDialect.java:181-191 | 0 for LOG10(1) and LOG(10, x) otherwise, as stated by SnowflakeFacts.Log10Rewrite |
| Snowflake.OverTokens | core/src/main/java/org/apache/calcite/sql/dialect/SnowflakeSqlDialect.java:132-139 | the aggregate followed by the Snowflake window, or delegation when the window has an ORDER BY, as stated by SnowflakeFacts.OverWindowLayout |
| Snowflake.WindowTokens | core/src/main/java/org/apache/calcite/sql/dialect/SnowflakeSqlDialect.java:145-166 | `OVER (` then the reference name, the sections and `)`, as stated by SnowflakeFacts.OverWindowLayout |
| Snowflake.WindowSections | core/src/main/java/org/apache/calcite/sql/dialect/SnowflakeSqlDialect.java:150-164 | the PARTITION BY and ORDER BY sections that are non-empty, as stated by SnowflakeFacts.PartitionOnlySections |
| Snowflake.BaseTokens | core/src/main/java/org/apache/calcite/sql/dialect/SnowflakeSqlDialect.java:127-129 | the generic layout, as stated by SnowflakeFacts.GenericFunctionLayout and SnowflakeFacts.GenericBinaryLayout |
| Snowflake.TimesIntervalTokens | core/src/main/java/org/apache/calcite/sql/dialect/SnowflakeSqlDialect.java:329-342 | the multiplier of `x * INTERVAL k`, with `* k` unless k is 1, as stated by SnowflakeFacts.TimesIntervalLayout and SnowflakeFacts.TimesIntervalEitherOrder |
| Snowflake.IntervalOperandTokens | core/src/main/java/org/apache/calcite/sql/dialect/SnowflakeSqlDialect.java:281-290 | an interval literal or a product as the second operand of a date operation; anything else fails |
| Snowflake.IntervalOperandsTokens | core/src/main/java/org/apache/calcite/sql/dialect/SnowflakeSqlDialect.java:276-292 | `(d + i)` or `(d - i)`, with i the interval operand's own tokens, as stated by SnowflakeFacts.IntervalOperandsLayout |
| Snowflake.GetTargetFunc | core/src/main/java/org/apache/calcite/sql/dialect/SnowflakeSqlDialect.java:65-83 | the DATE_ADD / DATE_SUB choice for DATE arithmetic, as stated by SnowflakeFacts.TargetFuncChoice |
| Snowflake.RenderEach | core/src/main/java/org/apache/calcite/sql/dialect/SnowflakeSqlDialect.java:90-93 | rendering the operand list gives one rendering per operand when it succeeds |
| Snowflake.ToDateCall | core/src/main/java/org/apache/calcite/sql/dialect/SnowflakeSqlDialect.java:195-199 | STR_TO_DATE is rebuilt as a TO_DATE call over its first two operands, a smaller tree |
| Snowflake.IntervalLiteralIndex | core/src/main/java/org/apache/calcite/sql/dialect/SnowflakeSqlDialect.java:350-356 | the interval literal of `a * b` is operand 0 or 1 |
| Snowflake.IdentifierIndex | core/src/main/java/org/apache/calcite/sql/dialect/SnowflakeSqlDialect.java:405-411 | the multiplier of `a * b` is operand 0 or 1 |
| Snowflake.RewriteSingleValueExpr | core/src/main/java/org/apache/calcite/sql/dialect/SnowflakeSqlDialect.java:413-415 | a single-value aggregate is replaced by its first operand, and only a call with an operand can be rewritten |
| SnowflakeFacts.RenderedOperands | core/src/main/java/org/apache/calcite/sql/dialect/SnowflakeSqlDialect.java:90-93 | the per-operand renderings, one for each operand, each the operand's own |
| SnowflakeFacts.RenderEachSpec | core/src/main/java/org/apache/calcite/sql/dialect/SnowflakeSqlDialect.java:90-93 | the operand list renders exactly when every operand does, to the operands' renderings in order |
| SnowflakeFacts.RenderEachPrefixErr | core/src/main/java/org/apache/calcite/sql/dialect/SnowflakeSqlDialect.java:90-93 | once an operand fails, the whole list fails with that operand's error |
| SnowflakeFacts.RenderEachSnoc | core/src/main/java/org/apache/calcite/sql/dialect/SnowflakeSqlDialect.java:90-93 | one more operand at the end adds its own rendering at the end |
| SnowflakeFacts.ReversedSuffix | core/src/main/java/org/apache/calcite/sql/dialect/SnowflakeSqlDialect.java:210-214 | the operands the backward loop has yet to visit are the unvisited front of the reversed list |
| SnowflakeFacts.FunCallAllSpec | core/src/main/java/org/apache/calcite/sql/dialect/SnowflakeSqlDialect.java:88-95 | `name(op, …)` holds every operand's rendering in order, separated by commas, and fails exactly when an operand does |
| SnowflakeFacts.RenderDispatch | core/src/main/java/org/apache/calcite/sql/dialect/SnowflakeSqlDialect.java:85-130 | each call kind goes to its own case; TRUNCATE, IF and other functions go to the name dispatch; kinds without a case go to the generic layout |
| SnowflakeFacts.SubstringIsSubstr | core/src/main/java/org/apache/calcite/sql/dialect/SnowflakeSqlDialect.java:88-95 | SUBSTRING is written SUBSTR over all its operands |
| SnowflakeFacts.IfAndInstrRenamed | core/src/main/java/org/apache/calcite/sql/dialect/SnowflakeSqlDialect.java:192-207 | IF is written IFF and INSTR is written REGEXP_INSTR, over all their operands |
| SnowflakeFacts.DateDiffReversesOperands | core/src/main/java/org/apache/calcite/sql/dialect/SnowflakeSqlDialect.java:208-216 | DATE_DIFF is written DATEDIFF over the operands' renderings in reverse order, and fails exactly when an operand does |
| SnowflakeFacts.StrToDateIsToDate | core/src/main/java/org/apache/calcite/sql/dialect/SnowflakeSqlDialect.java:195-199 | STR_TO_DATE(s, f, …) is written TO_DATE(s, f); operands after the second are dropped |
| SnowflakeFacts.StrToDateNeedsTwoOperands | core/src/main/java/org/apache/calcite/sql/dialect/SnowflakeSqlDialect.java:196-197 | STR_TO_DATE with fewer than two operands fails |
| SnowflakeFacts.FormatDateSwapsOperands | core/src/main/java/org/apache/calcite/sql/dialect/SnowflakeSqlDialect.java:174-180 | FORMAT_DATE(fmt, d) is written TO_VARCHAR(d,fmt) |
| SnowflakeFacts.CharLengthIsLength | core/src/main/java/org/apache/calcite/sql/dialect/SnowflakeSqlDialect.java:103-107 | CHAR_LENGTH(x) is written LENGTH(x); operands after the first are not written |
| SnowflakeFacts.Log10Rewrite | core/src/main/java/org/apache/calcite/sql/dialect/SnowflakeSqlDialect.java:181-191 | LOG10 of the numeric literal 1 is written 0; any other argument x gives LOG(10, x) |
| Snowflake.EvalCase | core/src/main/java/org/apache/calcite/sql/dialect/SnowflakeSqlDialect.java:246-255 | the value of a searched CASE over the scale `v`: either `v` itself (the ELSE) or the result of an arm whose comparison holds of `v` |
| SnowflakeFacts.ClampCaseMeaning | core/src/main/java/org/apache/calcite/sql/dialect/SnowflakeSqlDialect.java:246-255 | evaluated over the clamp's arms (`> 38 THEN 38`, `< -12 THEN -12`, `ELSE v`), the scale is within [-12, 38]; one already in range is kept, and one outside it goes to the nearer bound |
| SnowflakeFacts.ClampArmTexts | core/src/main/java/org/apache/calcite/sql/dialect/SnowflakeSqlDialect.java:248-253 | the clamp's two arms print as `> 38 THEN 38 ` and `< -12 THEN -12 ` |
| SnowflakeFacts.PrintCaseOfTwo | core/src/main/java/org/apache/calcite/sql/dialect/SnowflakeSqlDialect.java:246-255 | a two-arm searched CASE prints `CASE WHEN s arm1 WHEN s arm2 ELSE s END` |
| SnowflakeFacts.ClampCaseIsPrintCase | core/src/main/java/org/apache/calcite/sql/dialect/SnowflakeSqlDialect.java:246-255 | the tokens the dialect prints for a non-literal scale are exactly the searched CASE over the clamp's arms, so what ClampCaseMeaning proves of those arms is what the printed CASE computes |
| SnowflakeFacts.ClampCaseRepeatsScale | core/src/main/java/org/apache/calcite/sql/dialect/SnowflakeSqlDialect.java:246-255 | the CASE contains the scale expression three times, once in each arm |
| SnowflakeFacts.MathScaleHandling | core/src/main/java/org/apache/calcite/sql/dialect/SnowflakeSqlDialect.java:239-259 | ROUND/TRUNCATE keep one operand unchanged; a numeric-literal scale is written as it is, and any other scale is wrapped in the clamping CASE |
| SnowflakeFacts.TrimLayout | core/src/main/java/org/apache/calcite/sql/dialect/SnowflakeSqlDialect.java:361-385 | TRIM is written LTRIM for LEADING, RTRIM for TRAILING, and under its own name for BOTH; the value comes first; the characters follow unless they are all whitespace |
| SnowflakeFacts.TrimRejectsMalformed | core/src/main/java/org/apache/calcite/sql/dialect/SnowflakeSqlDialect.java:363-367 | TRIM whose flag or characters operand is not a literal of the right kind fails |
| SnowflakeFacts.TrimFunctionNameChoice | core/src/main/java/org/apache/calcite/sql/dialect/SnowflakeSqlDialect.java:368-377 | LTRIM exactly for LEADING, RTRIM exactly for TRAILING, and the call's own name exactly for BOTH |
| SnowflakeFacts.OverWindowLayout | core/src/main/java/org/apache/calcite/sql/dialect/SnowflakeSqlDialect.java:132-166 | an OVER whose window has an ORDER BY is left to the generic window code; one without is written `agg OVER (name PARTITION BY …)` |
| SnowflakeFacts.PartitionOnlySections | core/src/main/java/org/apache/calcite/sql/dialect/SnowflakeSqlDialect.java:150-158 | without ORDER BY, the window body is the PARTITION BY list, or nothing when there is none |
| SnowflakeFacts.GenericFunctionLayout | core/src/main/java/org/apache/calcite/sql/dialect/SnowflakeSqlDialect.java:127-129 | a call the dialect has no case for is written `name(op, …)` over all its operands |
| SnowflakeFacts.GenericBinaryLayout | core/src/main/java/org/apache/calcite/sql/dialect/SnowflakeSqlDialect.java:127-129 | a binary call with no case is written with the operator between its two operands; any other operand count fails |
| SnowflakeFacts.SelectorsPickBothOperands | core/src/main/java/org/apache/calcite/sql/dialect/SnowflakeSqlDialect.java:350-411 | the interval selector and the multiplier selector never pick the same operand |
| SnowflakeFacts.TimesIntervalEitherOrder | core/src/main/java/org/apache/calcite/sql/dialect/SnowflakeSqlDialect.java:329-342 | `x * INTERVAL` and `INTERVAL * x` are written alike when x is an identifier or a number |
| SnowflakeFacts.TimesIntervalLayout | core/src/main/java/org/apache/calcite/sql/dialect/SnowflakeSqlDialect.java:329-342 | `x * INTERVAL 'k'` is written x alone when k is 1, and `x * k` otherwise |
| SnowflakeFacts.IntervalOperandsLayout | core/src/main/java/org/apache/calcite/sql/dialect/SnowflakeSqlDialect.java:276-292 | a date plus or minus an interval is parenthesised with the date first; the operator is `+` exactly for PLUS and `-` otherwise; it fails exactly when the date or the interval operand does; on success the tokens are exactly `(`, the date's tokens, the operator, the interval operand's tokens and `)` |
| SnowflakeFacts.ProductOperand | core/src/main/java/org/apache/calcite/sql/dialect/SnowflakeSqlDialect.java:287-288 | a product as the interval operand is written by the multiplier rule of unparseExpressionIntervalCall |
| SnowflakeFacts.TargetFuncChoice | core/src/main/java/org/apache/calcite/sql/dialect/SnowflakeSqlDialect.java:65-83 | only a DATE call whose second operand is a day interval is redirected, to DATE_SUB exactly for MINUS and to DATE_ADD otherwise |
| SnowflakeFixtures.RenderPlainIdent | core/src/test/java/org/apache/calcite/rel/rel2sql/RelToSqlConverterTest.java:2695-2696 | an identifier without a double quote is written inside double quotes, as in `"brand_name"` |
| SnowflakeFixtures.RenderPlainString | core/src/test/java/org/apache/calcite/rel/rel2sql/RelToSqlConverterTest.java:1628-1633 | a string without a quote is written inside single quotes, as in `'xyz'` |
| SnowflakeFixtures.RenderNumber | core/src/test/java/org/apache/calcite/rel/rel2sql/RelToSqlConverterTest.java:6655-6661 | a numeric literal is written as its text |
| SnowflakeFixtures.Log10Two | core/src/test/java/org/apache/calcite/rel/rel2sql/RelToSqlConverterTest.java:6655-6661 | LOG10(2) is written LOG(10, 2) |
| SnowflakeFixtures.Log10One | core/src/test/java/org/apache/calcite/rel/rel2sql/RelToSqlConverterTest.java:6663-6669 | LOG10(1) is written 0 |
| SnowflakeFixtures.TrimLeadingFixture | core/src/test/java/org/apache/calcite/rel/rel2sql/RelToSqlConverterTest.java:1105-1111 | TRIM(LEADING ' ' FROM ' str ') is written LTRIM(' str ') |
| SnowflakeFixtures.TrimCharsFixture | core/src/test/java/org/apache/calcite/rel/rel2sql/RelToSqlConverterTest.java:1190-1197 | TRIM(BOTH 'A' FROM 'AABCAADCAA') is written TRIM('AABCAADCAA', 'A') |
| SnowflakeFixtures.TruncateClampFixture | core/src/test/java/org/apache/calcite/rel/rel2sql/RelToSqlConverterTest.java:6733-6740 | TRUNCATE(2.30259, "employee_id") is written `TRUNCATE(2.30259, CASE WHEN "employee_id" > 38 THEN 38 WHEN "employee_id" < -12 THEN -12 ELSE "employee_id" END)`, token by token |
| SnowflakeFixtures.StoreIdDays | core/src/test/java/org/apache/calcite/rel/rel2sql/RelToSqlConverterTest.java:4672-4681 | `"store_id" * INTERVAL '1' DAY` as an interval operand is written `"store_id"` |
| SnowflakeFixtures.DatePlusFixture | core/src/test/java/org/apache/calcite/rel/rel2sql/RelToSqlConverterTest.java:4672-4681 | `"birth_date" + "store_id" * INTERVAL '1' DAY` is written `("birth_date" + "store_id")` |
| SnowflakeFixtures.CallOverTwo | core/src/main/java/org/apache/calcite/sql/dialect/SnowflakeSqlDialect.java:88-95 | a call over two rendering operands is `name ( a , b )` |
| SnowflakeFixtures.CallOverThree | core/src/main/java/org/apache/calcite/sql/dialect/SnowflakeSqlDialect.java:390-397 | a call over three rendering operands is `name ( a , b , c )` |
| SnowflakeFixtures.TrimCharsOf | core/src/main/java/org/apache/calcite/sql/dialect/SnowflakeSqlDialect.java:378-384 | TRIM with characters that are not all whitespace: the flag's function over the value, then the quoted characters |
| SnowflakeFixtures.TrimBlankOf | core/src/main/java/org/apache/calcite/sql/dialect/SnowflakeSqlDialect.java:378-384 | TRIM with all-whitespace characters: the flag's function over the value alone |
| SnowflakeFixtures.TrimBothFixture | core/src/test/java/org/apache/calcite/rel/rel2sql/RelToSqlConverterTest.java:1083-1089 | TRIM(BOTH ' ' FROM "full_name") is written `TRIM("full_name")` |
| SnowflakeFixtures.LtrimCharsFixture | core/src/test/java/org/apache/calcite/rel/rel2sql/RelToSqlConverterTest.java:1149-1157 | TRIM(LEADING 'A' FROM "first_name") is written `LTRIM("first_name", 'A')` |
| SnowflakeFixtures.RtrimCharsFixture | core/src/test/java/org/apache/calcite/rel/rel2sql/RelToSqlConverterTest.java:1169-1177 | TRIM(TRAILING 'A' FROM 'AABCAADCAA') is written `RTRIM('AABCAADCAA', 'A')` |
| SnowflakeFixtures.SubstrFixture | core/src/test/java/org/apache/calcite/rel/rel2sql/RelToSqlConverterTest.java:2688-2697 | SUBSTRING("brand_name" FROM 2) is written `SUBSTR("brand_name", 2)` |
| SnowflakeFixtures.LengthFixture | core/src/test/java/org/apache/calcite/rel/rel2sql/RelToSqlConverterTest.java:1628-1633 | CHAR_LENGTH('xyz') is written `LENGTH('xyz')` |
| SnowflakeFixtures.FormatDateOf | core/src/main/java/org/apache/calcite/sql/dialect/SnowflakeSqlDialect.java:174-180 | FORMAT_DATE(fmt, d) is written `TO_VARCHAR ( d , fmt )` from the operands' tokens |
| SnowflakeFixtures.ToVarcharFixture | core/src/test/java/org/apache/calcite/rel/rel2sql/RelToSqlConverterTest.java:6134-6149 | FORMAT_DATE('YYYY-MM-DD', "HIREDATE") is written `TO_VARCHAR("HIREDATE", 'YYYY-MM-DD')` |
| SnowflakeFixtures.ToDateFixture | core/src/test/java/org/apache/calcite/rel/rel2sql/RelToSqlConverterTest.java:6230-6254 | STR_TO_DATE('20181106', 'YYYYMMDD') is written `TO_DATE('20181106', 'YYYYMMDD')` |
| SnowflakeFixtures.PostfixOf | core/src/main/java/org/apache/calcite/sql/dialect/SnowflakeSqlDialect.java:127-129 | a postfix operator with no case of its own follows its operand |
| SnowflakeFixtures.BinaryOf | core/src/main/java/org/apache/calcite/sql/dialect/SnowflakeSqlDialect.java:127-129 | a binary operator with no case of its own stands between its operands |
| SnowflakeFixtures.RenderFirstNameMissing | core/src/test/java/org/apache/calcite/rel/rel2sql/RelToSqlConverterTest.java:6643-6653 | `"first_name" IS NULL OR "first_name" = ''` is written token by token as in the expected IFF condition |
| SnowflakeFixtures.IffOf | core/src/main/java/org/apache/calcite/sql/dialect/SnowflakeSqlDialect.java:390-397 | IF(cond, x, y) is written `IFF ( cond , x , y )` from the operands' tokens |
| SnowflakeFixtures.IffFixture | core/src/test/java/org/apache/calcite/rel/rel2sql/RelToSqlConverterTest.java:6643-6653 | IF("first_name" IS NULL OR "first_name" = '', NULL, "first_name") is written `IFF("first_name" IS NULL OR "first_name" = '', NULL, "first_name")` |
| SnowflakeFixtures.Log10Of | core/src/main/java/org/apache/calcite/sql/dialect/SnowflakeSqlDialect.java:181-191 | LOG10(x) for x other than the literal 1 is written `LOG ( 10 , x )` from x's tokens |
| SnowflakeFixtures.Log10ColumnFixture | core/src/test/java/org/apache/calcite/rel/rel2sql/RelToSqlConverterTest.java:6671-6677 | LOG10("product_id") is written `LOG(10, "product_id")` |
| SnowflakeUnparse.Unparse | core/src/main/java/org/apache/calcite/sql/dialect/SnowflakeSqlDialect.java:85-130 | unparsing a node appends exactly its rendering, leaves the frames as they were, and reports its error otherwise |
| SnowflakeUnparse.UnparseSqlIntervalLiteral | core/src/main/java/org/apache/calcite/sql/dialect/SnowflakeSqlDialect.java:302-313 | an interval literal appends `(-k)` when negative and `k` otherwise |
| SnowflakeUnparse.UnparseItem | core/src/main/java/org/apache/calcite/sql/dialect/SnowflakeSqlDialect.java:90-93 | one operand after `sep(",")`: a comma only when the frame already has an item, then the operand's rendering; the frame's item count goes up by one |
| SnowflakeUnparse.UnparseItems | core/src/main/java/org/apache/calcite/sql/dialect/SnowflakeSqlDialect.java:90-93 | the loop appends the operands as a comma list in order, and stops at the first operand that fails, with its error |
| SnowflakeUnparse.UnparseFunCall | core/src/main/java/org/apache/calcite/sql/dialect/SnowflakeSqlDialect.java:88-95 | `name(op, …)` is appended over the given operands |
| SnowflakeUnparse.UnparseNodeList | core/src/main/java/org/apache/calcite/sql/dialect/SnowflakeSqlDialect.java:155-163 | a node list in an unmarked frame appends its comma list |
| SnowflakeUnparse.UnparseCall | core/src/main/java/org/apache/calcite/sql/dialect/SnowflakeSqlDialect.java:85-130 | the dispatch on the call's kind appends the call's rendering |
| SnowflakeUnparse.UnparseCharLength | core/src/main/java/org/apache/calcite/sql/dialect/SnowflakeSqlDialect.java:103-107 | appends LENGTH(op0) |
| SnowflakeUnparse.UnparseTrim | core/src/main/java/org/apache/calcite/sql/dialect/SnowflakeSqlDialect.java:361-385 | checks the flag and the characters operand, then appends the TRIM rewrite |
| SnowflakeUnparse.UnparseTrimCall | core/src/main/java/org/apache/calcite/sql/dialect/SnowflakeSqlDialect.java:378-384 | appends the function name, the value and the non-blank characters |
| SnowflakeUnparse.UnparseOtherFunction | core/src/main/java/org/apache/calcite/sql/dialect/SnowflakeSqlDialect.java:168-232 | the dispatch on the function name appends that name's rewrite |
| SnowflakeUnparse.UnparseDateDiff | core/src/main/java/org/apache/calcite/sql/dialect/SnowflakeSqlDialect.java:208-216 | appends DATEDIFF over the reversed operands |
| SnowflakeUnparse.UnparseItemsBackwards | core/src/main/java/org/apache/calcite/sql/dialect/SnowflakeSqlDialect.java:210-214 | the index-decreasing loop appends the comma list of the reversed operands, and stops at the first failure it meets |
| SnowflakeUnparse.BackwardsFailure | core/src/main/java/org/apache/calcite/sql/dialect/SnowflakeSqlDialect.java:210-214 | when the backward loop meets a failing operand after the later ones rendered, that operand's error is the error of the whole reversed list |
| SnowflakeUnparse.HandleMathFunction | core/src/main/java/org/apache/calcite/sql/dialect/SnowflakeSqlDialect.java:239-259 | appends ROUND/TRUNCATE with the value and the possibly clamped scale |
| SnowflakeUnparse.UnparseScale | core/src/main/java/org/apache/calcite/sql/dialect/SnowflakeSqlDialect.java:244-256 | appends a numeric-literal scale as it is and any other scale inside the CASE |
| SnowflakeUnparse.UnparseFormatDate | core/src/main/java/org/apache/calcite/sql/dialect/SnowflakeSqlDialect.java:174-180 | appends TO_VARCHAR(op1,op0) |
| SnowflakeUnparse.UnparseLog10 | core/src/main/java/org/apache/calcite/sql/dialect/SnowflakeSqlDialect.java:181-191 | appends 0 for LOG10(1), and LOG(10, x) otherwise |
| SnowflakeUnparse.HandleOverCall | core/src/main/java/org/apache/calcite/sql/dialect/SnowflakeSqlDialect.java:132-139 | appends the aggregate and the Snowflake window, or defers to the generic window code when there is an ORDER BY |
| SnowflakeUnparse.UnparseSqlWindow | core/src/main/java/org/apache/calcite/sql/dialect/SnowflakeSqlDialect.java:145-166 | appends `OVER (` then the reference name, the sections, and `)` |
| SnowflakeUnparse.UnparseWindowSections | core/src/main/java/org/apache/calcite/sql/dialect/SnowflakeSqlDialect.java:150-164 | appends the PARTITION BY and ORDER BY sections that are non-empty, in that order |
| SnowflakeUnparse.UnparseWindowSection | core/src/main/java/org/apache/calcite/sql/dialect/SnowflakeSqlDialect.java:153-158 | appends the keyword and the list as the next item of the window's frame |
| SnowflakeUnparse.UnparseBase | core/src/main/java/org/apache/calcite/sql/dialect/SnowflakeSqlDialect.java:127-129 | appends the generic layout of a call with no case of its own |
| SnowflakeUnparse.UnparseBinary | core/src/main/java/org/apache/calcite/sql/dialect/SnowflakeSqlDialect.java:127-129 | appends `a op b` in a fresh frame |
| SnowflakeUnparse.UnparseIntervalOperandsBasedFunctions | core/src/main/java/org/apache/calcite/sql/dialect/SnowflakeSqlDialect.java:276-292 | appends `(d + i)` or `(d - i)`, and fails on an operand that is neither an interval literal nor a product |
| SnowflakeUnparse.UnparseIntervalOperand | core/src/main/java/org/apache/calcite/sql/dialect/SnowflakeSqlDialect.java:281-290 | appends an interval literal or a product; any other kind of operand fails |
| SnowflakeUnparse.UnparseExpressionIntervalCall | core/src/main/java/org/apache/calcite/sql/dialect/SnowflakeSqlDialect.java:329-342 | appends the multiplier, and `* k` unless the interval is 1 |
| BigQuery.UnparseOperand | core/src/main/java/org/apache/calcite/sql/dialect/BigQuerySqlDialect.java:60-62 | an operand appends its rendering and leaves the frames alone |
| BigQuery.EmulatesOperator | core/src/main/java/org/apache/calcite/sql/dialect/BigQuerySqlDialect.java:44-52 | POSITION and UNION are emulated and every other name is not; BigQuery.EmulationTableTotal ties this to the names unparseSqlOperator handles |
| BigQuery.PositionTokens | core/src/main/java/org/apache/calcite/sql/dialect/BigQuerySqlDialect.java:57-67 | STRPOS over the operands swapped, as stated by BigQuery.PositionSwapsOperands and BigQuery.PositionRefusesThirdOperand |
| BigQuery.BinaryTokens | core/src/main/java/org/apache/calcite/sql/dialect/BigQuerySqlDialect.java:68-70 | the left operand, the operator's name and the right operand; BigQuery.UnionIsUnionDistinct states it for UNION |
| BigQuery.EmulatedTokens | core/src/main/java/org/apache/calcite/sql/dialect/BigQuerySqlDialect.java:54-75 | the emulation of POSITION or UNION, and a "not handled" failure for any other name, as BigQuery.EmulationTableTotal states |
| BigQuery.LiteralTokens | core/src/test/java/org/apache/calcite/rel/rel2sql/RelToSqlConverterTest.java:1423-1428 | string, numeric and NULL literals as the generic unparser writes them under BigQuery, used by BigQuery.PositionFixture |
| BigQuery.UnparseSqlOperator | core/src/main/java/org/apache/calcite/sql/dialect/BigQuerySqlDialect.java:54-75 | appends the emulated form of POSITION or UNION, and fails for any other name |
| BigQuery.UnparsePosition | core/src/main/java/org/apache/calcite/sql/dialect/BigQuerySqlDialect.java:57-67 | appends STRPOS(b, a) for POSITION(a IN b), and fails with a third operand after writing both |
| BigQuery.UnparseBinary | core/src/main/java/org/apache/calcite/sql/dialect/BigQuerySqlDialect.java:68-70 | appends `left UNION DISTINCT right` in a fresh frame |
| BigQuery.EmulationTableTotal | core/src/main/java/org/apache/calcite/sql/dialect/BigQuerySqlDialect.java:44-75 | a name is claimed by `emulatesOperator` exactly when `unparseSqlOperator` has a case for it; every other name fails with "not handled" |
| BigQuery.PositionSwapsOperands | core/src/test/java/org/apache/calcite/rel/rel2sql/RelToSqlConverterTest.java:1423-1428 | POSITION(a IN b) is written STRPOS(b, a), the searched string first |
| BigQuery.PositionRefusesThirdOperand | core/src/main/java/org/apache/calcite/sql/dialect/BigQuerySqlDialect.java:63-65 | a three-operand POSITION fails, unsupported, once its first two operands render |
| BigQuery.UnionIsUnionDistinct | core/src/main/java/org/apache/calcite/sql/dialect/BigQuerySqlDialect.java:68-78 | UNION is written as the binary operator UNION DISTINCT, of kind UNION and precedence 14 |
| BigQuery.PositionFixture | core/src/test/java/org/apache/calcite/rel/rel2sql/RelToSqlConverterTest.java:1423-1428 | position('A' IN 'ABC') is written STRPOS('ABC', 'A') |
| BigQuery.UnionFixture | core/src/test/java/org/apache/calcite/rel/rel2sql/RelToSqlConverterTest.java:1481-1487 | `SELECT MOD(11, 3) FROM product UNION SELECT 1 FROM product` is written with `UNION DISTINCT` between the two queries |
| SqlFunctionsText.LeadingFrom | core/src/test/java/org/apache/calcite/test/SqlFunctionsTest.java:273-282 | the first position from i that does not hold c; everything skipped is c |
| SqlFunctionsText.TrailingTo | core/src/test/java/org/apache/calcite/test/SqlFunctionsTest.java:262-271 | the end once the trailing copies of c are cut off; everything cut is c |
| SqlFunctionsText.Trim | core/src/test/java/org/apache/calcite/test/SqlFunctionsTest.java:284-297 | trimming never lengthens the string |
| SqlFunctionsText.TrimKeepsSlice | core/src/test/java/org/apache/calcite/test/SqlFunctionsTest.java:262-297 | trimming keeps one contiguous slice of the input, cuts only c from the chosen ends, and leaves a non-c character at each trimmed end; an all-c string trims to empty |
| SqlFunctionsText.TrimNoEnds | core/src/test/java/org/apache/calcite/test/SqlFunctionsTest.java:262-297 | a string with no c at the trimmed ends is unchanged |
| SqlFunctionsText.TrimIdempotent | core/src/test/java/org/apache/calcite/test/SqlFunctionsTest.java:262-297 | trimming twice is trimming once |
| SqlFunctionsText.RTrim | core/src/test/java/org/apache/calcite/test/SqlFunctionsTest.java:262-271 | trailing spaces cut; stated by SqlFunctionsText.RTrimIsPrefix |
| SqlFunctionsText.LTrim | core/src/test/java/org/apache/calcite/test/SqlFunctionsTest.java:273-282 | leading spaces cut; stated by SqlFunctionsText.LTrimIsSuffix |
| SqlFunctionsText.TrimBoth | core/src/test/java/org/apache/calcite/test/SqlFunctionsTest.java:284-297 | spaces cut at both ends; stated by SqlFunctionsText.TrimBothIsSlice |
| SqlFunctionsText.RTrimIsPrefix | core/src/test/java/org/apache/calcite/test/SqlFunctionsTest.java:262-271 | RTRIM is the input up to its last non-space character |
| SqlFunctionsText.LTrimIsSuffix | core/src/test/java/org/apache/calcite/test/SqlFunctionsTest.java:273-282 | LTRIM is the input from its first non-space character |
| SqlFunctionsText.TrimBothIsSlice | core/src/test/java/org/apache/calcite/test/SqlFunctionsTest.java:284-297 | TRIM is the slice from the first to the last non-space character |
| SqlFunctionsText.TrimFixtureEmpty | core/src/test/java/org/apache/calcite/test/SqlFunctionsTest.java:262-297 | the empty string trims to itself |
| SqlFunctionsText.TrimFixtureAllSpaces | core/src/test/java/org/apache/calcite/test/SqlFunctionsTest.java:262-297 | spaces only trim to the empty string |
| SqlFunctionsText.TrimFixturePadded | core/src/test/java/org/apache/calcite/test/SqlFunctionsTest.java:262-297 | `   x  ` under RTRIM, LTRIM and TRIM |
| SqlFunctionsText.TrimFixtureOneTrailing | core/src/test/java/org/apache/calcite/test/SqlFunctionsTest.java:262-297 | `   x ` under RTRIM, LTRIM and TRIM |
| SqlFunctionsText.TrimFixtureInnerSpace | core/src/test/java/org/apache/calcite/test/SqlFunctionsTest.java:262-297 | an inner space is kept |
| SqlFunctionsText.TrimFixtureLeadingOnly | core/src/test/java/org/apache/calcite/test/SqlFunctionsTest.java:262-297 | `   x` under RTRIM, LTRIM and TRIM |
| SqlFunctionsText.TrimFixtureBare | core/src/test/java/org/apache/calcite/test/SqlFunctionsTest.java:262-297 | `x` is unchanged by all three |
| SqlFunctionsText.TrimFixtureTrailingKept | core/src/test/java/org/apache/calcite/test/SqlFunctionsTest.java:273-282 | LTRIM keeps trailing spaces |
| SqlFunctionsText.Fill | core/src/test/java/org/apache/calcite/test/SqlFunctionsTest.java:1013-1029 | the fill is n characters of the pad string repeated from its start |
| SqlFunctionsText.LPad | core/src/test/java/org/apache/calcite/test/SqlFunctionsTest.java:1013-1020 | LPAD gives exactly n characters: the input cut to n, or the fill followed by the whole input |
| SqlFunctionsText.RPad | core/src/test/java/org/apache/calcite/test/SqlFunctionsTest.java:1022-1029 | RPAD gives exactly n characters: the input cut to n, or the whole input followed by the fill |
| SqlFunctionsText.LPadSpace | core/src/test/java/org/apache/calcite/test/SqlFunctionsTest.java:1016 | LPAD without a pad string pads with spaces, as SqlFunctionsText.PadFixturesOneChar shows |
| SqlFunctionsText.RPadSpace | core/src/test/java/org/apache/calcite/test/SqlFunctionsTest.java:1025 | RPAD without a pad string pads with spaces, as SqlFunctionsText.PadFixturesOneChar shows |
| SqlFunctionsText.PadRoundTrip | core/src/test/java/org/apache/calcite/test/SqlFunctionsTest.java:1013-1029 | padding is undone by taking the input's part back, and padding to the input's own length is the identity |
| SqlFunctionsText.PadFixturesOneChar | core/src/test/java/org/apache/calcite/test/SqlFunctionsTest.java:1013-1029 | padding with `%` and with the default space |
| SqlFunctionsText.PadFixturesWhole | core/src/test/java/org/apache/calcite/test/SqlFunctionsTest.java:1013-1029 | a pad string that fits exactly |
| SqlFunctionsText.PadFixturesShorter | core/src/test/java/org/apache/calcite/test/SqlFunctionsTest.java:1013-1029 | padding to less than the input cuts it |
| SqlFunctionsText.PadFixturesLonger | core/src/test/java/org/apache/calcite/test/SqlFunctionsTest.java:1013-1029 | a pad string longer than the gap is cut |
| SqlFunctionsText.Initcap | core/src/test/java/org/apache/calcite/test/SqlFunctionsTest.java:226-234 | INITCAP keeps the length |
| SqlFunctionsText.InitcapFromAt | core/src/test/java/org/apache/calcite/test/SqlFunctionsTest.java:226-234 | the scan's character k depends only on whether k starts a word |
| SqlFunctionsText.InitcapByCharacter | core/src/test/java/org/apache/calcite/test/SqlFunctionsTest.java:226-234 | a character starting a word is upper-cased and every other one lower-cased |
| SqlFunctionsText.InitcapKeepsNonLetters | core/src/test/java/org/apache/calcite/test/SqlFunctionsTest.java:226-234 | characters that are not letters are unchanged |
| SqlFunctionsText.InitcapAfterSeparator | core/src/test/java/org/apache/calcite/test/SqlFunctionsTest.java:226-234 | after a separator, INITCAP of a concatenation is the concatenation of the INITCAPs |
| SqlFunctionsText.InitcapSplit | core/src/test/java/org/apache/calcite/test/SqlFunctionsTest.java:226-234 | up to the end of p, the scan over p + q is the scan over p |
| SqlFunctionsText.InitcapShift | core/src/test/java/org/apache/calcite/test/SqlFunctionsTest.java:226-234 | after a separator, the scan over p + q continues as the scan over q |
| SqlFunctionsText.InitcapLetterFixtures | core/src/test/java/org/apache/calcite/test/SqlFunctionsTest.java:226-234 | `aA`, `zz` and `AZ` give `Aa`, `Zz` and `Az` |
| SqlFunctionsText.InitcapSpaceFixture | core/src/test/java/org/apache/calcite/test/SqlFunctionsTest.java:226-234 | `tRy a littlE  ` gives `Try A Little  ` |
| SqlFunctionsText.InitcapPunctuationFixture | core/src/test/java/org/apache/calcite/test/SqlFunctionsTest.java:226-234 | `won't it?no` gives `Won'T It?No` |
| SqlFunctionsText.InitcapDigitFixtures | core/src/test/java/org/apache/calcite/test/SqlFunctionsTest.java:226-234 | `1A` gives `1a` and ` b0123B` gives ` B0123b`: a digit continues a word |
| SqlFunctionsText.MatchesFromSlice | core/src/test/java/org/apache/calcite/test/SqlFunctionsTest.java:1123-1134 | matching character by character from j is equality of the slices |
| SqlFunctionsText.OccursAtSlice | core/src/test/java/org/apache/calcite/test/SqlFunctionsTest.java:1123-1134 | an occurrence at k is equality of the slice starting at k |
| SqlFunctionsText.IndexOf | core/src/test/java/org/apache/calcite/test/SqlFunctionsTest.java:1123-1134 | the index is -1 or lies between `from` and the length |
| SqlFunctionsText.IndexOfIsFirst | core/src/test/java/org/apache/calcite/test/SqlFunctionsTest.java:1123-1134 | the index found is an occurrence with none before it from `from`; -1 exactly when there is none |
| SqlFunctionsText.Instr | core/src/test/java/org/apache/calcite/test/SqlFunctionsTest.java:1123-1127 | a non-zero INSTR is a 1-based position, at or after `start` and at most one past the end, where the substring occurs; that it is the occurrence-th one is stated by SqlFunctionsText.InstrIsNthOccurrence |
| SqlFunctionsText.CountUpToIndexOf | core/src/test/java/org/apache/calcite/test/SqlFunctionsTest.java:1123-1127 | counting occurrences from a position meets none before the first one found by the search, and none at all when the search finds nothing |
| SqlFunctionsText.InstrIsNthOccurrence | core/src/test/java/org/apache/calcite/test/SqlFunctionsTest.java:1123-1127 | INSTR is 0 exactly when fewer than `occurrence` occurrences start at or after `start`; otherwise the substring occurs at the result and exactly `occurrence` occurrences start from `start` up to it, so none is skipped |
| SqlFunctionsText.InstrFirstIsLeftmost | core/src/test/java/org/apache/calcite/test/SqlFunctionsTest.java:1123-1127 | the first occurrence INSTR finds is the leftmost from `start`, and 0 means there is none |
| SqlFunctionsText.InstrOccurrencesIncrease | core/src/test/java/org/apache/calcite/test/SqlFunctionsTest.java:1123-1127 | the occurrences INSTR finds lie in strictly increasing order, and an (n+1)-th occurrence exists only after an n-th |
| SqlFunctionsText.LowerString | core/src/test/java/org/apache/calcite/test/SqlFunctionsTest.java:1129-1134 | every character is lower-cased, and the length is kept |
| SqlFunctionsText.LowerStringAppend | core/src/test/java/org/apache/calcite/test/SqlFunctionsTest.java:1129-1134 | lower-casing distributes over concatenation |
| SqlFunctionsText.Charindex | core/src/test/java/org/apache/calcite/test/SqlFunctionsTest.java:1129-1134 | a non-zero CHARINDEX is a position at or after `start` where the substring occurs, case ignored |
| SqlFunctionsText.SentenceFirstCh | core/src/test/java/org/apache/calcite/test/SqlFunctionsTest.java:1123-1127 | in the sample sentence the first `ch` after index 1 is at index 9 |
| SqlFunctionsText.SentenceSecondCh | core/src/test/java/org/apache/calcite/test/SqlFunctionsTest.java:1123-1127 | the next `ch` is at index 19 |
| SqlFunctionsText.SentenceNoCc | core/src/test/java/org/apache/calcite/test/SqlFunctionsTest.java:1123-1127 | the sample sentence has no `cc` |
| SqlFunctionsText.LoweredSentence | core/src/test/java/org/apache/calcite/test/SqlFunctionsTest.java:1129-1134 | the sample sentence lower-cased |
| SqlFunctionsText.LoweredSentenceCh | core/src/test/java/org/apache/calcite/test/SqlFunctionsTest.java:1129-1134 | lower-cased, the sentence starts with `ch` and has the next one at index 9 |
| SqlFunctionsText.LoweredSentenceNoXy | core/src/test/java/org/apache/calcite/test/SqlFunctionsTest.java:1129-1134 | the lower-cased sentence has no `xy` |
| SqlFunctionsText.InstrFixtures | core/src/test/java/org/apache/calcite/test/SqlFunctionsTest.java:1123-1127 | INSTR of the sample sentence: 20 for the second `ch` from 2, 0 for `cc` |
| SqlFunctionsText.CharindexFixtures | core/src/test/java/org/apache/calcite/test/SqlFunctionsTest.java:1129-1134 | CHARINDEX gives 0 for `xy`, 1 for `ch` from 1, and 10 for `ch` from 2 |
| SqlFunctionsNumeric.Floor | core/src/test/java/org/apache/calcite/test/SqlFunctionsTest.java:338-354 | FLOOR(x, y) is a multiple of y at most x, with x less than the next multiple |
| SqlFunctionsNumeric.Ceil | core/src/test/java/org/apache/calcite/test/SqlFunctionsTest.java:356-373 | CEIL(x, y) is a multiple of y at least x, with x above the previous multiple |
| SqlFunctionsNumeric.FloorCeilAreNearest | core/src/test/java/org/apache/calcite/test/SqlFunctionsTest.java:338-373 | no multiple lies strictly between FLOOR and x, or between x and CEIL |
| SqlFunctionsNumeric.MultiplesApart | core/src/test/java/org/apache/calcite/test/SqlFunctionsTest.java:338-373 | two different multiples of y are at least y apart |
| SqlFunctionsNumeric.NegatedMultiple | core/src/test/java/org/apache/calcite/test/SqlFunctionsTest.java:338-373 | the negation of a multiple is a multiple |
| SqlFunctionsNumeric.CeilMirrorsFloor | core/src/test/java/org/apache/calcite/test/SqlFunctionsTest.java:338-373 | CEIL(x, y) is -FLOOR(-x, y) |
| SqlFunctionsNumeric.CeilAboveFloor | core/src/test/java/org/apache/calcite/test/SqlFunctionsTest.java:338-373 | FLOOR and CEIL agree exactly on multiples and are y apart otherwise |
| SqlFunctionsNumeric.FloorFixtures | core/src/test/java/org/apache/calcite/test/SqlFunctionsTest.java:338-354 | FLOOR of 0, 27, 30, -30 and -27 to tens |
| SqlFunctionsNumeric.CeilFixtures | core/src/test/java/org/apache/calcite/test/SqlFunctionsTest.java:356-373 | CEIL of 0, 27, 30, -30 and -27 to tens, and -27 to ones |
| SqlFunctionsNumeric.Truncate | core/src/test/java/org/apache/calcite/test/SqlFunctionsTest.java:392-413 | TRUNCATE(x, m) is the multiple of m at or just below x, rounding towards negative infinity |
| SqlFunctionsNumeric.Round | core/src/test/java/org/apache/calcite/test/SqlFunctionsTest.java:415-418 | ROUND(x, m) is a multiple of m |
| SqlFunctionsNumeric.RoundIsNearest | core/src/test/java/org/apache/calcite/test/SqlFunctionsTest.java:415-418 | no multiple is closer to x than ROUND(x, m), and on a tie ROUND takes the upper one |
| SqlFunctionsNumeric.TruncateFixtures | core/src/test/java/org/apache/calcite/test/SqlFunctionsTest.java:392-413 | the eight TRUNCATE cases to thousands, negatives included |
| SqlFunctionsNumeric.RoundFixtures | core/src/test/java/org/apache/calcite/test/SqlFunctionsTest.java:415-418 | the four ROUND cases to thousands |
| SqlFunctionsCompare.StringCompare | core/src/test/java/org/apache/calcite/test/SqlFunctionsTest.java:375-390 | the sign of a string comparison is -1, 0 or 1 |
| SqlFunctionsCompare.StringCompareAntisymmetric | core/src/test/java/org/apache/calcite/test/SqlFunctionsTest.java:375-390 | swapping the strings negates the comparison |
| SqlFunctionsCompare.StringCompareZeroIffEqual | core/src/test/java/org/apache/calcite/test/SqlFunctionsTest.java:375-390 | the comparison is 0 exactly for equal strings |
| SqlFunctionsCompare.StringCompareTransitive | core/src/test/java/org/apache/calcite/test/SqlFunctionsTest.java:375-390 | sorting before is transitive |
| SqlFunctionsCompare.ListCompare | core/src/test/java/org/apache/calcite/test/SqlFunctionsTest.java:375-390 | the comparison of two lists is -1, 0 or 1 |
| SqlFunctionsCompare.ListCompareAntisymmetric | core/src/test/java/org/apache/calcite/test/SqlFunctionsTest.java:375-390 | swapping the lists negates the comparison |
| SqlFunctionsCompare.ListCompareZeroIffEqual | core/src/test/java/org/apache/calcite/test/SqlFunctionsTest.java:375-390 | the comparison is 0 exactly for equal lists |
| SqlFunctionsCompare.ProperPrefixSortsFirst | core/src/test/java/org/apache/calcite/test/SqlFunctionsTest.java:375-390 | a proper prefix sorts first |
| SqlFunctionsCompare.CompareFixtures | core/src/test/java/org/apache/calcite/test/SqlFunctionsTest.java:375-390 | the seven list comparisons of the test |
| SqlFunctionsCompare.NvlFirstNonNull | core/src/test/java/org/apache/calcite/test/SqlFunctionsTest.java:986-993 | NVL is null only when both arguments are, keeps a non-null first argument, and chains as "first non-null" |
| SqlFunctionsCompare.Nvl | core/src/test/java/org/apache/calcite/test/SqlFunctionsTest.java:986-993 | the first argument when it is not null, otherwise the second; stated by SqlFunctionsCompare.NvlFirstNonNull |
| SqlFunctionsCompare.IfNull | core/src/test/java/org/apache/calcite/test/SqlFunctionsTest.java:995-1002 | another name of NVL, with the cases of SqlFunctionsCompare.NvlFixtures |
| SqlFunctionsCompare.IsNull | core/src/test/java/org/apache/calcite/test/SqlFunctionsTest.java:1004-1011 | another name of NVL, with the cases of SqlFunctionsCompare.NvlFixtures |
| SqlFunctionsCompare.NvlFixtures | core/src/test/java/org/apache/calcite/test/SqlFunctionsTest.java:986-1011 | the NVL, IFNULL and ISNULL cases of the test |
| SqlFunctionsCompare.Lesser | core/src/test/java/org/apache/calcite/test/SqlFunctionsTest.java:236-247 | LESSER fails exactly when only the second argument is null |
| SqlFunctionsCompare.Greater | core/src/test/java/org/apache/calcite/test/SqlFunctionsTest.java:249-260 | GREATER fails exactly when only the second argument is null |
| SqlFunctionsCompare.LesserIsMinimum | core/src/test/java/org/apache/calcite/test/SqlFunctionsTest.java:236-247 | on two strings LESSER is one of them, sorting no later than either |
| SqlFunctionsCompare.GreaterIsMaximum | core/src/test/java/org/apache/calcite/test/SqlFunctionsTest.java:249-260 | on two strings GREATER is one of them, sorting no earlier than either |
| SqlFunctionsCompare.LesserGreaterSplit | core/src/test/java/org/apache/calcite/test/SqlFunctionsTest.java:236-260 | LESSER and GREATER of two strings are those two strings |
| SqlFunctionsCompare.LesserGreaterNullFirst | core/src/test/java/org/apache/calcite/test/SqlFunctionsTest.java:236-260 | a null first argument gives the second |
| SqlFunctionsCompare.LesserGreaterFixtures | core/src/test/java/org/apache/calcite/test/SqlFunctionsTest.java:236-260 | the LESSER and GREATER cases of the test, the null-pointer failures included |
| SqlFunctionsMultiset.SubsequenceReflexive | core/src/test/java/org/apache/calcite/test/SqlFunctionsTest.java:905-956 | every list is a subsequence of itself |
| SqlFunctionsMultiset.SubsequenceTransitive | core/src/test/java/org/apache/calcite/test/SqlFunctionsTest.java:905-956 | a subsequence of a subsequence is a subsequence |
| SqlFunctionsMultiset.UnionAll | core/src/test/java/org/apache/calcite/test/SqlFunctionsTest.java:905-956 | UNION ALL is a followed by b: the multiset sum, in order |
| SqlFunctionsMultiset.RemoveFirst | core/src/test/java/org/apache/calcite/test/SqlFunctionsTest.java:905-956 | the list without its first copy of e; stated by SqlFunctionsMultiset.RemoveFirstMeaning |
| SqlFunctionsMultiset.ExceptAll | core/src/test/java/org/apache/calcite/test/SqlFunctionsTest.java:905-956 | EXCEPT ALL; stated by SqlFunctionsMultiset.ExceptAllMeaning |
| SqlFunctionsMultiset.IntersectAll | core/src/test/java/org/apache/calcite/test/SqlFunctionsTest.java:905-956 | INTERSECT ALL; stated by SqlFunctionsMultiset.IntersectAllMeaning |
| SqlFunctionsMultiset.RemoveFirstMeaning | core/src/test/java/org/apache/calcite/test/SqlFunctionsTest.java:905-956 | removing e takes away one copy of e, keeps the rest in order, and changes nothing when e is absent |
| SqlFunctionsMultiset.ExceptAllMeaning | core/src/test/java/org/apache/calcite/test/SqlFunctionsTest.java:905-956 | EXCEPT ALL is the multiset difference, in the order of a |
| SqlFunctionsMultiset.IntersectAllMeaning | core/src/test/java/org/apache/calcite/test/SqlFunctionsTest.java:905-956 | INTERSECT ALL is the multiset intersection, in the order of a |
| SqlFunctionsMultiset.IntersectStep | core/src/test/java/org/apache/calcite/test/SqlFunctionsTest.java:905-956 | matching a's first element with one copy in b is the first step of the multiset intersection |
| SqlFunctionsMultiset.UnionDistinct | core/src/test/java/org/apache/calcite/test/SqlFunctionsTest.java:905-956 | UNION DISTINCT is the set of elements of UNION ALL |
| SqlFunctionsMultiset.ExceptDistinct | core/src/test/java/org/apache/calcite/test/SqlFunctionsTest.java:905-956 | EXCEPT DISTINCT is the set of elements of EXCEPT ALL that b does not have |
| SqlFunctionsMultiset.IntersectDistinct | core/src/test/java/org/apache/calcite/test/SqlFunctionsTest.java:905-956 | INTERSECT DISTINCT is the set of elements of INTERSECT ALL |
| SqlFunctionsMultiset.ExceptDistinctInExceptAll | core/src/test/java/org/apache/calcite/test/SqlFunctionsTest.java:905-956 | among the elements b lacks, EXCEPT ALL keeps exactly those of a |
| SqlFunctionsMultiset.IntersectDistinctIsIntersectAll | core/src/test/java/org/apache/calcite/test/SqlFunctionsTest.java:905-956 | an element is in INTERSECT ALL exactly when both lists have it |
| SqlFunctionsMultiset.EmptySides | core/src/test/java/org/apache/calcite/test/SqlFunctionsTest.java:905-956 | with an empty side, each operator gives the other side or nothing |
| SqlFunctionsMultiset.UnionAllFixture | core/src/test/java/org/apache/calcite/test/SqlFunctionsTest.java:905-956 | the UNION ALL case of the test |
| SqlFunctionsMultiset.ExceptAllFixture | core/src/test/java/org/apache/calcite/test/SqlFunctionsTest.java:905-956 | the EXCEPT ALL case of the test |
| SqlFunctionsMultiset.IntersectAllFixture1 | core/src/test/java/org/apache/calcite/test/SqlFunctionsTest.java:905-956 | the first INTERSECT ALL case |
| SqlFunctionsMultiset.IntersectAllFixture2 | core/src/test/java/org/apache/calcite/test/SqlFunctionsTest.java:905-956 | INTERSECT ALL keeps repeated elements as often as both sides have them |
| SqlFunctionsMultiset.IntersectAllFixture3 | core/src/test/java/org/apache/calcite/test/SqlFunctionsTest.java:905-956 | the same with the sides swapped |
| SqlFunctionsMultiset.ExceptDistinctFixture1 | core/src/test/java/org/apache/calcite/test/SqlFunctionsTest.java:905-956 | the EXCEPT DISTINCT case of the test |
| SqlFunctionsMultiset.ExceptDistinctFixture2 | core/src/test/java/org/apache/calcite/test/SqlFunctionsTest.java:905-956 | EXCEPT DISTINCT with an empty right side |
| SqlFunctionsMultiset.IntersectDistinctFixture1 | core/src/test/java/org/apache/calcite/test/SqlFunctionsTest.java:905-956 | the first INTERSECT DISTINCT case |
| SqlFunctionsMultiset.IntersectDistinctFixture2 | core/src/test/java/org/apache/calcite/test/SqlFunctionsTest.java:905-956 | INTERSECT DISTINCT with repeated elements |
| SqlFunctionsMultiset.IntersectDistinctFixture3 | core/src/test/java/org/apache/calcite/test/SqlFunctionsTest.java:905-956 | the same with the sides swapped |
| SqlFunctionsMultiset.UnionDistinctFixture1 | core/src/test/java/org/apache/calcite/test/SqlFunctionsTest.java:905-956 | the UNION DISTINCT case of the test |
| SqlFunctionsMultiset.UnionDistinctFixture2 | core/src/test/java/org/apache/calcite/test/SqlFunctionsTest.java:905-956 | UNION DISTINCT with an empty right side |
| SqlFunctionsMultiset.UnionDistinctFixture3 | core/src/test/java/org/apache/calcite/test/SqlFunctionsTest.java:905-956 | UNION DISTINCT with an empty left side |

## Left out

- The runtime class that the `SqlFunctionsTest` suite exercises is not part of this model. Its functions are defined here from the behaviour the tests assert, and from the names' SQL meaning.
- Java's integer widths are not modelled. Every integer is unbounded, so overflow in `int`, `long`, `short` or `byte` arithmetic is not modelled, and neither is `BigDecimal`. The test's FLOOR, CEIL, TRUNCATE and ROUND over the other integer types and over decimals are the same function here.
- SqlFunctionsNumeric.Floor, SqlFunctionsNumeric.Ceil, SqlFunctionsNumeric.Truncate and SqlFunctionsNumeric.Round require a positive divisor. The tests use only positive ones, and the behaviour for zero or negative divisors is not shown.
- SqlFunctionsText.Instr and SqlFunctionsText.Charindex require a start and an occurrence of at least 1. The test's calls all meet this, and the behaviour for other values is not shown.
- SqlFunctionsText.LPad and SqlFunctionsText.RPad require a non-empty pad string and take the target length as a `nat`. The behaviour for an empty pad or a negative length is not shown.
- The runtime functions' case handling covers ASCII letters only. Unicode case mapping is not modelled.
- SqlFunctionsCompare.StringCompare and SqlFunctionsCompare.ListCompare give only the sign of Java's `compareTo`, not its magnitude. The tests compare lists, whose result is the sign.
- The `nvl(substring(…))` cases of the NVL test are not modelled. They depend on SUBSTRING, which is not one of the modelled functions.
- SqlFunctionsMultiset.UnionDistinct, SqlFunctionsMultiset.ExceptDistinct and SqlFunctionsMultiset.IntersectDistinct return sets. The source returns a list whose order follows a hash set's iteration order, which is unspecified.
- The float, date, cryptographic-hash and other runtime functions that the test file also covers are not part of the modelled core.
- Delegation to the base dialect is an `Err(Delegated(…))` result. This covers `super.unparseCall` for TO_NUMBER without custom unparsing, FORMAT after `FormatFunctionUtil`, DIVIDE_INTEGER's `unparseDivideInteger`, the DateTimestampFormatUtil names, and `SqlWindow.unparse` for a window with an ORDER BY. `ToNumberUtils`, `FormatFunctionUtil`, `DateTimestampFormatUtil`, `SqlWindow` and `unparseDivideInteger` are not part of this model. The DateTimestampFormatUtil names are matched by taking each constant's string value to be its own Java name, since the constants' values are not part of this model.
- The generic base layout is modelled for calls with a function, binary, prefix or postfix syntax only. Precedence parentheses and the `leftPrec`/`rightPrec` arguments are not modelled.
- The writer keeps tokens only. Spacing, line breaks, keyword case and the rest of `SqlPrettyWriter`'s formatting are not modelled.
- A Snowflake ORDER BY list is rendered as its keys, since ORDER BY items with directions are not nodes of this tree.
- `getTargetFunc` for a non-DATE call returns the generic choice as `BaseTargetFunc`. The base class's own choice is not modelled.
- The routing of DATE_ADD and DATE_SUB calls to `unparseIntervalOperandsBasedFunctions` happens in the base class and is not modelled. That method is an entry point of its own here.
- `SqlNtileAggFunction` is not part of this model.
- The Teradata dialect is modelled only by its profile constants.
- Snowflake.TrimCharsValue: an interval or flag literal as TRIM's characters operand gives `Err(Delegated("SqlLiteral.toValue"))`, because the text Java's `toValue()` produces for those literal types is not modelled.

## Notes on the source

- In the TIMES path of a date-plus-interval call (`unparseExpressionIntervalCall`), the interval's sign is not consulted. `"d" + x * INTERVAL -'2' DAY` is written with `* 2`, and the model keeps this as written.
- BigQuery's `UNION_DISTINCT` operator is declared with `all = true`, although its name says DISTINCT. The model records it as declared: its name, kind, precedence and `all = true`. The flag does not change the printed text.
- BigQuery's POSITION refuses exactly three operands. Operands after the second are dropped when there are four or more, and the model does the same.
- `getTargetFunctionForDateOperations` reads operand 1 of a DATE call without checking that it exists. The model makes such a call an error.
- `unparseTrim` asserts that operand 0 is a literal, and then casts it and operand 1 to a trim flag and a literal. The model turns each failed cast or assertion into an error result.
