/** The runtime string functions: space trimming, padding, INITCAP and 1-based
    substring search. Characters are UTF-16 code units as Java sees them; only the
    ASCII letters have a case here. */
module SqlFunctionsText {

  // ---------------------------------------------------------------------------
  // Trimming

  /** The first index at or after `i`, and before `j`, that does not hold `c`
      (`j` when there is none). */
  function LeadingFrom(s: string, c: char, i: nat, j: nat): (r: nat)
    requires i <= j <= |s|
    ensures i <= r <= j
    ensures forall k :: i <= k < r ==> s[k] == c
    ensures r < j ==> s[r] != c
    decreases j - i
  {
    if i == j || s[i] != c then i else LeadingFrom(s, c, i + 1, j)
  }

  /** The end of `s[..j]` once the copies of `c` it ends with are cut off. */
  function TrailingTo(s: string, c: char, j: nat): (r: nat)
    requires j <= |s|
    ensures r <= j
    ensures forall k :: r <= k < j ==> s[k] == c
    ensures 0 < r ==> s[r - 1] != c
  {
    if j == 0 || s[j - 1] != c then j else TrailingTo(s, c, j - 1)
  }

  /** TRIM of the character `c` from the left end, the right end, or both: the
      result is the slice of `s` that is left. */
  function Trim(left: bool, right: bool, c: char, s: string): (r: string)
    ensures |r| <= |s|
  {
    var j := if right then TrailingTo(s, c, |s|) else |s|;
    var i := if left then LeadingFrom(s, c, 0, j) else 0;
    s[i..j]
  }

  function LTrim(s: string): string
  {
    Trim(true, false, ' ', s)
  }

  function RTrim(s: string): string
  {
    Trim(false, true, ' ', s)
  }

  function TrimBoth(s: string): string
  {
    Trim(true, true, ' ', s)
  }

  /** What trimming keeps: one contiguous slice of the input, everything cut off
      being `c`, and no `c` left at an end that was trimmed. A string of nothing
      but `c` trims to the empty string. */
  lemma TrimKeepsSlice(left: bool, right: bool, c: char, s: string)
    ensures var r := Trim(left, right, c, s);
      exists i, j :: 0 <= i <= j <= |s| && r == s[i..j]
        && (forall k :: 0 <= k < i ==> s[k] == c)
        && (forall k :: j <= k < |s| ==> s[k] == c)
        && (!left ==> i == 0) && (!right ==> j == |s|)
    ensures var r := Trim(left, right, c, s);
      && (left && r != [] ==> r[0] != c)
      && (right && r != [] ==> r[|r| - 1] != c)
    ensures (left || right) && (forall k :: 0 <= k < |s| ==> s[k] == c) ==> Trim(left, right, c, s) == []
  {
    var j := if right then TrailingTo(s, c, |s|) else |s|;
    var i := if left then LeadingFrom(s, c, 0, j) else 0;
    assert Trim(left, right, c, s) == s[i..j];
  }

  /** A string with no `c` at the ends to be trimmed is left as it is. */
  lemma TrimNoEnds(left: bool, right: bool, c: char, r: string)
    requires left && r != [] ==> r[0] != c
    requires right && r != [] ==> r[|r| - 1] != c
    ensures Trim(left, right, c, r) == r
  {
    var j := if right then TrailingTo(r, c, |r|) else |r|;
    assert j == |r|;
    assert r[0..j] == r;
  }

  /** Trimming twice is trimming once. */
  lemma TrimIdempotent(left: bool, right: bool, c: char, s: string)
    ensures Trim(left, right, c, Trim(left, right, c, s)) == Trim(left, right, c, s)
  {
    TrimKeepsSlice(left, right, c, s);
    TrimNoEnds(left, right, c, Trim(left, right, c, s));
  }

  /** RTRIM is the input up to the end of its last non-space character. */
  lemma RTrimIsPrefix(s: string, j: nat)
    requires j <= |s|
    requires forall k :: j <= k < |s| ==> s[k] == ' '
    requires 0 < j ==> s[j - 1] != ' '
    ensures RTrim(s) == s[..j]
  {
  }

  /** LTRIM is the input from its first non-space character on. */
  lemma LTrimIsSuffix(s: string, i: nat)
    requires i <= |s|
    requires forall k :: 0 <= k < i ==> s[k] == ' '
    requires i < |s| ==> s[i] != ' '
    ensures LTrim(s) == s[i..]
  {
  }

  /** TRIM(BOTH ' ') is the slice from the first to the last non-space character;
      a string of spaces only trims to the empty string. */
  lemma TrimBothIsSlice(s: string, i: nat, j: nat)
    requires i <= j <= |s|
    requires forall k :: 0 <= k < i ==> s[k] == ' '
    requires forall k :: j <= k < |s| ==> s[k] == ' '
    requires i < j ==> s[i] != ' ' && s[j - 1] != ' '
    ensures TrimBoth(s) == s[i..j]
  {
  }

  /** The empty string trims to itself. */
  lemma TrimFixtureEmpty()
    ensures RTrim("") == "" && LTrim("") == "" && TrimBoth("") == ""
  {
    RTrimIsPrefix("", 0);
    LTrimIsSuffix("", 0);
    TrimBothIsSlice("", 0, 0);
    assert ""[..0] == "";
    assert ""[0..] == "";
    assert ""[0..0] == "";
  }

  /** A string of spaces only trims to the empty string. */
  lemma TrimFixtureAllSpaces()
    ensures RTrim("    ") == "" && LTrim("    ") == "" && TrimBoth("    ") == ""
  {
    RTrimIsPrefix("    ", 0);
    LTrimIsSuffix("    ", 4);
    TrimBothIsSlice("    ", 0, 0);
    assert "    "[..0] == "";
    assert "    "[4..] == "";
    assert "    "[0..0] == "";
  }

  /** Spaces on both sides. */
  lemma TrimFixturePadded()
    ensures RTrim("   x  ") == "   x" && LTrim("   x  ") == "x  " && TrimBoth("   x  ") == "x"
  {
    RTrimIsPrefix("   x  ", 4);
    LTrimIsSuffix("   x  ", 3);
    TrimBothIsSlice("   x  ", 3, 4);
    assert "   x  "[..4] == "   x";
    assert "   x  "[3..] == "x  ";
    assert "   x  "[3..4] == "x";
  }

  /** A single trailing space. */
  lemma TrimFixtureOneTrailing()
    ensures RTrim("   x ") == "   x" && LTrim("   x ") == "x " && TrimBoth("   x ") == "x"
  {
    RTrimIsPrefix("   x ", 4);
    LTrimIsSuffix("   x ", 3);
    TrimBothIsSlice("   x ", 3, 4);
    assert "   x "[..4] == "   x";
    assert "   x "[3..] == "x ";
    assert "   x "[3..4] == "x";
  }

  /** An inner space is kept. */
  lemma TrimFixtureInnerSpace()
    ensures RTrim("   x y ") == "   x y" && LTrim("   x y ") == "x y " && TrimBoth("   x y ") == "x y"
  {
    RTrimIsPrefix("   x y ", 6);
    LTrimIsSuffix("   x y ", 3);
    TrimBothIsSlice("   x y ", 3, 6);
    assert "   x y "[..6] == "   x y";
    assert "   x y "[3..] == "x y ";
    assert "   x y "[3..6] == "x y";
  }

  /** Leading spaces only. */
  lemma TrimFixtureLeadingOnly()
    ensures RTrim("   x") == "   x" && LTrim("   x") == "x" && TrimBoth("   x") == "x"
  {
    RTrimIsPrefix("   x", 4);
    LTrimIsSuffix("   x", 3);
    TrimBothIsSlice("   x", 3, 4);
    assert "   x"[..4] == "   x";
    assert "   x"[3..] == "x";
    assert "   x"[3..4] == "x";
  }

  /** Nothing to trim. */
  lemma TrimFixtureBare()
    ensures RTrim("x") == "x" && LTrim("x") == "x" && TrimBoth("x") == "x"
  {
    RTrimIsPrefix("x", 1);
    LTrimIsSuffix("x", 0);
    TrimBothIsSlice("x", 0, 1);
    assert "x"[..1] == "x";
    assert "x"[0..] == "x";
    assert "x"[0..1] == "x";
  }

  /** LTRIM leaves trailing spaces alone. */
  lemma TrimFixtureTrailingKept()
    ensures LTrim("x y ") == "x y "
  {
    LTrimIsSuffix("x y ", 0);
    assert "x y "[0..] == "x y ";
  }

  // ---------------------------------------------------------------------------
  // Padding

  /** `pad` repeated and cut to `n` characters. */
  function Fill(pad: string, n: nat): (f: string)
    requires |pad| > 0
    ensures |f| == n
    ensures forall k :: 0 <= k < n ==> f[k] == pad[k % |pad|]
    decreases n
  {
    if n == 0 then []
    else
      var f := Fill(pad, n - 1);
      assert forall k :: 0 <= k < n - 1 ==> (f + [pad[(n - 1) % |pad|]])[k] == f[k];
      f + [pad[(n - 1) % |pad|]]
  }

  /** LPAD: exactly `n` characters, the input cut to its first `n` when it is that
      long, otherwise the fill in front of it. */
  function LPad(s: string, n: nat, pad: string): (r: string)
    requires |pad| > 0
    ensures |r| == n
    ensures |s| >= n ==> r == s[..n]
    ensures |s| < n ==> r[n - |s|..] == s && r[..n - |s|] == Fill(pad, n - |s|)
  {
    if |s| >= n then s[..n] else Fill(pad, n - |s|) + s
  }

  /** RPAD: the same, with the fill after the input. */
  function RPad(s: string, n: nat, pad: string): (r: string)
    requires |pad| > 0
    ensures |r| == n
    ensures |s| >= n ==> r == s[..n]
    ensures |s| < n ==> r[..|s|] == s && r[|s|..] == Fill(pad, n - |s|)
  {
    if |s| >= n then s[..n] else s + Fill(pad, n - |s|)
  }

  /** The default fill is a space. */
  function LPadSpace(s: string, n: nat): string
  {
    LPad(s, n, " ")
  }

  function RPadSpace(s: string, n: nat): string
  {
    RPad(s, n, " ")
  }

  /** Padding to the input's own length, or less, gives a prefix; padding is undone
      by dropping the fill. */
  lemma PadRoundTrip(s: string, n: nat, pad: string)
    requires |pad| > 0 && n >= |s|
    ensures LPad(s, n, pad)[n - |s|..] == s
    ensures RPad(s, n, pad)[..|s|] == s
    ensures LPad(s, |s|, pad) == s && RPad(s, |s|, pad) == s
  {
    assert s[..|s|] == s;
  }

  /** Padding with a single character, the space included. */
  lemma PadFixturesOneChar()
    ensures LPad("123", 6, "%") == "%%%123" && RPad("123", 6, "%") == "123%%%"
    ensures LPadSpace("123", 6) == "   123" && RPadSpace("123", 6) == "123   "
  {
    assert Fill("%", 3) == "%%%";
    assert Fill(" ", 3) == "   ";
  }

  /** A pad string that fits exactly. */
  lemma PadFixturesWhole()
    ensures LPad("123", 6, "456") == "456123" && RPad("123", 6, "456") == "123456"
  {
    assert Fill("456", 3) == "456";
  }

  /** Padding to less than the input's length cuts the input down. */
  lemma PadFixturesShorter()
    ensures LPad("pilot", 4, "auto") == "pilo" && RPad("pilot", 4, "auto") == "pilo"
  {
  }

  /** Padding with a longer pad string. */
  lemma PadFixturesLonger()
    ensures LPad("pilot", 9, "auto") == "autopilot" && RPad("auto", 9, "pilot") == "autopilot"
  {
    assert Fill("auto", 4) == "auto";
    assert Fill("pilot", 5) == "pilot";
  }

  // ---------------------------------------------------------------------------
  // INITCAP

  /** An ASCII letter: the only characters with a case here. */
  predicate IsLetter(ch: char)
  {
    'A' <= ch <= 'Z' || 'a' <= ch <= 'z'
  }

  /** Letters and digits make up words; every other character separates them. */
  predicate IsWordChar(ch: char)
  {
    '0' <= ch <= '9' || 'A' <= ch <= 'Z' || 'a' <= ch <= 'z'
  }

  function ToUpper(ch: char): char
  {
    if 'a' <= ch <= 'z' then (ch as int - 32) as char else ch
  }

  function ToLower(ch: char): char
  {
    if 'A' <= ch <= 'Z' then (ch as int + 32) as char else ch
  }

  /** Whether position `i` starts a word: the first character, or one after a
      separator. */
  predicate StartsWord(s: string, i: nat)
    requires i < |s|
  {
    i == 0 || !IsWordChar(s[i - 1])
  }

  /** INITCAP: each word's first letter upper-cased, every other letter lower-cased,
      digits and separators unchanged. It scans left to right from `from`; the part
      of `s` before `from` only tells whether `s[from]` starts a word. */
  function Initcap(s: string, from: nat := 0): (r: string)
    requires from <= |s|
    ensures |r| == |s| - from
    decreases |s| - from
  {
    if from == |s| then []
    else [if StartsWord(s, from) then ToUpper(s[from]) else ToLower(s[from])] + Initcap(s, from + 1)
  }

  /** Each character of the scan's result depends only on that character and the
      one before it. */
  lemma {:induction false} InitcapFromAt(s: string, from: nat, k: nat)
    requires from <= k < |s|
    ensures Initcap(s, from)[k - from] == if StartsWord(s, k) then ToUpper(s[k]) else ToLower(s[k])
    decreases k - from
  {
    if k > from {
      InitcapFromAt(s, from + 1, k);
    }
  }

  /** The character-by-character meaning of INITCAP. */
  lemma InitcapByCharacter(s: string, i: nat)
    requires i < |s|
    ensures |Initcap(s)| == |s|
    ensures StartsWord(s, i) ==> Initcap(s)[i] == ToUpper(s[i])
    ensures !StartsWord(s, i) ==> Initcap(s)[i] == ToLower(s[i])
  {
    InitcapFromAt(s, 0, i);
  }

  /** INITCAP leaves every character that is not a letter as it is. */
  lemma InitcapKeepsNonLetters(s: string, i: nat)
    requires i < |s| && !IsLetter(s[i])
    ensures Initcap(s)[i] == s[i]
  {
    InitcapByCharacter(s, i);
  }

  /** A separator ends a word: what follows it is capitalised on its own. */
  lemma InitcapAfterSeparator(p: string, q: string)
    requires p != [] && !IsWordChar(p[|p| - 1])
    ensures Initcap(p + q) == Initcap(p) + Initcap(q)
  {
    InitcapSplit(p, q, 0);
    InitcapShift(p, q, 0);
  }

  /** Up to the end of `p`, the scan over `p + q` is the scan over `p`. */
  lemma {:induction false} InitcapSplit(p: string, q: string, from: nat)
    requires from <= |p|
    ensures Initcap(p + q, from) == Initcap(p, from) + Initcap(p + q, |p|)
    decreases |p| - from
  {
    if from < |p| {
      InitcapSplit(p, q, from + 1);
      assert (p + q)[from] == p[from];
      assert from > 0 ==> (p + q)[from - 1] == p[from - 1];
    }
  }

  /** After a separator, the scan over `p + q` from `|p| + j` is the scan over `q`
      from `j`. */
  lemma {:induction false} InitcapShift(p: string, q: string, j: nat)
    requires p != [] && !IsWordChar(p[|p| - 1]) && j <= |q|
    ensures Initcap(p + q, |p| + j) == Initcap(q, j)
    decreases |q| - j
  {
    if j < |q| {
      InitcapShift(p, q, j + 1);
      assert (p + q)[|p| + j] == q[j];
      assert (p + q)[|p| + j - 1] == if j == 0 then p[|p| - 1] else q[j - 1];
    }
  }

  /** Letters are case-folded by position in the word. */
  lemma InitcapLetterFixtures()
    ensures Initcap("aA") == "Aa" && Initcap("zz") == "Zz" && Initcap("AZ") == "Az"
  {
  }

  /** Spaces separate words and are kept, trailing ones included. */
  lemma InitcapSpaceFixture()
    ensures Initcap("tRy a littlE  ") == "Try A Little  "
  {
    assert "tRy a littlE  " == "tRy " + ("a " + "littlE  ");
    InitcapAfterSeparator("a ", "littlE  ");
    InitcapAfterSeparator("tRy ", "a " + "littlE  ");
    assert Initcap("tRy ") == "Try " && Initcap("a ") == "A ";
    assert Initcap("littlE  ") == "Little  ";
    assert "Try " + ("A " + "Little  ") == "Try A Little  ";
  }

  /** An apostrophe or a question mark starts a new word too. */
  lemma InitcapPunctuationFixture()
    ensures Initcap("won't it?no") == "Won'T It?No"
  {
    assert "won't it?no" == "won'" + ("t " + ("it?" + "no"));
    InitcapAfterSeparator("it?", "no");
    InitcapAfterSeparator("t ", "it?" + "no");
    InitcapAfterSeparator("won'", "t " + ("it?" + "no"));
    assert Initcap("won'") == "Won'" && Initcap("t ") == "T ";
    assert Initcap("it?") == "It?" && Initcap("no") == "No";
    assert "Won'" + ("T " + ("It?" + "No")) == "Won'T It?No";
  }

  /** Digits belong to the word: the letter after one is lower-cased. */
  lemma InitcapDigitFixtures()
    ensures Initcap("1A") == "1a"
    ensures Initcap(" b0123B") == " B0123b"
  {
  }

  // ---------------------------------------------------------------------------
  // Substring search

  /** Whether `sub[j..]` matches `s` from the index `k + j` on. */
  predicate MatchesFrom(s: string, sub: string, k: nat, j: nat)
    decreases |sub| - j
  {
    j >= |sub| || (k + j < |s| && s[k + j] == sub[j] && MatchesFrom(s, sub, k, j + 1))
  }

  /** Whether `sub` occurs in `s` at the 0-based index `k`. */
  predicate OccursAt(s: string, sub: string, k: nat)
  {
    MatchesFrom(s, sub, k, 0)
  }

  /** Matching character by character is matching the slice. */
  lemma {:induction false} MatchesFromSlice(s: string, sub: string, k: nat, j: nat)
    requires j <= |sub| && k + j <= |s|
    ensures MatchesFrom(s, sub, k, j) <==> k + |sub| <= |s| && s[k + j..k + |sub|] == sub[j..]
    decreases |sub| - j
  {
    if j < |sub| && k + j < |s| {
      MatchesFromSlice(s, sub, k, j + 1);
      if k + |sub| <= |s| {
        assert s[k + j..k + |sub|] == [s[k + j]] + s[k + j + 1..k + |sub|];
        assert sub[j..] == [sub[j]] + sub[j + 1..];
      }
    }
  }

  lemma OccursAtSlice(s: string, sub: string, k: nat)
    requires k <= |s|
    ensures OccursAt(s, sub, k) <==> k + |sub| <= |s| && s[k..k + |sub|] == sub
  {
    MatchesFromSlice(s, sub, k, 0);
  }

  /** The 0-based index of the first occurrence of `sub` at or after `from`, or -1. */
  function IndexOf(s: string, sub: string, from: nat): (r: int)
    ensures r == -1 || from <= r <= |s|
    decreases |s| + 1 - from
  {
    if from > |s| then -1
    else if OccursAt(s, sub, from) then from
    else IndexOf(s, sub, from + 1)
  }

  /** IndexOf finds an occurrence, and none is skipped on the way to it; -1 means
      there is none at all from `from` on. */
  lemma {:induction false} IndexOfIsFirst(s: string, sub: string, from: nat)
    ensures var r := IndexOf(s, sub, from);
      && (r != -1 ==> OccursAt(s, sub, r))
      && (r == -1 ==> forall k :: from <= k <= |s| ==> !OccursAt(s, sub, k))
      && (r != -1 ==> forall k :: from <= k < r ==> !OccursAt(s, sub, k))
    decreases |s| + 1 - from
  {
    if from <= |s| && !OccursAt(s, sub, from) {
      IndexOfIsFirst(s, sub, from + 1);
    }
  }

  /** INSTR(s, sub, start, occurrence): the 1-based position of the occurrence-th
      match of `sub` starting at or after position `start`, 0 when there are fewer. */
  function Instr(s: string, sub: string, start: nat, occurrence: nat): (r: nat)
    requires start >= 1 && occurrence >= 1
    ensures r != 0 ==> start <= r <= |s| + 1 && OccursAt(s, sub, r - 1)
    decreases occurrence
  {
    var k := IndexOf(s, sub, start - 1);
    IndexOfIsFirst(s, sub, start - 1);
    if k == -1 then 0
    else if occurrence == 1 then k + 1
    else Instr(s, sub, k + 2, occurrence - 1)
  }

  /** The first occurrence found by INSTR is the leftmost one from `start`. */
  lemma InstrFirstIsLeftmost(s: string, sub: string, start: nat)
    requires start >= 1
    ensures var r := Instr(s, sub, start, 1);
      && (r == 0 <==> forall k :: start - 1 <= k <= |s| ==> !OccursAt(s, sub, k))
      && (r != 0 ==> forall k :: start - 1 <= k < r - 1 ==> !OccursAt(s, sub, k))
  {
    IndexOfIsFirst(s, sub, start - 1);
  }

  /** Each occurrence INSTR finds lies strictly after the one before it, and there
      is no next occurrence without the one before it. */
  lemma {:induction false} InstrOccurrencesIncrease(s: string, sub: string, start: nat, occurrence: nat)
    requires start >= 1 && occurrence >= 1
    ensures Instr(s, sub, start, occurrence + 1) != 0 ==>
      0 < Instr(s, sub, start, occurrence) < Instr(s, sub, start, occurrence + 1)
    decreases occurrence
  {
    var k := IndexOf(s, sub, start - 1);
    if k != -1 && occurrence > 1 {
      InstrOccurrencesIncrease(s, sub, k + 2, occurrence - 1);
    }
  }

  /** The number of occurrences of `sub` at the 0-based indexes `from` up to `until - 1`. */
  function Count(s: string, sub: string, from: nat, until: nat): (r: nat)
    ensures r <= (if from < until then until - from else 0)
    decreases until - from
  {
    if from >= until then 0
    else (if OccursAt(s, sub, from) then 1 else 0) + Count(s, sub, from + 1, until)
  }

  /** Counting from `from` meets no occurrence before the one IndexOf finds, and
      none at all when IndexOf finds nothing. */
  lemma {:induction false} CountUpToIndexOf(s: string, sub: string, from: nat, until: nat)
    requires until <= |s| + 1
    ensures var k := IndexOf(s, sub, from);
      && (k == -1 || until <= k ==> Count(s, sub, from, until) == 0)
      && (k != -1 && k < until ==> Count(s, sub, from, until) == 1 + Count(s, sub, k + 1, until))
    decreases until - from
  {
    if from < until && !OccursAt(s, sub, from) {
      CountUpToIndexOf(s, sub, from + 1, until);
    }
  }

  /** INSTR's result is the occurrence-th occurrence from `start`: it is 0 exactly
      when fewer than `occurrence` occurrences start at or after `start`, and
      otherwise the substring occurs there and exactly `occurrence` occurrences
      start between `start` and it, both included. */
  lemma {:induction false} InstrIsNthOccurrence(s: string, sub: string, start: nat, occurrence: nat)
    requires start >= 1 && occurrence >= 1
    ensures var r := Instr(s, sub, start, occurrence);
      && (r == 0 <==> Count(s, sub, start - 1, |s| + 1) < occurrence)
      && (r != 0 ==> OccursAt(s, sub, r - 1) && Count(s, sub, start - 1, r) == occurrence)
    decreases occurrence
  {
    var k := IndexOf(s, sub, start - 1);
    CountUpToIndexOf(s, sub, start - 1, |s| + 1);
    if k != -1 {
      if occurrence == 1 {
        CountUpToIndexOf(s, sub, start - 1, k + 1);
      } else {
        InstrIsNthOccurrence(s, sub, k + 2, occurrence - 1);
        var r := Instr(s, sub, k + 2, occurrence - 1);
        if r != 0 {
          CountUpToIndexOf(s, sub, start - 1, r);
        }
      }
    }
  }

  function LowerString(s: string): (r: string)
    ensures |r| == |s|
    ensures forall i :: 0 <= i < |s| ==> r[i] == ToLower(s[i])
  {
    seq(|s|, i requires 0 <= i < |s| => ToLower(s[i]))
  }

  /** CHARINDEX(sub, s, start): INSTR's first occurrence with case ignored. */
  function Charindex(sub: string, s: string, start: nat): (r: nat)
    requires start >= 1
    ensures r != 0 ==> start <= r && OccursAt(LowerString(s), LowerString(sub), r - 1)
  {
    Instr(LowerString(s), LowerString(sub), start, 1)
  }

  /** The sample sentence of the INSTR and CHARINDEX fixtures, in three pieces. */
  lemma SentencePieces()
    ensures "Choose a " + "chocolate " + "chip cookie" == "Choose a chocolate chip cookie"
  {
  }

  /** In the sample sentence the first "ch" after the capital C is at index 9. */
  lemma SentenceFirstCh()
    ensures IndexOf("Choose a chocolate chip cookie", "ch", 1) == 9
  {
    SentencePieces();
    var s := "Choose a " + "chocolate " + "chip cookie";
    assert IndexOf(s, "ch", 9) == 9;
    assert IndexOf(s, "ch", 7) == 9;
    assert IndexOf(s, "ch", 5) == 9;
    assert IndexOf(s, "ch", 3) == 9;
    assert IndexOf(s, "ch", 1) == 9;
  }

  /** The next "ch" is at index 19. */
  lemma SentenceSecondCh()
    ensures IndexOf("Choose a chocolate chip cookie", "ch", 10) == 19
  {
    SentencePieces();
    var s := "Choose a " + "chocolate " + "chip cookie";
    assert IndexOf(s, "ch", 19) == 19;
    assert IndexOf(s, "ch", 17) == 19;
    assert IndexOf(s, "ch", 15) == 19;
    assert IndexOf(s, "ch", 13) == 19;
    assert IndexOf(s, "ch", 11) == 19;
    assert IndexOf(s, "ch", 10) == 19;
  }

  /** The sample sentence has no "cc". */
  lemma SentenceNoCc()
    ensures IndexOf("Choose a chocolate chip cookie", "cc", 1) == -1
  {
    SentencePieces();
    var s := "Choose a " + "chocolate " + "chip cookie";
    assert IndexOf(s, "cc", 31) == -1;
    assert IndexOf(s, "cc", 29) == -1;
    assert IndexOf(s, "cc", 27) == -1;
    assert IndexOf(s, "cc", 25) == -1;
    assert IndexOf(s, "cc", 23) == -1;
    assert IndexOf(s, "cc", 21) == -1;
    assert IndexOf(s, "cc", 19) == -1;
    assert IndexOf(s, "cc", 17) == -1;
    assert IndexOf(s, "cc", 15) == -1;
    assert IndexOf(s, "cc", 13) == -1;
    assert IndexOf(s, "cc", 11) == -1;
    assert IndexOf(s, "cc", 9) == -1;
    assert IndexOf(s, "cc", 7) == -1;
    assert IndexOf(s, "cc", 5) == -1;
    assert IndexOf(s, "cc", 3) == -1;
    assert IndexOf(s, "cc", 1) == -1;
  }

  /** Lower-casing a concatenation lower-cases each part. */
  lemma LowerStringAppend(a: string, b: string)
    ensures LowerString(a + b) == LowerString(a) + LowerString(b)
  {
  }

  /** The sample sentence lower-cased, piece by piece. */
  lemma LoweredSentence()
    ensures LowerString("Choose a chocolate chip cookie") == "choose a " + "chocolate " + "chip cookie"
  {
    SentencePieces();
    LowerStringAppend("Choose a " + "chocolate ", "chip cookie");
    LowerStringAppend("Choose a ", "chocolate ");
    assert LowerString("Choose a ") == "choose a ";
    assert LowerString("chocolate ") == "chocolate ";
    assert LowerString("chip cookie") == "chip cookie";
  }

  /** Once lower-cased, the sentence starts with "ch" and has the next one at index 9. */
  lemma LoweredSentenceCh()
    ensures IndexOf(LowerString("Choose a chocolate chip cookie"), "ch", 0) == 0
    ensures IndexOf(LowerString("Choose a chocolate chip cookie"), "ch", 1) == 9
  {
    LoweredSentence();
    var t := "choose a " + "chocolate " + "chip cookie";
    assert IndexOf(t, "ch", 0) == 0;
    assert IndexOf(t, "ch", 9) == 9;
    assert IndexOf(t, "ch", 7) == 9;
    assert IndexOf(t, "ch", 5) == 9;
    assert IndexOf(t, "ch", 3) == 9;
    assert IndexOf(t, "ch", 1) == 9;
  }

  /** The lower-cased sentence has no "xy". */
  lemma LoweredSentenceNoXy()
    ensures IndexOf(LowerString("Choose a chocolate chip cookie"), "xy", 1) == -1
  {
    LoweredSentence();
    var t := "choose a " + "chocolate " + "chip cookie";
    assert IndexOf(t, "xy", 31) == -1;
    assert IndexOf(t, "xy", 29) == -1;
    assert IndexOf(t, "xy", 27) == -1;
    assert IndexOf(t, "xy", 25) == -1;
    assert IndexOf(t, "xy", 23) == -1;
    assert IndexOf(t, "xy", 21) == -1;
    assert IndexOf(t, "xy", 19) == -1;
    assert IndexOf(t, "xy", 17) == -1;
    assert IndexOf(t, "xy", 15) == -1;
    assert IndexOf(t, "xy", 13) == -1;
    assert IndexOf(t, "xy", 11) == -1;
    assert IndexOf(t, "xy", 9) == -1;
    assert IndexOf(t, "xy", 7) == -1;
    assert IndexOf(t, "xy", 5) == -1;
    assert IndexOf(t, "xy", 3) == -1;
    assert IndexOf(t, "xy", 1) == -1;
  }

  lemma InstrFixtures()
    ensures Instr("Choose a chocolate chip cookie", "ch", 2, 2) == 20
    ensures Instr("Choose a chocolate chip cookie", "cc", 2, 2) == 0
  {
    SentenceFirstCh();
    SentenceSecondCh();
    SentenceNoCc();
  }

  lemma CharindexFixtures()
    ensures Charindex("xy", "Choose a chocolate chip cookie", 2) == 0
    ensures Charindex("ch", "Choose a chocolate chip cookie", 1) == 1
    ensures Charindex("ch", "Choose a chocolate chip cookie", 2) == 10
  {
    assert LowerString("ch") == "ch";
    assert LowerString("xy") == "xy";
    LoweredSentenceCh();
    LoweredSentenceNoXy();
  }
}
