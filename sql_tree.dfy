/** The call tree the unparser walks: identifiers, literals, window specifications
    and calls (an operator kind and name plus an ordered operand list). */
module SqlTree {
  import opened Wrappers

  /** The operator kinds the dialects dispatch on; every other kind is `OtherKind`. */
  datatype Kind =
    | Substring | ToNumber | CharLength | Format | Trim | Truncate | If
    | OtherFunction | DivideInteger | Over | Plus | Minus | Times | Union
    | Position | OtherKind

  /** How the generic renderer lays out a call whose dialect has no rule for it. */
  datatype Syntax = FunctionSyntax | BinarySyntax | PrefixSyntax | PostfixSyntax

  /** The flag of a TRIM call. */
  datatype TrimFlag = Both | Leading | Trailing

  datatype Node =
    | Ident(name: string)
      /** a numeric literal, kept as its source text */
    | NumLit(text: string)
      /** a character literal, kept as its unquoted value */
    | StrLit(value: string)
      /** an interval literal: its sign (-1 or 1) apart from its unsigned text */
    | IntervalLit(sign: int, text: string)
    | FlagLit(flag: TrimFlag)
    | NullLit
    | Window(refName: Option<string>, partitions: seq<Node>, orderList: seq<Node>)
    | Call(kind: Kind, name: string, syntax: Syntax, operands: seq<Node>)

  /** The errors that abort an unparse; partial output is then discarded by the caller. */
  datatype Error =
      /** an operand index past the end of the operand list */
    | OperandMissing(op: string, index: nat)
      /** an operand of the wrong shape (a failed cast or assertion) */
    | InvalidOperand(message: string)
      /** an emulation that refuses the call */
    | Unsupported(message: string)
      /** a name the dialect claims to emulate but has no case for */
    | NotHandled(message: string)
      /** the call is rendered by code that is not part of this model */
    | Delegated(what: string)

  type Tokens = seq<string>

  /** Number of nodes in a tree; every recursion of the unparser decreases it. */
  function Size(n: Node): (r: nat)
    ensures r >= 1
  {
    match n
    case Window(_, ps, os) => 1 + SizeList(ps) + SizeList(os)
    case Call(_, _, _, ops) => 1 + SizeList(ops)
    case _ => 1
  }

  function SizeList(s: seq<Node>): nat
  {
    if s == [] then 0 else SizeList(s[..|s| - 1]) + Size(s[|s| - 1])
  }

  lemma {:induction false} SizeListPrefix(s: seq<Node>, k: nat)
    requires k <= |s|
    ensures SizeList(s[..k]) <= SizeList(s)
    decreases |s|
  {
    if k < |s| {
      assert s[..|s| - 1][..k] == s[..k];
      SizeListPrefix(s[..|s| - 1], k);
    } else {
      assert s[..k] == s;
    }
  }

  lemma {:induction false} SizeListElement(s: seq<Node>, i: nat)
    requires i < |s|
    ensures Size(s[i]) <= SizeList(s)
    decreases |s|
  {
    if i < |s| - 1 {
      assert s[..|s| - 1][i] == s[i];
      SizeListElement(s[..|s| - 1], i);
    }
  }

  lemma {:induction false} SizeListConcat(a: seq<Node>, b: seq<Node>)
    ensures SizeList(a + b) == SizeList(a) + SizeList(b)
    decreases |b|
  {
    if b == [] {
      assert a + b == a;
    } else {
      assert (a + b)[..|a + b| - 1] == a + b[..|b| - 1];
      SizeListConcat(a, b[..|b| - 1]);
    }
  }

  /** The elements of `s` in the opposite order. */
  function Reversed<T>(s: seq<T>): (r: seq<T>)
    ensures |r| == |s|
  {
    if s == [] then [] else Reversed(s[1..]) + [s[0]]
  }

  lemma {:induction false} ReversedAt<T>(s: seq<T>, i: nat)
    requires i < |s|
    ensures Reversed(s)[i] == s[|s| - 1 - i]
    decreases |s|
  {
    if i < |s| - 1 {
      ReversedAt(s[1..], i);
    }
  }

  /** Reversing a suffix that starts one element earlier puts that element last. */
  lemma ReversedFrom<T>(s: seq<T>, i: nat)
    requires i < |s|
    ensures Reversed(s[i..]) == Reversed(s[i + 1..]) + [s[i]]
  {
    assert s[i..][1..] == s[i + 1..];
  }

  lemma {:induction false} SizeListReversed(s: seq<Node>)
    ensures SizeList(Reversed(s)) == SizeList(s)
    decreases |s|
  {
    if s != [] {
      var r := Reversed(s);
      assert r[..|r| - 1] == Reversed(s[1..]) && r[|r| - 1] == s[0];
      SizeListReversed(s[1..]);
      assert s == [s[0]] + s[1..];
      SizeListConcat([s[0]], s[1..]);
      assert [s[0]][..0] == [];
    }
  }
}
