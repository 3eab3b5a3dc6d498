/** The output frame stack the unparsers write into: a token sequence and a stack of
    open frames (function-call parentheses, lists, windows), each counting the items
    its separators have started so that the first separator can be suppressed. */
module SqlWriter {

  /** An open frame: the token that closes it and the number of items started in it. */
  datatype Frame = Frame(close: string, items: nat)

  /** The tokens that printing `s` adds: an empty string adds none. */
  function Emit(s: string): (r: seq<string>)
    ensures |r| <= 1
    ensures r == [] <==> s == ""
  {
    if s == "" then [] else [s]
  }

  /** Whether a separator is printed in a frame that has started `items` items:
      a comma or a dot before the first item is left out, any other separator
      ("PARTITION BY", "+", "*") is printed even before the first item. */
  predicate SepPrints(sep: string, items: nat)
  {
    items > 0 || (sep != "," && sep != ".")
  }

  /** The tokens of items laid out with `Sep(",")` in a fresh frame: the first item
      bare, every later one after a comma. */
  function CommaList(parts: seq<seq<string>>): seq<string>
  {
    if parts == [] then []
    else CommaList(parts[..|parts| - 1]) + (if |parts| > 1 then [","] else []) + parts[|parts| - 1]
  }

  /** The same list read from the front: the first item, then a comma and the rest. */
  lemma {:induction false} CommaListFront(p: seq<string>, ps: seq<seq<string>>)
    ensures CommaList([p] + ps) == p + (if ps == [] then [] else [","] + CommaList(ps))
    decreases |ps|
  {
    if ps == [] {
      assert ([p] + ps)[..0] == [];
    } else if |ps| == 1 {
      assert ([p] + ps)[..1] == [p];
      assert [p][..0] == [];
      assert ps[..0] == [];
    } else {
      var q := ps[..|ps| - 1];
      assert ([p] + ps)[..|ps|] == [p] + q;
      CommaListFront(p, q);
    }
  }

  /** One more item at the end of a comma list, after whatever preceded the list. */
  lemma CommaListSnoc(t0: seq<string>, ps: seq<seq<string>>, p: seq<string>)
    ensures t0 + CommaList(ps) + (if ps != [] then [","] else []) + p == t0 + CommaList(ps + [p])
  {
    assert (ps + [p])[..|ps|] == ps;
  }

  /** A function-call layout: the name, the parenthesised comma list. */
  function CallLayout(name: string, parts: seq<seq<string>>): seq<string>
  {
    Emit(name) + ["("] + CommaList(parts) + [")"]
  }

  class Writer {
    var tokens: seq<string>
    var frames: seq<Frame>

    constructor ()
      ensures tokens == [] && frames == []
    {
      tokens := [];
      frames := [];
    }

    /** Appends text to the output without touching any frame. */
    method Print(s: string)
      modifies this
      ensures tokens == old(tokens) + Emit(s)
      ensures s != "" ==> tokens == old(tokens) + [s]
      ensures frames == old(frames)
    {
      tokens := tokens + Emit(s);
    }

    /** Appends the tokens of a node some other unparser rendered. */
    method PrintAll(ts: seq<string>)
      modifies this
      ensures tokens == old(tokens) + ts
      ensures frames == old(frames)
    {
      tokens := tokens + ts;
    }

    /** Opens a frame; the result is the handle `EndList` must be given back. */
    method StartList(open: string, close: string) returns (f: nat)
      modifies this
      ensures f == |old(frames)|
      ensures tokens == old(tokens) + Emit(open)
      ensures frames == old(frames) + [Frame(close, 0)]
    {
      f := |frames|;
      tokens := tokens + Emit(open);
      frames := frames + [Frame(close, 0)];
    }

    /** Prints a function name and opens its parenthesised argument frame. */
    method StartFunCall(name: string) returns (f: nat)
      modifies this
      ensures f == |old(frames)|
      ensures tokens == old(tokens) + Emit(name) + ["("]
      ensures frames == old(frames) + [Frame(")", 0)]
    {
      Print(name);
      f := StartList("(", ")");
    }

    /** Starts the next item of the innermost frame, printing the separator unless
        it is a comma or dot before the first item. Using it with no frame open is
        an internal error. */
    method Sep(sep: string)
      requires |frames| > 0
      modifies this
      ensures var top := old(frames)[|old(frames)| - 1];
        && tokens == old(tokens) + (if SepPrints(sep, top.items) then Emit(sep) else [])
        && frames == old(frames)[..|old(frames)| - 1] + [Frame(top.close, top.items + 1)]
    {
      var top := frames[|frames| - 1];
      if SepPrints(sep, top.items) {
        tokens := tokens + Emit(sep);
      }
      frames := frames[..|frames| - 1] + [Frame(top.close, top.items + 1)];
    }

    /** Closes the innermost frame, which must be the one `f` opened. */
    method EndList(f: nat)
      requires |frames| > 0 && f == |frames| - 1
      modifies this
      ensures tokens == old(tokens) + Emit(old(frames)[f].close)
      ensures frames == old(frames)[..f]
    {
      tokens := tokens + Emit(frames[f].close);
      frames := frames[..f];
    }

    method EndFunCall(f: nat)
      requires |frames| > 0 && f == |frames| - 1
      modifies this
      ensures tokens == old(tokens) + Emit(old(frames)[f].close)
      ensures frames == old(frames)[..f]
    {
      EndList(f);
    }
  }
}
