// The description hooks of descriptor.rs and decorator.rs. The two files are the
// same table under two names: formatters keyed by node kind (and operator or name),
// each lookup falling back to a default formatter.
//
// The table is a process-wide static behind a mutex in the source; here it is an
// object whose `store` field the setters update. A map formatter receives the
// entries in the order the source's hash map yields them, which this model takes
// as given.

module Hooks {
  import opened ExprTree
  import opened Operators
  import Printing

  type UnaryFormat = (string, string) -> string
  type BinaryFormat = (string, string, string) -> string
  type TernaryFormat = (string, string, string) -> string
  type FunctionFormat = (string, seq<string>) -> string
  type ReferenceFormat = string -> string
  type ListFormat = seq<string> -> string
  type MapFormat = seq<(string, string)> -> string
  type ChainFormat = seq<string> -> string

  /** `DescriptorKey` / `DecoratorKey`. */
  datatype HookKey =
    | UnaryKey(op: string)
    | BinaryKey(op: string)
    | TernaryKey
    | FunctionKey(name: string)
    | ReferenceKey(name: string)
    | ListKey
    | MapKey
    | ChainKey

  /** `Descriptor` / `Decorator`: one formatter, tagged with its kind. */
  datatype Hook =
    | UnaryHook(unary: UnaryFormat)
    | BinaryHook(binary: BinaryFormat)
    | TernaryHook(ternary: TernaryFormat)
    | FunctionHook(call: FunctionFormat)
    | ReferenceHook(reference: ReferenceFormat)
    | ListHook(list: ListFormat)
    | MapHook(entries: MapFormat)
    | ChainHook(chain: ChainFormat)

  type Store = map<HookKey, Hook>

  /** Every formatter is stored under a key of its own kind, as every public setter does. */
  predicate WellKeyed(store: Store) {
    forall k :: k in store ==>
      match k
      case UnaryKey(_) => store[k].UnaryHook?
      case BinaryKey(_) => store[k].BinaryHook?
      case TernaryKey => store[k].TernaryHook?
      case FunctionKey(_) => store[k].FunctionHook?
      case ReferenceKey(_) => store[k].ReferenceHook?
      case ListKey => store[k].ListHook?
      case MapKey => store[k].MapHook?
      case ChainKey => store[k].ChainHook?
  }

  // ---------------------------------------------------------------- the defaults

  /** `default_unary_*`: the operator, then the operand. */
  function DefaultUnary(op: string, rhs: string): (s: string)
    ensures |s| == |op| + |rhs| && s[..|op|] == op && s[|op|..] == rhs
  {
    op + rhs
  }

  /** `default_binary_*`: left operand, operator, right operand, with no spaces. */
  function DefaultBinary(op: string, lhs: string, rhs: string): (s: string)
    ensures |s| == |lhs| + |op| + |rhs|
    ensures s[..|lhs|] == lhs && s[|lhs|..|lhs| + |op|] == op && s[|lhs| + |op|..] == rhs
  {
    lhs + op + rhs
  }

  /** `default_ternary_*`: `cond?lhs:rhs`. */
  function DefaultTernary(cond: string, lhs: string, rhs: string): (s: string)
    ensures |s| == |cond| + |lhs| + |rhs| + 2
    ensures s[|cond|] == '?' && s[|cond| + 1 + |lhs|] == ':'
  {
    cond + "?" + lhs + ":" + rhs
  }

  /** `default_function_*`: `name(` then the arguments joined by `,`, then `)`. */
  function DefaultFunction(name: string, params: seq<string>): (s: string)
    ensures s == name + "(" + Printing.Join(params, ",") + ")"
  {
    name + "(" + Printing.Join(params, ",") + ")"
  }

  /** `default_reference_*`: the name itself. */
  function DefaultReference(name: string): (s: string)
    ensures s == name
  {
    name
  }

  /** `default_list_*`: the items joined by `,` in square brackets. */
  function DefaultList(params: seq<string>): (s: string)
    ensures |s| >= 2 && s[0] == '[' && s[|s| - 1] == ']'
    ensures s[1..|s| - 1] == Printing.Join(params, ",")
  {
    "[" + Printing.Join(params, ",") + "]"
  }

  /** `default_chain_*`: the statements joined by `;`. */
  function DefaultChain(params: seq<string>): (s: string)
    ensures |params| == 1 ==> s == params[0]
    ensures |params| == 0 ==> s == ""
  {
    Printing.Join(params, ";")
  }

  /** The `key:value` text of each entry, in order. */
  function EntryTexts(entries: seq<(string, string)>): (r: seq<string>)
    ensures |r| == |entries|
    ensures forall i :: 0 <= i < |entries| ==> r[i] == entries[i].0 + ":" + entries[i].1
  {
    seq(|entries|, i requires 0 <= i < |entries| => entries[i].0 + ":" + entries[i].1)
  }

  /** What `default_map_*` writes: the `key:value` entries joined by `,` in braces. */
  function MapText(entries: seq<(string, string)>): string {
    "{" + Printing.Join(EntryTexts(entries), ",") + "}"
  }

  /** `default_map_*`: collects the `key:value` texts in a loop, then joins them. */
  method DefaultMap(entries: seq<(string, string)>) returns (s: string)
    ensures s == MapText(entries)
  {
    var tmp: seq<string> := [];
    for i := 0 to |entries|
      invariant tmp == EntryTexts(entries[..i])
    {
      assert entries[..i + 1] == entries[..i] + [entries[i]];
      tmp := tmp + [entries[i].0 + ":" + entries[i].1];
    }
    assert entries[..|entries|] == entries;
    s := "{" + Printing.Join(tmp, ",") + "}";
  }

  // ---------------------------------------------------------------- the lookups

  /** `get_unary_*`: the formatter set for `op`, else the default. */
  function UnaryIn(store: Store, op: string): (f: UnaryFormat)
    ensures UnaryKey(op) in store && store[UnaryKey(op)].UnaryHook? ==> f == store[UnaryKey(op)].unary
    ensures UnaryKey(op) !in store ==> f == DefaultUnary
  {
    if UnaryKey(op) in store && store[UnaryKey(op)].UnaryHook? then store[UnaryKey(op)].unary else DefaultUnary
  }

  /**
   * `get_binary_*`: looks `op` up under the unary key, where only unary formatters
   * are ever stored, and falls back to the default.
   */
  function BinaryIn(store: Store, op: string): (f: BinaryFormat)
    ensures UnaryKey(op) in store && store[UnaryKey(op)].BinaryHook? ==> f == store[UnaryKey(op)].binary
    ensures !(UnaryKey(op) in store && store[UnaryKey(op)].BinaryHook?) ==> f == DefaultBinary
  {
    if UnaryKey(op) in store && store[UnaryKey(op)].BinaryHook? then store[UnaryKey(op)].binary else DefaultBinary
  }

  /** `get_ternary_*`: the ternary formatter; a formatter of another kind there gives the binary default. */
  function TernaryIn(store: Store): (f: TernaryFormat)
    ensures TernaryKey !in store ==> f == DefaultTernary
    ensures TernaryKey in store && store[TernaryKey].TernaryHook? ==> f == store[TernaryKey].ternary
    ensures TernaryKey in store && !store[TernaryKey].TernaryHook? ==> f == DefaultBinary
  {
    if TernaryKey !in store then DefaultTernary
    else if store[TernaryKey].TernaryHook? then store[TernaryKey].ternary
    else DefaultBinary
  }

  function FunctionIn(store: Store, name: string): (f: FunctionFormat)
    ensures FunctionKey(name) in store && store[FunctionKey(name)].FunctionHook? ==> f == store[FunctionKey(name)].call
    ensures FunctionKey(name) !in store ==> f == DefaultFunction
  {
    if FunctionKey(name) in store && store[FunctionKey(name)].FunctionHook? then store[FunctionKey(name)].call
    else DefaultFunction
  }

  function ReferenceIn(store: Store, name: string): (f: ReferenceFormat)
    ensures ReferenceKey(name) in store && store[ReferenceKey(name)].ReferenceHook? ==> f == store[ReferenceKey(name)].reference
    ensures ReferenceKey(name) !in store ==> f == DefaultReference
  {
    if ReferenceKey(name) in store && store[ReferenceKey(name)].ReferenceHook? then store[ReferenceKey(name)].reference
    else DefaultReference
  }

  function ListIn(store: Store): (f: ListFormat)
    ensures ListKey in store && store[ListKey].ListHook? ==> f == store[ListKey].list
    ensures ListKey !in store ==> f == DefaultList
  {
    if ListKey in store && store[ListKey].ListHook? then store[ListKey].list else DefaultList
  }

  /** The map default is `MapText`, which `DefaultMap` computes. */
  function MapIn(store: Store): (f: MapFormat)
    ensures MapKey in store && store[MapKey].MapHook? ==> f == store[MapKey].entries
    ensures MapKey !in store ==> f == MapText
  {
    if MapKey in store && store[MapKey].MapHook? then store[MapKey].entries else MapText
  }

  function ChainIn(store: Store): (f: ChainFormat)
    ensures ChainKey in store && store[ChainKey].ChainHook? ==> f == store[ChainKey].chain
    ensures ChainKey !in store ==> f == DefaultChain
  {
    if ChainKey in store && store[ChainKey].ChainHook? then store[ChainKey].chain else DefaultChain
  }

  // ---------------------------------------------------------------- the table

  /** `DescriptorManager` / `DecoratorManager`. */
  class HookTable {
    var store: Store

    ghost predicate Valid()
      reads this
    {
      WellKeyed(store)
    }

    /** `new`: the table starts empty. */
    constructor ()
      ensures store == map[] && Valid()
    {
      store := map[];
    }

    method SetUnary(op: string, f: UnaryFormat)
      requires Valid()
      modifies this
      ensures Valid() && store == old(store)[UnaryKey(op) := UnaryHook(f)]
      ensures GetUnary(op) == f
    {
      store := store[UnaryKey(op) := UnaryHook(f)];
    }

    method SetBinary(op: string, f: BinaryFormat)
      requires Valid()
      modifies this
      ensures Valid() && store == old(store)[BinaryKey(op) := BinaryHook(f)]
      ensures GetBinary(op) == DefaultBinary
    {
      store := store[BinaryKey(op) := BinaryHook(f)];
    }

    method SetTernary(f: TernaryFormat)
      requires Valid()
      modifies this
      ensures Valid() && store == old(store)[TernaryKey := TernaryHook(f)]
      ensures GetTernary() == f
    {
      store := store[TernaryKey := TernaryHook(f)];
    }

    method SetFunction(name: string, f: FunctionFormat)
      requires Valid()
      modifies this
      ensures Valid() && store == old(store)[FunctionKey(name) := FunctionHook(f)]
      ensures GetFunction(name) == f
    {
      store := store[FunctionKey(name) := FunctionHook(f)];
    }

    method SetReference(name: string, f: ReferenceFormat)
      requires Valid()
      modifies this
      ensures Valid() && store == old(store)[ReferenceKey(name) := ReferenceHook(f)]
      ensures GetReference(name) == f
    {
      store := store[ReferenceKey(name) := ReferenceHook(f)];
    }

    method SetList(f: ListFormat)
      requires Valid()
      modifies this
      ensures Valid() && store == old(store)[ListKey := ListHook(f)]
      ensures GetList() == f
    {
      store := store[ListKey := ListHook(f)];
    }

    method SetMap(f: MapFormat)
      requires Valid()
      modifies this
      ensures Valid() && store == old(store)[MapKey := MapHook(f)]
      ensures GetMap() == f
    {
      store := store[MapKey := MapHook(f)];
    }

    method SetChain(f: ChainFormat)
      requires Valid()
      modifies this
      ensures Valid() && store == old(store)[ChainKey := ChainHook(f)]
      ensures GetChain() == f
    {
      store := store[ChainKey := ChainHook(f)];
    }

    function GetUnary(op: string): (f: UnaryFormat)
      reads this
      ensures UnaryKey(op) in store && store[UnaryKey(op)].UnaryHook? ==> f == store[UnaryKey(op)].unary
      ensures UnaryKey(op) !in store ==> f == DefaultUnary
    {
      UnaryIn(store, op)
    }

    function GetBinary(op: string): (f: BinaryFormat)
      reads this
      ensures Valid() ==> f == DefaultBinary
    {
      BinaryIn(store, op)
    }

    function GetTernary(): (f: TernaryFormat)
      reads this
      ensures TernaryKey in store && store[TernaryKey].TernaryHook? ==> f == store[TernaryKey].ternary
      ensures TernaryKey !in store ==> f == DefaultTernary
    {
      TernaryIn(store)
    }

    function GetFunction(name: string): (f: FunctionFormat)
      reads this
      ensures FunctionKey(name) in store && store[FunctionKey(name)].FunctionHook? ==> f == store[FunctionKey(name)].call
      ensures FunctionKey(name) !in store ==> f == DefaultFunction
    {
      FunctionIn(store, name)
    }

    function GetReference(name: string): (f: ReferenceFormat)
      reads this
      ensures ReferenceKey(name) in store && store[ReferenceKey(name)].ReferenceHook? ==> f == store[ReferenceKey(name)].reference
      ensures ReferenceKey(name) !in store ==> f == DefaultReference
    {
      ReferenceIn(store, name)
    }

    function GetList(): (f: ListFormat)
      reads this
      ensures ListKey in store && store[ListKey].ListHook? ==> f == store[ListKey].list
      ensures ListKey !in store ==> f == DefaultList
    {
      ListIn(store)
    }

    function GetMap(): (f: MapFormat)
      reads this
      ensures MapKey in store && store[MapKey].MapHook? ==> f == store[MapKey].entries
      ensures MapKey !in store ==> f == MapText
    {
      MapIn(store)
    }

    function GetChain(): (f: ChainFormat)
      reads this
      ensures ChainKey in store && store[ChainKey].ChainHook? ==> f == store[ChainKey].chain
      ensures ChainKey !in store ==> f == DefaultChain
    {
      ChainIn(store)
    }
  }

  // ---------------------------------------------------------------- what the table promises

  /** A setter's formatter is what the matching getter then returns. */
  lemma SetThenGet(store: Store, op: string, name: string, u: UnaryFormat, c: FunctionFormat, r: ReferenceFormat,
                   t: TernaryFormat, l: ListFormat, m: MapFormat, ch: ChainFormat)
    ensures UnaryIn(store[UnaryKey(op) := UnaryHook(u)], op) == u
    ensures FunctionIn(store[FunctionKey(name) := FunctionHook(c)], name) == c
    ensures ReferenceIn(store[ReferenceKey(name) := ReferenceHook(r)], name) == r
    ensures TernaryIn(store[TernaryKey := TernaryHook(t)]) == t
    ensures ListIn(store[ListKey := ListHook(l)]) == l
    ensures MapIn(store[MapKey := MapHook(m)]) == m
    ensures ChainIn(store[ChainKey := ChainHook(ch)]) == ch
  {
  }

  /** Every lookup reads one key only, so setting any other key leaves it unchanged. */
  lemma SetLeavesOtherKeys(store: Store, k: HookKey, h: Hook, op: string, name: string)
    ensures k != UnaryKey(op) ==> UnaryIn(store[k := h], op) == UnaryIn(store, op)
    ensures k != UnaryKey(op) ==> BinaryIn(store[k := h], op) == BinaryIn(store, op)
    ensures k != TernaryKey ==> TernaryIn(store[k := h]) == TernaryIn(store)
    ensures k != FunctionKey(name) ==> FunctionIn(store[k := h], name) == FunctionIn(store, name)
    ensures k != ReferenceKey(name) ==> ReferenceIn(store[k := h], name) == ReferenceIn(store, name)
    ensures k != ListKey ==> ListIn(store[k := h]) == ListIn(store)
    ensures k != MapKey ==> MapIn(store[k := h]) == MapIn(store)
    ensures k != ChainKey ==> ChainIn(store[k := h]) == ChainIn(store)
  {
  }

  /** The setters keep every formatter under a key of its own kind. */
  lemma SettersKeepWellKeyed(store: Store, op: string, name: string, u: UnaryFormat, b: BinaryFormat,
                             c: FunctionFormat, r: ReferenceFormat)
    requires WellKeyed(store)
    ensures WellKeyed(store[UnaryKey(op) := UnaryHook(u)])
    ensures WellKeyed(store[BinaryKey(op) := BinaryHook(b)])
    ensures WellKeyed(store[FunctionKey(name) := FunctionHook(c)])
    ensures WellKeyed(store[ReferenceKey(name) := ReferenceHook(r)])
  {
  }

  /**
   * Because the binary lookup reads the unary key, a table filled by its setters
   * never hands out a binary formatter: every binary operator gets the default.
   */
  lemma BinaryLookupIsDefault(store: Store, op: string)
    requires WellKeyed(store)
    ensures BinaryIn(store, op) == DefaultBinary
  {
    if UnaryKey(op) in store {
      assert store[UnaryKey(op)].UnaryHook?;
    }
  }

  /** The ternary lookup's fallback to the binary default is never taken in such a table. */
  lemma TernaryLookupIsTernary(store: Store)
    requires WellKeyed(store)
    ensures TernaryIn(store) == (if TernaryKey in store then store[TernaryKey].ternary else DefaultTernary)
  {
    if TernaryKey in store {
      assert store[TernaryKey].TernaryHook?;
    }
  }

  /** A binary formatter that was set is never returned, whatever else was set. */
  lemma SetBinaryIsIgnored(store: Store, op: string, b: BinaryFormat)
    requires WellKeyed(store)
    ensures BinaryIn(store[BinaryKey(op) := BinaryHook(b)], op) == DefaultBinary
  {
    SettersKeepWellKeyed(store, op, "", DefaultUnary, b, DefaultFunction, DefaultReference);
    BinaryLookupIsDefault(store[BinaryKey(op) := BinaryHook(b)], op);
  }

  /** Each entry's key and value texts, in order, as the map formatter receives them. */
  function RenderedEntries(infix: map<string, BinaryOp>, e: ExprAST, numberText: real -> string): (r: seq<(string, string)>)
    requires e.Map?
    ensures |r| == |e.pairs|
    ensures forall k :: 0 <= k < |e.pairs| ==>
      r[k] == (Printing.Expr(infix, e.pairs[k].0, numberText), Printing.Expr(infix, e.pairs[k].1, numberText))
  {
    seq(|e.pairs|, k requires 0 <= k < |e.pairs| =>
      (Printing.Expr(infix, e.pairs[k].0, numberText), Printing.Expr(infix, e.pairs[k].1, numberText)))
  }

  /**
   * With nothing set, the function, reference, list, map and chain formatters lay
   * their parts out exactly as the expression printer does.
   */
  lemma DefaultsMatchPrinter(store: Store, infix: map<string, BinaryOp>, e: ExprAST, numberText: real -> string)
    requires FunctionKey(if e.Function? then e.name else "") !in store
    requires ReferenceKey(if e.Reference? then e.name else "") !in store
    requires ListKey !in store && MapKey !in store && ChainKey !in store
    ensures e.Function? ==>
      FunctionIn(store, e.name)(e.name, Printing.Rendered(infix, e.args, numberText)) == Printing.Expr(infix, e, numberText)
    ensures e.Reference? ==> ReferenceIn(store, e.name)(e.name) == Printing.Expr(infix, e, numberText)
    ensures e.List? ==> ListIn(store)(Printing.Rendered(infix, e.items, numberText)) == Printing.Expr(infix, e, numberText)
    ensures e.Map? ==> MapIn(store)(RenderedEntries(infix, e, numberText)) == Printing.Expr(infix, e, numberText)
    ensures e.Chain? ==> ChainIn(store)(Printing.Rendered(infix, e.exprs, numberText)) == Printing.Expr(infix, e, numberText)
  {
    Printing.CompoundTexts(infix, e, numberText);
    if e.Map? {
      assert EntryTexts(RenderedEntries(infix, e, numberText)) == Printing.RenderedPairs(infix, e, numberText);
    }
  }

  // ---------------------------------------------------------------- describe

  /**
   * `describe` of parser.rs: every node is formatted by the hook the table holds for
   * it, from the descriptions of its children. Literals are written as the expression
   * printer writes them. The source asks for a postfix formatter that the table does
   * not have, so it is a parameter here.
   */
  function Describe(store: Store, infix: map<string, BinaryOp>, numberText: real -> string,
                    postfix: (string, string) -> string, e: ExprAST): string
    decreases e, 1
  {
    match e
    case Literal(_) => Printing.Expr(infix, e, numberText)
    case Unary(op, rhs) => UnaryIn(store, op)(op, Describe(store, infix, numberText, postfix, rhs))
    case Binary(op, lhs, rhs) =>
      BinaryIn(store, op)(op, Describe(store, infix, numberText, postfix, lhs), Describe(store, infix, numberText, postfix, rhs))
    case Postfix(lhs, op) => postfix(Describe(store, infix, numberText, postfix, lhs), op)
    case List(items) => ListIn(store)(DescribeAll(store, infix, numberText, postfix, items))
    case Map(_) => MapIn(store)(DescribePairs(store, infix, numberText, postfix, e))
    case Function(name, args) => FunctionIn(store, name)(name, DescribeAll(store, infix, numberText, postfix, args))
    case Reference(name) => ReferenceIn(store, name)(name)
    case Chain(exprs) => ChainIn(store)(DescribeAll(store, infix, numberText, postfix, exprs))
    case Ternary(cond, lhs, rhs) =>
      TernaryIn(store)(Describe(store, infix, numberText, postfix, cond),
                       Describe(store, infix, numberText, postfix, lhs),
                       Describe(store, infix, numberText, postfix, rhs))
    case None => ""
  }

  function DescribeAll(store: Store, infix: map<string, BinaryOp>, numberText: real -> string,
                       postfix: (string, string) -> string, items: seq<ExprAST>): (r: seq<string>)
    ensures |r| == |items|
    ensures forall k :: 0 <= k < |items| ==> r[k] == Describe(store, infix, numberText, postfix, items[k])
    decreases items, 0
  {
    if |items| == 0 then []
    else [Describe(store, infix, numberText, postfix, items[0])] + DescribeAll(store, infix, numberText, postfix, items[1..])
  }

  function DescribePairs(store: Store, infix: map<string, BinaryOp>, numberText: real -> string,
                         postfix: (string, string) -> string, m: ExprAST): (r: seq<(string, string)>)
    requires m.Map?
    ensures |r| == |m.pairs|
    ensures forall k :: 0 <= k < |m.pairs| ==>
      r[k] == (Describe(store, infix, numberText, postfix, m.pairs[k].0), Describe(store, infix, numberText, postfix, m.pairs[k].1))
    decreases m, 0
  {
    seq(|m.pairs|, k requires 0 <= k < |m.pairs| =>
      (Describe(store, infix, numberText, postfix, m.pairs[k].0), Describe(store, infix, numberText, postfix, m.pairs[k].1)))
  }

  /** A tree with no operator node: literals, references, calls, lists, maps and chains. */
  predicate OperatorFree(e: ExprAST)
    decreases e
  {
    match e
    case Unary(_, _) => false
    case Binary(_, _, _) => false
    case Postfix(_, _) => false
    case Ternary(_, _, _) => false
    case List(items) => forall k :: 0 <= k < |items| ==> OperatorFree(items[k])
    case Function(_, args) => forall k :: 0 <= k < |args| ==> OperatorFree(args[k])
    case Chain(exprs) => forall k :: 0 <= k < |exprs| ==> OperatorFree(exprs[k])
    case Map(pairs) => forall k :: 0 <= k < |pairs| ==> OperatorFree(pairs[k].0) && OperatorFree(pairs[k].1)
    case _ => true
  }

  /** With nothing set, an operator-free tree is described exactly as it is printed. */
  lemma {:induction false} DescribeMatchesPrinter(infix: map<string, BinaryOp>, numberText: real -> string,
                                                   postfix: (string, string) -> string, e: ExprAST)
    requires OperatorFree(e)
    ensures Describe(map[], infix, numberText, postfix, e) == Printing.Expr(infix, e, numberText)
    decreases e
  {
    Printing.CompoundTexts(infix, e, numberText);
    match e
    case List(items) =>
      DescribeAllMatchesPrinter(infix, numberText, postfix, items);
    case Function(_, args) =>
      DescribeAllMatchesPrinter(infix, numberText, postfix, args);
    case Chain(exprs) =>
      DescribeAllMatchesPrinter(infix, numberText, postfix, exprs);
    case Map(pairs) =>
      var entries := DescribePairs(map[], infix, numberText, postfix, e);
      forall k | 0 <= k < |pairs|
        ensures entries[k] == (Printing.Expr(infix, pairs[k].0, numberText), Printing.Expr(infix, pairs[k].1, numberText))
      {
        DescribeMatchesPrinter(infix, numberText, postfix, pairs[k].0);
        DescribeMatchesPrinter(infix, numberText, postfix, pairs[k].1);
      }
      assert EntryTexts(entries) == Printing.RenderedPairs(infix, e, numberText);
    case _ =>
  }

  lemma {:induction false} DescribeAllMatchesPrinter(infix: map<string, BinaryOp>, numberText: real -> string,
                                                      postfix: (string, string) -> string, items: seq<ExprAST>)
    requires forall k :: 0 <= k < |items| ==> OperatorFree(items[k])
    ensures DescribeAll(map[], infix, numberText, postfix, items) == Printing.Rendered(infix, items, numberText)
    decreases items
  {
    forall k | 0 <= k < |items|
      ensures DescribeAll(map[], infix, numberText, postfix, items)[k] == Printing.Rendered(infix, items, numberText)[k]
    {
      DescribeMatchesPrinter(infix, numberText, postfix, items[k]);
    }
  }

  /**
   * Operators are where the two differ: with nothing set, `describe` writes an
   * operator and its operands with no spaces, and a binary formatter set for the
   * operator makes no difference.
   */
  lemma DescribeOperators(infix: map<string, BinaryOp>, numberText: real -> string,
                          postfix: (string, string) -> string, op: string, a: ExprAST, b: ExprAST, f: BinaryFormat)
    ensures var d := (x: ExprAST) => Describe(map[], infix, numberText, postfix, x);
      Describe(map[], infix, numberText, postfix, Binary(op, a, b)) == d(a) + op + d(b)
    ensures var d := (x: ExprAST) => Describe(map[], infix, numberText, postfix, x);
      Describe(map[BinaryKey(op) := BinaryHook(f)], infix, numberText, postfix, Binary(op, a, b)) == d(a) + op + d(b)
    ensures Describe(map[], infix, numberText, postfix, Unary(op, a)) == op + Describe(map[], infix, numberText, postfix, a)
  {
    var d := (x: ExprAST) => Describe(map[], infix, numberText, postfix, x);
    var t := map[BinaryKey(op) := BinaryHook(f)];
    assert Describe(t, infix, numberText, postfix, a) == d(a) by {
      DescribeIgnoresBinaryHooks(op, f, infix, numberText, postfix, a);
    }
    assert Describe(t, infix, numberText, postfix, b) == d(b) by {
      DescribeIgnoresBinaryHooks(op, f, infix, numberText, postfix, b);
    }
  }

  /** A table holding only a binary formatter describes every tree as the empty table does. */
  lemma {:induction false} DescribeIgnoresBinaryHooks(op: string, f: BinaryFormat, infix: map<string, BinaryOp>,
                                                      numberText: real -> string, postfix: (string, string) -> string, e: ExprAST)
    ensures Describe(map[BinaryKey(op) := BinaryHook(f)], infix, numberText, postfix, e) == Describe(map[], infix, numberText, postfix, e)
    decreases e
  {
    var t: Store := map[BinaryKey(op) := BinaryHook(f)];
    match e
    case Unary(_, rhs) =>
      DescribeIgnoresBinaryHooks(op, f, infix, numberText, postfix, rhs);
    case Binary(_, lhs, rhs) =>
      DescribeIgnoresBinaryHooks(op, f, infix, numberText, postfix, lhs);
      DescribeIgnoresBinaryHooks(op, f, infix, numberText, postfix, rhs);
    case Postfix(lhs, _) =>
      DescribeIgnoresBinaryHooks(op, f, infix, numberText, postfix, lhs);
    case Ternary(c, lhs, rhs) =>
      DescribeIgnoresBinaryHooks(op, f, infix, numberText, postfix, c);
      DescribeIgnoresBinaryHooks(op, f, infix, numberText, postfix, lhs);
      DescribeIgnoresBinaryHooks(op, f, infix, numberText, postfix, rhs);
    case List(items) =>
      DescribeAllIgnoresBinaryHooks(op, f, infix, numberText, postfix, items);
    case Function(_, args) =>
      DescribeAllIgnoresBinaryHooks(op, f, infix, numberText, postfix, args);
    case Chain(exprs) =>
      DescribeAllIgnoresBinaryHooks(op, f, infix, numberText, postfix, exprs);
    case Map(pairs) =>
      forall k | 0 <= k < |pairs|
        ensures DescribePairs(t, infix, numberText, postfix, e)[k] == DescribePairs(map[], infix, numberText, postfix, e)[k]
      {
        DescribeIgnoresBinaryHooks(op, f, infix, numberText, postfix, pairs[k].0);
        DescribeIgnoresBinaryHooks(op, f, infix, numberText, postfix, pairs[k].1);
      }
      assert DescribePairs(t, infix, numberText, postfix, e) == DescribePairs(map[], infix, numberText, postfix, e);
    case _ =>
  }

  lemma {:induction false} DescribeAllIgnoresBinaryHooks(op: string, f: BinaryFormat, infix: map<string, BinaryOp>,
                                                         numberText: real -> string, postfix: (string, string) -> string, items: seq<ExprAST>)
    ensures DescribeAll(map[BinaryKey(op) := BinaryHook(f)], infix, numberText, postfix, items) == DescribeAll(map[], infix, numberText, postfix, items)
    decreases items
  {
    forall k | 0 <= k < |items|
      ensures DescribeAll(map[BinaryKey(op) := BinaryHook(f)], infix, numberText, postfix, items)[k] ==
              DescribeAll(map[], infix, numberText, postfix, items)[k]
    {
      DescribeIgnoresBinaryHooks(op, f, infix, numberText, postfix, items[k]);
    }
  }
}
