// The four registries taken together, and the engine start-up that fills them.

module Registry {
  import opened Errors
  import opened Values
  import opened Functions
  import opened Operators

  /** The contents of the prefix, infix and postfix operator tables and of the function table. */
  datatype Registries = Registries(
    prefix: map<string, UnaryOpFunc>,
    infix: map<string, BinaryOp>,
    postfix: map<string, UnaryOpFunc>,
    functions: map<string, InnerFunction>)

  function BuiltinFunctions(): map<string, InnerFunction> {
    map["min" := MinOf, "max" := MaxOf, "sum" := SumOf, "mul" := MulOf]
  }

  /** What the start-up leaves in the registries when they begin empty. */
  function Builtins(): Registries {
    Registries(BuiltinPrefixOps(), BuiltinBinaryOps(), BuiltinPostfixOps(), BuiltinFunctions())
  }

  /**
   * What one run of the start-up does to the registries: each built-in name is
   * entered, and replaces whatever the table held under that name.
   */
  function Started(r: Registries): Registries {
    Registries(r.prefix + BuiltinPrefixOps(), r.infix + BuiltinBinaryOps(),
      r.postfix + BuiltinPostfixOps(), r.functions + BuiltinFunctions())
  }

  /** Starting from empty registries gives exactly the built-ins. */
  lemma StartedFromEmpty()
    ensures Started(Registries(map[], map[], map[], map[])) == Builtins()
  {
    UnionWithEmpty(BuiltinPrefixOps());
    UnionWithEmpty(BuiltinBinaryOps());
    UnionWithEmpty(BuiltinPostfixOps());
    UnionWithEmpty(BuiltinFunctions());
  }

  /**
   * After the start-up every built-in name holds its built-in entry, a user entry
   * under that name included, and every other name keeps its entry.
   */
  lemma StartedOverrides(r: Registries, name: string)
    ensures name in BuiltinBinaryOps() ==> Started(r).infix[name] == BuiltinBinaryOps()[name]
    ensures name !in BuiltinBinaryOps() && name in r.infix ==> Started(r).infix[name] == r.infix[name]
    ensures name in BuiltinPrefixOps() ==> Started(r).prefix[name] == BuiltinPrefixOps()[name]
    ensures name !in BuiltinPrefixOps() && name in r.prefix ==> Started(r).prefix[name] == r.prefix[name]
    ensures name in BuiltinPostfixOps() ==> Started(r).postfix[name] == BuiltinPostfixOps()[name]
    ensures name !in BuiltinPostfixOps() && name in r.postfix ==> Started(r).postfix[name] == r.postfix[name]
    ensures name in BuiltinFunctions() ==> Started(r).functions[name] == BuiltinFunctions()[name]
    ensures name !in BuiltinFunctions() && name in r.functions ==> Started(r).functions[name] == r.functions[name]
  {
  }

  /** Registering the four built-in functions one by one adds them as one table. */
  lemma FunctionsInitIsUnion(m: map<string, InnerFunction>)
    ensures m["min" := MinOf]["max" := MaxOf]["sum" := SumOf]["mul" := MulOf] == m + BuiltinFunctions()
  {
  }

  lemma UnionWithEmpty<V>(m: map<string, V>)
    ensures map[] + m == m
  {
  }

  /**
   * The registries of one process. The source's statics become the four fields,
   * and its `OnceCell` guard becomes `started`: `init` fills the registries on its
   * first call, in the order prefix, infix, postfix, functions, and does nothing on
   * any later call.
   */
  class Engine {
    const unary: UnaryOpFuncManager
    const binary: BinaryOpFuncManager
    const postfix: PostfixOpFuncManager
    const functions: InnerFunctionManager
    var started: bool

    function Snapshot(): Registries
      reads this, unary, binary, postfix, functions
    {
      Registries(unary.store, binary.store, postfix.store, functions.store)
    }

    /** The process before `init`: empty registries, guard unset. */
    constructor Unstarted()
      ensures fresh(unary) && fresh(binary) && fresh(postfix) && fresh(functions)
      ensures Snapshot() == Registries(map[], map[], map[], map[])
      ensures !started
    {
      unary := new UnaryOpFuncManager();
      binary := new BinaryOpFuncManager();
      postfix := new PostfixOpFuncManager();
      functions := new InnerFunctionManager();
      started := false;
    }

    /** The process after its first `init`. */
    constructor ()
      ensures fresh(unary) && fresh(binary) && fresh(postfix) && fresh(functions)
      ensures unary.store == BuiltinPrefixOps() && binary.store == BuiltinBinaryOps()
      ensures postfix.store == BuiltinPostfixOps() && functions.store == BuiltinFunctions()
      ensures Snapshot() == Builtins()
      ensures started
    {
      unary := new UnaryOpFuncManager();
      binary := new BinaryOpFuncManager();
      postfix := new PostfixOpFuncManager();
      functions := new InnerFunctionManager();
      started := false;
      new;
      Init();
      StartedFromEmpty();
    }

    /**
     * `init`: the first call runs the start-up on the registries as they stand;
     * every later call leaves them as they are, registrations made since included.
     */
    method Init()
      modifies this, unary, binary, postfix, functions
      ensures started
      ensures old(started) ==> Snapshot() == old(Snapshot())
      ensures !old(started) ==> Snapshot() == Started(old(Snapshot()))
    {
      if !started {
        var before := Snapshot();
        unary.Init();
        binary.Init();
        postfix.Init();
        functions.Init();
        FunctionsInitIsUnion(before.functions);
        started := true;
      }
    }
  }
}
