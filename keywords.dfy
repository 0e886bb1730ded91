// Classification of names by the registries: is a word an operator?

module Keywords {
  import opened Operators
  import opened Registry

  predicate IsPrefixOp(reg: Registries, op: string) { op in reg.prefix }
  predicate IsInfixOp(reg: Registries, op: string) { op in reg.infix }
  predicate IsPostfixOp(reg: Registries, op: string) { op in reg.postfix }

  /** `?` and `:` are operators whatever the registries hold. */
  predicate IsTernaryOp(op: string) { op == "?" || op == ":" }

  predicate IsOp(reg: Registries, op: string) {
    IsPrefixOp(reg, op) || IsInfixOp(reg, op) || IsPostfixOp(reg, op) || IsTernaryOp(op)
  }

  predicate IsNot(op: string) { op == "not" }

  /** The two kinds a name can be given: an operator, or left to the context of its use. */
  datatype KeywordType = Op | Unknown

  function KeywordTypeOf(reg: Registries, name: string): (k: KeywordType)
    ensures k == Op <==> IsOp(reg, name)
  {
    if IsOp(reg, name) then Op else Unknown
  }

  /** Registering a name in any operator table makes it an operator word; other names keep their kind. */
  lemma RegisteringMakesOp(reg: Registries, name: string, f: UnaryOpFunc, e: BinaryOp, other: string)
    requires other != name
    ensures KeywordTypeOf(reg.(prefix := reg.prefix[name := f]), name) == Op
    ensures KeywordTypeOf(reg.(infix := reg.infix[name := e]), name) == Op
    ensures KeywordTypeOf(reg.(postfix := reg.postfix[name := f]), name) == Op
    ensures KeywordTypeOf(reg.(prefix := reg.prefix[name := f]), other) == KeywordTypeOf(reg, other)
    ensures KeywordTypeOf(reg.(infix := reg.infix[name := e]), other) == KeywordTypeOf(reg, other)
  {
  }

  /** The word operators of the start-up tables. */
  lemma BuiltinWords()
    ensures KeywordTypeOf(Builtins(), "not") == Op
    ensures KeywordTypeOf(Builtins(), "in") == Op
    ensures KeywordTypeOf(Builtins(), "beginWith") == Op
    ensures KeywordTypeOf(Builtins(), "endWith") == Op
    ensures KeywordTypeOf(Builtins(), "AND") == Op
    ensures KeywordTypeOf(Builtins(), "OR") == Op
  {
    assert "not" in BuiltinPrefixOps() && "AND" in BuiltinPrefixOps() && "OR" in BuiltinPrefixOps();
    assert "in" in BuiltinBinaryOps() && "beginWith" in BuiltinBinaryOps() && "endWith" in BuiltinBinaryOps();
  }

  /** `?` and `:` are operators even in empty registries; `not` is one only when registered. */
  lemma TernaryAlwaysOp(reg: Registries)
    ensures KeywordTypeOf(reg, "?") == Op && KeywordTypeOf(reg, ":") == Op
    ensures IsNot("not") && !IsTernaryOp("not")
    ensures KeywordTypeOf(Registries(map[], map[], map[], map[]), "not") == Unknown
  {
  }
}
