// The evaluation context: a name-keyed table of variables and functions supplied
// by the caller and written by assignments.

module Contexts {
  import opened Errors
  import opened Values
  import opened Functions

  datatype ContextValue = Variable(value: Value) | Function(func: InnerFunction)

  type Bindings = map<string, ContextValue>

  /** `get`: the binding of `name`, if any. */
  function BindingIn(b: Bindings, name: string): (r: Option<ContextValue>)
    ensures r.Some? <==> name in b
    ensures r.Some? ==> r.value == b[name]
  {
    if name in b then Some(b[name]) else Option.None
  }

  /** `get_func`: a function binding of `name`; a variable of that name gives nothing. */
  function FunctionIn(b: Bindings, name: string): (r: Option<InnerFunction>)
    ensures r.Some? <==> name in b && b[name].Function?
    ensures r.Some? ==> r.value == b[name].func
  {
    var v :- BindingIn(b, name);
    match v
    case Function(f) => Some(f)
    case Variable(_) => Option.None
  }

  /** `get_variable`: a variable binding of `name`; a function of that name gives nothing. */
  function VariableIn(b: Bindings, name: string): (r: Option<Value>)
    ensures r.Some? <==> name in b && b[name].Variable?
    ensures r.Some? ==> r.value == b[name].value
  {
    var v :- BindingIn(b, name);
    match v
    case Variable(x) => Some(x)
    case Function(_) => Option.None
  }

  /**
   * `value`: an unbound name reads as `None`, a variable as its value, and a
   * function as the result of calling it with no arguments.
   */
  function ValueIn(b: Bindings, name: string): (r: Result<Value>)
    ensures name !in b ==> r == Ok(Value.None)
    ensures VariableIn(b, name).Some? ==> r == Ok(VariableIn(b, name).value)
    ensures FunctionIn(b, name).Some? ==> r == FunctionIn(b, name).value([])
  {
    if name !in b then Ok(Value.None)
    else match b[name]
      case Variable(v) => Ok(v)
      case Function(f) => f([])
  }

  /** After `set_variable(name, v)` the name reads back as that variable and nothing else changes. */
  lemma SetVariableMeaning(b: Bindings, name: string, v: Value, other: string)
    requires other != name
    ensures VariableIn(b[name := Variable(v)], name) == Some(v)
    ensures FunctionIn(b[name := Variable(v)], name) == Option.None
    ensures ValueIn(b[name := Variable(v)], name) == Ok(v)
    ensures BindingIn(b[name := Variable(v)], other) == BindingIn(b, other)
    ensures ValueIn(b[name := Variable(v)], other) == ValueIn(b, other)
  {
  }

  /** After `set_func(name, f)` the name reads back as that function and nothing else changes. */
  lemma SetFunctionMeaning(b: Bindings, name: string, f: InnerFunction, other: string)
    requires other != name
    ensures FunctionIn(b[name := Function(f)], name) == Some(f)
    ensures VariableIn(b[name := Function(f)], name) == Option.None
    ensures ValueIn(b[name := Function(f)], name) == f([])
    ensures BindingIn(b[name := Function(f)], other) == BindingIn(b, other)
    ensures ValueIn(b[name := Function(f)], other) == ValueIn(b, other)
  {
  }

  /** At most one of a name's two readings is present. */
  lemma VariableOrFunction(b: Bindings, name: string)
    ensures !(VariableIn(b, name).Some? && FunctionIn(b, name).Some?)
    ensures name in b <==> VariableIn(b, name).Some? || FunctionIn(b, name).Some?
  {
  }

  /** The context object; `bindings` is the table behind the source's mutex. */
  class Context {
    var bindings: Bindings

    constructor ()
      ensures bindings == map[]
    {
      bindings := map[];
    }

    /** `set`: inserts or replaces the binding of `name`. */
    method Set(name: string, v: ContextValue)
      modifies this
      ensures bindings == old(bindings)[name := v]
    {
      bindings := bindings[name := v];
    }

    method SetFunc(name: string, f: InnerFunction)
      modifies this
      ensures bindings == old(bindings)[name := Function(f)]
      ensures GetFunc(name) == Some(f) && GetVariable(name) == Option.None
    {
      Set(name, Function(f));
    }

    method SetVariable(name: string, v: Value)
      modifies this
      ensures bindings == old(bindings)[name := Variable(v)]
      ensures GetVariable(name) == Some(v) && GetFunc(name) == Option.None
    {
      Set(name, Variable(v));
    }

    function Get(name: string): (r: Option<ContextValue>)
      reads this
      ensures r.Some? <==> name in bindings
      ensures r.Some? ==> r.value == bindings[name]
    {
      BindingIn(bindings, name)
    }

    function GetFunc(name: string): (r: Option<InnerFunction>)
      reads this
      ensures r.Some? <==> Get(name).Some? && Get(name).value.Function?
      ensures r.Some? ==> r.value == bindings[name].func
    {
      FunctionIn(bindings, name)
    }

    function GetVariable(name: string): (r: Option<Value>)
      reads this
      ensures r.Some? <==> Get(name).Some? && Get(name).value.Variable?
      ensures r.Some? ==> r.value == bindings[name].value
    {
      VariableIn(bindings, name)
    }

    function Value(name: string): (r: Result<Value>)
      reads this
      ensures Get(name).None? ==> r == Ok(Values.Value.None)
      ensures GetVariable(name).Some? ==> r == Ok(GetVariable(name).value)
      ensures GetFunc(name).Some? ==> r == GetFunc(name).value([])
    {
      ValueIn(bindings, name)
    }
  }
}
