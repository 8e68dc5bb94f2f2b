/**
 * The runtime objects: environments, functions, classes and instances.
 *
 * A runtime value is a plain `Value`, a function, a class, an instance, or a
 * method bound to an instance. Binding itself (`LoxFunction.bind`) is not
 * part of this model; a bound method is represented by the pair it is made of.
 */
module Runtime {
  import opened Lexicon
  import opened Syntax

  datatype Object =
    | Plain(value: Value)
    | Callable(fn: LoxFunction)
    | Klass(klass: LoxClass)
    | Instance(instance: LoxInstance)
    | Bound(boundMethod: LoxFunction, receiver: LoxInstance)

  /** A lookup either finds a value or raises a runtime error against the name token. */
  datatype Lookup = Found(value: Object) | Raised(token: Token, message: string)

  function UndefinedVariable(name: string): string {
    "Undefined variable '" + name + "'."
  }

  function UndefinedProperty(name: string): string {
    "Undefined property '" + name + "'."
  }

  // ---------------------------------------------------------------------------
  // Environment.kt

  /** `get` over a binding table: the bound value, or the undefined-variable error. */
  function LookupIn(values: map<string, Object>, name: Token): (r: Lookup)
    ensures r.Found? <==> name.lexeme in values
    ensures r.Found? ==> r.value == values[name.lexeme]
    ensures r.Raised? ==> r == Raised(name, UndefinedVariable(name.lexeme))
  {
    if name.lexeme in values then Found(values[name.lexeme])
    else Raised(name, UndefinedVariable(name.lexeme))
  }

  class Environment {
    var values: map<string, Object>

    constructor ()
      ensures values == map[]
    {
      values := map[];
    }

    /** `define` binds or rebinds one name and leaves every other binding as it was. */
    method Define(name: string, value: Object)
      modifies this
      ensures values == old(values)[name := value]
      ensures forall k | k != name :: (k in values <==> k in old(values)) && (k in old(values) ==> values[k] == old(values)[k])
    {
      values := values[name := value];
    }

    function Get(name: Token): Lookup
      reads this
    {
      LookupIn(values, name)
    }
  }

  // ---------------------------------------------------------------------------
  // LoxFunction.kt

  /** The environment a call binds its parameters in: `params[i]` to `arguments[i]`, in order, later bindings of a repeated name winning. */
  function Bindings(params: seq<Token>, arguments: seq<Object>): (values: map<string, Object>)
    requires |params| <= |arguments|
    ensures values.Keys == set p | p in params :: p.lexeme
    decreases |params|
  {
    if |params| == 0 then map[]
    else
      var prefix := params[..|params| - 1];
      assert params == prefix + [params[|params| - 1]];
      Bindings(prefix, arguments)[params[|params| - 1].lexeme := arguments[|params| - 1]]
  }

  /** How a call ends: the function's result, or an index past the end of the argument list. */
  datatype CallOutcome = Returned(result: Object) | MissingArgument(index: nat)

  datatype LoxFunction = LoxFunction(declaration: FunctionDecl)
  {
    function Arity(): (n: nat)
      ensures n == |declaration.params|
    {
      |declaration.params|
    }

    function ToString(): (text: string)
      ensures text == "<fn " + declaration.name.lexeme + ">"
    {
      "<fn " + declaration.name.lexeme + ">"
    }

    /**
     * `call`, up to the body: a fresh environment binds each parameter to the
     * argument at its index, then the result is nil. With fewer arguments than
     * parameters the loop indexes past the end of the argument list.
     */
    method Call(arguments: seq<Object>) returns (r: CallOutcome, environment: Environment)
      ensures fresh(environment)
      ensures |arguments| >= Arity() ==> r == Returned(Plain(Value.Nil)) && environment.values == Bindings(declaration.params, arguments)
      ensures |arguments| < Arity() ==>
        r == MissingArgument(|arguments|) && environment.values == Bindings(declaration.params[..|arguments|], arguments)
    {
      var params := declaration.params;
      environment := new Environment();
      for i := 0 to |params|
        invariant i <= |arguments| && environment.values == Bindings(params[..i], arguments)
      {
        if i == |arguments| {
          return MissingArgument(i), environment;
        }
        environment.Define(params[i].lexeme, arguments[i]);
        assert params[..i + 1][..i] == params[..i];
      }
      assert params[..|params|] == params;
      return Returned(Plain(Value.Nil)), environment;
    }
  }

  // ---------------------------------------------------------------------------
  // LoxClass.kt

  datatype LoxClass = LoxClass(name: string, methods: map<string, LoxFunction>)
  {
    /** `findMethod`: the class's own method table only, with no superclass walk. */
    function FindMethod(key: string): (r: Option<LoxFunction>)
      ensures r.Some? <==> key in methods
      ensures r.Some? ==> r.value == methods[key]
    {
      if key in methods then Some(methods[key]) else None
    }

    function Arity(): (n: nat)
      ensures n == 0
    {
      0
    }

    function ToString(): (text: string)
      ensures text == name
    {
      name
    }

    /** `call` ignores its arguments and makes a new instance of this class with no fields. */
    method Call(arguments: seq<Object>) returns (instance: LoxInstance)
      ensures fresh(instance) && instance.klass == this && instance.fields == map[]
    {
      instance := new LoxInstance(this);
    }
  }

  // ---------------------------------------------------------------------------
  // LoxInstance.kt

  /** `get` on an instance: a field, else a method of its class bound to it, else the undefined-property error. */
  function PropertyOf(fields: map<string, Object>, klass: LoxClass, receiver: LoxInstance, name: Token): (r: Lookup)
    ensures name.lexeme in fields ==> r == Found(fields[name.lexeme])
    ensures name.lexeme !in fields && name.lexeme in klass.methods ==> r == Found(Bound(klass.methods[name.lexeme], receiver))
    ensures name.lexeme !in fields && name.lexeme !in klass.methods ==> r == Raised(name, UndefinedProperty(name.lexeme))
  {
    if name.lexeme in fields then Found(fields[name.lexeme])
    else match klass.FindMethod(name.lexeme)
      case Some(m) => Found(Bound(m, receiver))
      case None => Raised(name, UndefinedProperty(name.lexeme))
  }

  class LoxInstance {
    const klass: LoxClass
    /** Kotlin's `HashMap<String, Any>`: a field never holds nil. */
    var fields: map<string, Object>

    constructor (klass: LoxClass)
      ensures this.klass == klass && fields == map[]
    {
      this.klass := klass;
      fields := map[];
    }

    function Get(name: Token): Lookup
      reads this
    {
      PropertyOf(fields, klass, this, name)
    }

    /** `set` stores a non-nil value under the name; a nil value fails the `!!` and stores nothing. */
    method Set(name: Token, value: Object) returns (stored: bool)
      modifies this
      ensures stored <==> value != Plain(Value.Nil)
      ensures stored ==> fields == old(fields)[name.lexeme := value]
      ensures !stored ==> fields == old(fields)
    {
      if value == Plain(Value.Nil) {
        return false;
      }
      fields := fields[name.lexeme := value];
      return true;
    }

    function ToString(): (text: string)
      ensures text == klass.name + " instance"
    {
      klass.name + " instance"
    }
  }
}
