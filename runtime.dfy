/**
 * The runtime objects the parser's output feeds: class instances with their
 * field tables, and user functions with their closures. Environments, which
 * are not part of this model, are given the least shape these objects need:
 * a table of names and an optional enclosing environment.
 */
module Runtime {
  import opened Tokens
  import opened Ast

  /** A Lox value at run time (Java's Object). Numbers stay opaque. */
  datatype Value =
    | NilValue
    | BoolValue(b: bool)
    | NumberValue(n: real)
    | StringValue(s: string)
    | InstanceValue(instance: LoxInstance)
    | FunctionValue(fn: LoxFunction)
    | ClassValue(klass: LoxClass)

  /** A runtime error: the token it is reported at and its message. */
  datatype RuntimeError = RuntimeError(token: Token, message: string)

  /** A lookup either finds a value or raises a runtime error. */
  datatype Result<+T> = Success(value: T) | Failure(error: RuntimeError)

  /** A class, as far as its instances need it: its name. */
  class LoxClass {
    const name: string

    constructor (name: string)
      ensures this.name == name
    {
      this.name := name;
    }
  }

  /** A scope: the names defined in it and the scope it is nested in. */
  class Environment {
    var values: map<string, Value>
    const enclosing: Option<Environment>

    /** A new, empty scope inside `enclosing`. */
    constructor (enclosing: Option<Environment>)
      ensures values == map[] && this.enclosing == enclosing
    {
      values := map[];
      this.enclosing := enclosing;
    }

    /** `define`: bind the name in this scope, replacing an earlier binding of it. */
    method Define(name: string, value: Value)
      modifies this`values
      ensures values == old(values)[name := value]
    {
      values := values[name := value];
    }
  }

  /** An instance of a class: its class and its table of fields. */
  class LoxInstance {
    var klass: LoxClass
    var fields: map<string, Value>

    constructor (klass: LoxClass)
      ensures this.klass == klass && fields == map[]
    {
      this.klass := klass;
      fields := map[];
    }

    /** `toString`: the class name, then " instance". */
    function ToString(): (s: string)
      reads this
      ensures |s| == |klass.name| + 9
      ensures s[..|klass.name|] == klass.name && s[|klass.name|..] == " instance"
    {
      klass.name + " instance"
    }

    /**
     * `get`: the value of the field named by the token; a name that was
     * never set is a runtime error at that token.
     */
    function Get(name: Token): (r: Result<Value>)
      reads this
      ensures r.Success? <==> name.lexeme in fields
      ensures r.Success? ==> r.value == fields[name.lexeme]
      ensures r.Failure? ==> r.error == RuntimeError(name, UndefinedProperty(name.lexeme))
    {
      if name.lexeme in fields then Success(fields[name.lexeme])
      else Failure(RuntimeError(name, UndefinedProperty(name.lexeme)))
    }

    /**
     * `set`: store the value under the token's name, replacing what was
     * there; reading that name back yields the value, every other field
     * keeps its value, and the instance keeps its class.
     */
    method Set(name: Token, value: Value)
      modifies this`fields
      ensures fields == old(fields)[name.lexeme := value]
      ensures Get(name) == Success(value)
      ensures forall other: Token | other.lexeme != name.lexeme :: Get(other) == old(Get(other))
      ensures klass == old(klass)
    {
      fields := fields[name.lexeme := value];
    }
  }

  /** The message of the error `get` raises for a field that was never set. */
  function UndefinedProperty(name: string): (message: string)
    ensures |message| == |name| + 22
    ensures message[..20] == "Undefined property '" && message[20..20 + |name|] == name
    ensures message[20 + |name|..] == "'."
  {
    "Undefined property '" + name + "'."
  }

  /**
   * How the body of a called function finished: it ran to its end, it
   * returned a value (the Return exception), or it raised a runtime error,
   * which `call` does not catch.
   */
  datatype Completion = Normal | Returned(value: Value) | Raised(error: RuntimeError)

  /** A user function: its declaration and the environment it closes over. */
  class LoxFunction {
    const declaration: FunctionDecl
    const closure: Environment

    constructor (declaration: FunctionDecl, closure: Environment)
      ensures this.declaration == declaration && this.closure == closure
    {
      this.declaration := declaration;
      this.closure := closure;
    }

    /** `arity`: the number of declared parameters. */
    function Arity(): (n: nat)
      ensures n == |declaration.params|
    {
      |declaration.params|
    }

    /**
     * `bind`: the same declaration over a new environment, inside the
     * closure, in which "this" is the instance.
     */
    method Bind(instance: LoxInstance) returns (bound: LoxFunction)
      ensures fresh(bound) && fresh(bound.closure)
      ensures bound.declaration == declaration && bound.Arity() == Arity()
      ensures bound.closure.enclosing == Some(closure)
      ensures bound.closure.values == map["this" := InstanceValue(instance)]
    {
      var environment := new Environment(Some(closure));
      environment.Define("this", InstanceValue(instance));
      bound := new LoxFunction(declaration, environment);
    }

    /**
     * `call`: a new environment inside the closure (not the caller's
     * environment) binds each parameter to the argument at its position;
     * the body runs there, and the call yields what it returned, or nil
     * when it completed normally. The body's run is the `completion`
     * parameter; `environment` is the scope it ran in. A runtime error the
     * body raised passes out of the call unchanged.
     */
    method Call(arguments: seq<Value>, completion: Completion) returns (result: Result<Value>, environment: Environment)
      requires Arity() <= |arguments|
      ensures fresh(environment) && environment.enclosing == Some(closure)
      ensures environment.values == Bindings(declaration.params, arguments)
      ensures DistinctNames(declaration.params) ==>
        forall i | 0 <= i < |declaration.params| :: environment.values[declaration.params[i].lexeme] == arguments[i]
      ensures completion.Normal? ==> result == Success(NilValue)
      ensures completion.Returned? ==> result == Success(completion.value)
      ensures completion.Raised? ==> result == Failure(completion.error)
    {
      environment := new Environment(Some(closure));
      for i := 0 to |declaration.params|
        invariant fresh(environment) && environment.enclosing == Some(closure)
        invariant environment.values == Bindings(declaration.params[..i], arguments)
      {
        environment.Define(declaration.params[i].lexeme, arguments[i]);
        assert declaration.params[..i + 1][..i] == declaration.params[..i];
      }
      assert declaration.params[..|declaration.params|] == declaration.params;
      if DistinctNames(declaration.params) {
        DistinctBindings(declaration.params, arguments);
      }
      match completion
      case Returned(value) => result := Success(value);
      case Normal => result := Success(NilValue);
      case Raised(error) => result := Failure(error);
    }

    /** `toString`: "<fn name>". */
    function ToString(): (s: string)
      ensures |s| == |declaration.name.lexeme| + 5
      ensures s[..4] == "<fn " && s[4..|s| - 1] == declaration.name.lexeme && s[|s| - 1] == '>'
    {
      "<fn " + declaration.name.lexeme + ">"
    }
  }

  /**
   * The bindings `call` makes: the parameters defined one after another with
   * the arguments at their positions, a later parameter of the same name
   * replacing an earlier one.
   */
  function Bindings(params: seq<Token>, arguments: seq<Value>): (m: map<string, Value>)
    requires |params| <= |arguments|
    ensures m.Keys == set p | p in params :: p.lexeme
  {
    if params == [] then map[]
    else
      var last := |params| - 1;
      Bindings(params[..last], arguments)[params[last].lexeme := arguments[last]]
  }

  /** No two parameters have the same name. */
  predicate DistinctNames(params: seq<Token>) {
    forall i, j | 0 <= i < j < |params| :: params[i].lexeme != params[j].lexeme
  }

  /** A parameter that no later parameter shadows is bound to the argument at its position. */
  lemma {:induction false} LastBindingWins(params: seq<Token>, arguments: seq<Value>, i: nat)
    requires |params| <= |arguments| && i < |params|
    requires forall j | i < j < |params| :: params[j].lexeme != params[i].lexeme
    ensures params[i].lexeme in Bindings(params, arguments)
    ensures Bindings(params, arguments)[params[i].lexeme] == arguments[i]
    decreases |params|
  {
    var last := |params| - 1;
    if i < last {
      LastBindingWins(params[..last], arguments, i);
    }
  }

  /** With distinct names, every parameter is bound to the argument at its position. */
  lemma DistinctBindings(params: seq<Token>, arguments: seq<Value>)
    requires |params| <= |arguments| && DistinctNames(params)
    ensures forall i | 0 <= i < |params| :: Bindings(params, arguments)[params[i].lexeme] == arguments[i]
  {
    forall i | 0 <= i < |params|
      ensures Bindings(params, arguments)[params[i].lexeme] == arguments[i]
    {
      LastBindingWins(params, arguments, i);
    }
  }
}
