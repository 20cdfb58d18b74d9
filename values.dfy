// The runtime objects of lib/rlox/function.rb, lib/rlox/class.rb,
// lib/rlox/instance.rb and lib/rlox/return.rb, together with the clock
// native of lib/rlox/interpreter.rb. Objects that Ruby compares by
// identity (functions, classes, instances) carry an id handed out once per
// object, so that value equality below is Ruby's `==`.
module Values {
  import opened Wrappers
  import opened Tokens
  import opened Errors
  import opened Ast

  /** RLox::Class. The interpreter passes a method table as a second
      constructor argument that the one-argument constructor does not
      accept; the evident intent is a class that keeps its name, and since
      nothing in this version looks methods up, the table is not kept. */
  datatype LoxClass = LoxClass(id: nat, name: string)

  datatype Value =
    | Nil
    | Bool(b: bool)
    | Num(n: real)
    | Str(s: string)
      /** RLox::Function. The interpreter also passes the defining
          environment, which the one-argument constructor does not accept;
          `call` never uses a closure, so none is kept. */
    | Fn(id: nat, declaration: FunctionDecl)
    | Cls(klass: LoxClass)
      /** RLox::Instance; its fields live in the interpreter's heap under `id`. */
    | Inst(id: nat, klass: LoxClass)
      /** The `clock` native. */
    | Clock

  /** The value a Ruby `Return` carries out of a function body. */
  datatype Return = Returning(value: Value)

  /** `callable?`: defined, and true, for functions, classes and the clock
      only. For every other value the source would fail with NoMethodError;
      the evident intent is that they are not callable. */
  predicate Callable(v: Value)
  {
    v.Fn? || v.Cls? || v.Clock?
  }

  /** `arity`: the parameter count of a function, 0 for a class and for the clock. */
  function Arity(v: Value): nat
    requires Callable(v)
  {
    if v.Fn? then |v.declaration.params| else 0
  }

  /** `to_s` of the runtime objects. */
  function ObjectText(v: Value): string
    requires v.Fn? || v.Cls? || v.Inst? || v.Clock?
  {
    match v
    case Fn(_, declaration) => "<fn " + declaration.name.lexeme + ">"
    case Cls(klass) => klass.name
    case Inst(_, klass) => klass.name + " instance"
    case Clock => "<native fn>"
  }

  /** Instance#to_s names its class, and the class prints as its bare name:
      the two are never the same text. */
  lemma InstanceTextNamesClass(id: nat, klass: LoxClass)
    ensures ObjectText(Inst(id, klass)) == ObjectText(Cls(klass)) + " instance"
    ensures ObjectText(Inst(id, klass)) != ObjectText(Cls(klass))
  {
    assert |ObjectText(Inst(id, klass))| > |ObjectText(Cls(klass))|;
  }

  // ---------------------------------------------------------------------
  // Instance fields. The interpreter calls `get` and `set` on instances,
  // which this version of Instance does not define; the evident intent is
  // a table of fields: `get` reads a field and fails for a missing one,
  // `set` writes or creates one.

  type Fields = map<string, Value>

  function UndefinedProperty(name: Token): LoxError
  {
    LoxError(name, "Undefined property '" + name.lexeme + "'.")
  }

  function GetField(fields: Fields, name: Token): (r: Result<Value, LoxError>)
    ensures r.Ok? <==> name.lexeme in fields
    ensures r.Ok? ==> r.value == fields[name.lexeme]
    ensures r.Err? ==> r.error == UndefinedProperty(name)
  {
    if name.lexeme in fields then Ok(fields[name.lexeme]) else Err(UndefinedProperty(name))
  }

  function SetField(fields: Fields, name: Token, value: Value): (r: Fields)
    ensures r.Keys == fields.Keys + {name.lexeme}
  {
    fields[name.lexeme := value]
  }

  /** A field reads back as the value last written to it; other fields keep theirs. */
  lemma SetThenGet(fields: Fields, name: Token, other: Token, value: Value)
    ensures GetField(SetField(fields, name, value), name) == Ok(value)
    ensures other.lexeme != name.lexeme ==> GetField(SetField(fields, name, value), other) == GetField(fields, other)
  {
  }
}
