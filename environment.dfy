// lib/rlox/environment.rb: one frame of variable bindings. The frame
// operations are stated first on a plain map, then the class Environment
// performs them in place on its `values`.
//
// This version of Environment has no parent link and no `get_at` or
// `assign_at`, although the interpreter creates frames with a parent and
// looks variables up by distance. The evident intent, modelled here, is an
// optional `enclosing` frame, and `get_at`/`assign_at` that walk exactly
// `distance` parent links and then read or write that frame's own table.
module Environments {
  import opened Wrappers
  import opened Tokens
  import opened Errors
  import opened Values

  type Frame = map<string, Value>

  function UndefinedVariable(name: Token): LoxError
  {
    LoxError(name, "Undefined variable '" + name.lexeme + "'.")
  }

  /** `define`: binds the name whether or not it was bound already. */
  function Defined(frame: Frame, name: string, value: Value): (r: Frame)
    ensures r.Keys == frame.Keys + {name}
  {
    frame[name := value]
  }

  /** `get`: the value bound to the token's lexeme in this frame only. */
  function Lookup(frame: Frame, name: Token): (r: Result<Value, LoxError>)
    ensures r.Ok? <==> name.lexeme in frame
    ensures r.Ok? ==> r.value == frame[name.lexeme]
    ensures r.Err? ==> r.error == UndefinedVariable(name)
  {
    if name.lexeme in frame then Ok(frame[name.lexeme]) else Err(UndefinedVariable(name))
  }

  /** `assign`: rebinds a name the frame already has, and fails otherwise. */
  function Assigned(frame: Frame, name: Token, value: Value): (r: Result<Frame, LoxError>)
    ensures r.Ok? <==> name.lexeme in frame
    ensures r.Ok? ==> r.value.Keys == frame.Keys && r.value[name.lexeme] == value
    ensures r.Err? ==> r.error == UndefinedVariable(name)
  {
    if name.lexeme in frame then Ok(frame[name.lexeme := value]) else Err(UndefinedVariable(name))
  }

  /** What `get_at` finds in the frame it walked to: a Ruby hash read, nil
      for a name the frame lacks. */
  function ValueOrNil(frame: Frame, name: string): Value
  {
    if name in frame then frame[name] else Value.Nil
  }

  /** define then get on the same name yields the defined value. */
  lemma DefineThenGet(frame: Frame, name: Token, value: Value)
    ensures Lookup(Defined(frame, name.lexeme, value), name) == Ok(value)
  {
  }

  /** define and assign leave every other name as it was. */
  lemma OthersUnchanged(frame: Frame, name: Token, other: string, value: Value)
    requires other != name.lexeme
    ensures other in Defined(frame, name.lexeme, value) <==> other in frame
    ensures other in frame ==> Defined(frame, name.lexeme, value)[other] == frame[other]
    ensures Assigned(frame, name, value).Ok? ==>
      (other in Assigned(frame, name, value).value <==> other in frame)
      && (other in frame ==> Assigned(frame, name, value).value[other] == frame[other])
  {
  }

  /** Redefining a name replaces its value as if the first definition had
      not happened. */
  lemma RedefineReplaces(frame: Frame, name: string, first: Value, second: Value)
    ensures Defined(Defined(frame, name, first), name, second) == Defined(frame, name, second)
  {
  }

  /** Assigning an unknown name fails with the token and inserts nothing;
      assigning a known one is a define of it. */
  lemma AssignIsDefineOfKnownName(frame: Frame, name: Token, value: Value)
    ensures name.lexeme !in frame ==> Assigned(frame, name, value) == Err(UndefinedVariable(name))
    ensures name.lexeme in frame ==> Assigned(frame, name, value) == Ok(Defined(frame, name.lexeme, value))
  {
  }

  class Environment {
    var values: Frame
    const enclosing: Environment?
    /** The frames reached by following `enclosing`, nearest first. */
    ghost const ancestors: seq<Environment>

    /** The parent chain is finite and `ancestors` lists it. */
    ghost predicate Linked()
      decreases |ancestors|
    {
      if enclosing == null then ancestors == []
      else
        && |ancestors| > 0 && ancestors[0] == enclosing && enclosing.ancestors == ancestors[1..]
        && enclosing.Linked()
    }

    /** The frame `distance` parent links away. */
    ghost function Ancestor(distance: nat): Environment
      requires distance <= |ancestors|
    {
      if distance == 0 then this else ancestors[distance - 1]
    }

    constructor (enclosing: Environment?)
      requires enclosing == null || enclosing.Linked()
      ensures Linked() && values == map[] && this.enclosing == enclosing
    {
      this.values := map[];
      this.enclosing := enclosing;
      this.ancestors := if enclosing == null then [] else [enclosing] + enclosing.ancestors;
    }

    /** Walking one more link from the frame `distance` away reaches the
        frame `distance + 1` away, and every frame on the chain is linked. */
    lemma {:induction false} AncestorStep(distance: nat)
      requires Linked() && distance < |ancestors|
      ensures Ancestor(distance).enclosing == Ancestor(distance + 1)
      ensures Ancestor(distance + 1).Linked()
      ensures Ancestor(distance + 1).ancestors == ancestors[distance + 1..]
      decreases |ancestors|
    {
      if distance > 0 {
        enclosing.AncestorStep(distance - 1);
        assert enclosing.ancestors[distance - 1..] == ancestors[distance..];
      }
    }

    method Define(name: string, value: Value)
      modifies this`values
      ensures values == Defined(old(values), name, value)
    {
      values := values[name := value];
    }

    /** `get` looks in this frame only, as written; it does not consult the
        enclosing frames. */
    method Get(name: Token) returns (r: Result<Value, LoxError>)
      ensures r == Lookup(values, name)
    {
      if name.lexeme in values {
        return Ok(values[name.lexeme]);
      }
      return Err(UndefinedVariable(name));
    }

    /** `assign`, also on this frame only. */
    method Assign(name: Token, value: Value) returns (r: Result<(), LoxError>)
      modifies this`values
      ensures r.Ok? <==> Assigned(old(values), name, value).Ok?
      ensures values == if r.Ok? then Assigned(old(values), name, value).value else old(values)
      ensures r.Err? ==> r.error == UndefinedVariable(name)
    {
      if name.lexeme in values {
        values := values[name.lexeme := value];
        return Ok(());
      }
      return Err(UndefinedVariable(name));
    }

    /** Walks exactly `distance` parent links. */
    method AncestorAt(distance: nat) returns (env: Environment)
      requires Linked() && distance <= |ancestors|
      ensures env == Ancestor(distance)
    {
      env := this;
      var i := 0;
      while i < distance
        invariant i <= distance && env == Ancestor(i)
      {
        AncestorStep(i);
        env := env.enclosing;
        i := i + 1;
      }
    }

    /** `get_at`: the binding in the frame `distance` links away, and no
        further. */
    method GetAt(distance: nat, name: string) returns (value: Value)
      requires Linked() && distance <= |ancestors|
      ensures value == ValueOrNil(Ancestor(distance).values, name)
    {
      var env := AncestorAt(distance);
      value := if name in env.values then env.values[name] else Value.Nil;
    }

    /** `assign_at`: writes into the frame `distance` links away, and into
        no other frame. */
    method AssignAt(distance: nat, name: Token, value: Value)
      requires Linked() && distance <= |ancestors|
      modifies Ancestor(distance)`values
      ensures Ancestor(distance).values == Defined(old(Ancestor(distance).values), name.lexeme, value)
    {
      var env := AncestorAt(distance);
      env.Define(name.lexeme, value);
    }
  }
}
