/**
 * Laws of the runtime objects: what a lookup sees after a definition, how a
 * call binds its parameters, and how fields and methods share a name space.
 */
module RuntimeLaws {
  import opened Lexicon
  import opened Runtime

  /** After `define(n, v)`, `get(n)` finds `v`, whether or not `n` was bound before. */
  lemma DefineThenGet(values: map<string, Object>, name: Token, value: Object)
    ensures LookupIn(values[name.lexeme := value], name) == Found(value)
  {
  }

  /** `define(n, v)` leaves the lookup of every other name as it was, found or undefined. */
  lemma DefineKeepsOthers(values: map<string, Object>, key: string, value: Object, other: Token)
    requires other.lexeme != key
    ensures LookupIn(values[key := value], other) == LookupIn(values, other)
  {
  }

  /** A repeated parameter name is bound to the argument of its last occurrence. */
  lemma {:induction false} LastBindingWins(params: seq<Token>, arguments: seq<Object>, i: nat)
    requires |params| <= |arguments| && i < |params|
    requires forall j | i < j < |params| :: params[j].lexeme != params[i].lexeme
    ensures Bindings(params, arguments)[params[i].lexeme] == arguments[i]
    decreases |params|
  {
    var n := |params| - 1;
    if i < n {
      assert params[..n][i] == params[i];
      LastBindingWins(params[..n], arguments, i);
    }
  }

  /** With distinct parameter names, each parameter is bound to the argument at its own index. */
  lemma {:induction false} BindingsByIndex(params: seq<Token>, arguments: seq<Object>)
    requires |params| <= |arguments|
    requires forall i, j | 0 <= i < j < |params| :: params[i].lexeme != params[j].lexeme
    ensures forall i | 0 <= i < |params| :: Bindings(params, arguments)[params[i].lexeme] == arguments[i]
  {
    forall i | 0 <= i < |params|
      ensures Bindings(params, arguments)[params[i].lexeme] == arguments[i]
    {
      LastBindingWins(params, arguments, i);
    }
  }

  /** A field hides a method of the same name. */
  lemma FieldsShadowMethods(fields: map<string, Object>, klass: LoxClass, receiver: LoxInstance, name: Token)
    requires name.lexeme in fields && name.lexeme in klass.methods
    ensures PropertyOf(fields, klass, receiver, name) == Found(fields[name.lexeme])
  {
  }

  /** After `set(n, v)` with a non-nil `v`, `get(n)` finds `v` and every other property reads as before. */
  lemma SetThenGet(fields: map<string, Object>, klass: LoxClass, receiver: LoxInstance, name: Token, value: Object, other: Token)
    requires other.lexeme != name.lexeme
    ensures PropertyOf(fields[name.lexeme := value], klass, receiver, name) == Found(value)
    ensures PropertyOf(fields[name.lexeme := value], klass, receiver, other) == PropertyOf(fields, klass, receiver, other)
  {
  }
}
