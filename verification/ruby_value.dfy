/**
 The Ruby values the gateway handles: option values, card attributes and the
 bodies that JSON parsing produces (objects become hashes with string keys,
 `null` becomes `nil`). Floating-point numbers are not modelled.
 */
module RubyValue {
  import opened Wrappers
  import opened RubyHash

  datatype Value =
    | Nil
    | Bool(b: bool)
    | Int(i: int)
    | Str(s: string)
    | Arr(items: seq<Value>)
    | Obj(fields: Hash<Value>)

  /** The exceptions the modelled code can raise. */
  datatype RubyError =
    | NoMethodError   // `[]` sent to nil, true or false
    | TypeError       // `[]` with a String argument sent to an Integer or an Array
    | ArgumentError(message: string)

  /** Ruby truthiness: only `nil` and `false` are falsy. */
  predicate Truthy(v: Value) {
    !(v.Nil? || v == Bool(false))
  }

  /** `a || b`: the first operand when it is truthy, otherwise the second. */
  function Or(a: Value, b: Value): (r: Value)
    ensures Truthy(a) ==> r == a
    ensures !Truthy(a) ==> r == b
  {
    if Truthy(a) then a else b
  }

  /** `h[k]` on a Hash: the stored value, or `nil` when `k` is absent. */
  function Lookup(h: Hash<Value>, k: string): Value {
    Get(h, k).GetOr(Nil)
  }

  /** `nil` read as an absent optional field. */
  function Nilable(v: Value): (r: Option<Value>)
    ensures r == None <==> v == Nil
    ensures r.Some? ==> r.value == v
  {
    if v.Nil? then None else Some(v)
  }

  /** `sub` occurs as a contiguous part of `s`. */
  predicate Occurs(sub: string, s: string)
    decreases |s|
  {
    if |sub| > |s| then false
    else if sub <= s then true
    else Occurs(sub, s[1..])
  }

  /** The search finds `sub` exactly when some suffix of `s` starts with it. */
  lemma {:induction false} OccursIffSomeSuffix(sub: string, s: string)
    ensures Occurs(sub, s) <==> exists i :: 0 <= i <= |s| && sub <= s[i..]
    decreases |s|
  {
    if |sub| > |s| {
      forall i | 0 <= i <= |s|
        ensures !(sub <= s[i..])
      {
      }
    } else if sub <= s {
      assert s[0..] == s;
    } else {
      OccursIffSomeSuffix(sub, s[1..]);
      if Occurs(sub, s) {
        var i :| 0 <= i <= |s| - 1 && sub <= s[1..][i..];
        assert s[1..][i..] == s[i + 1..];
      } else {
        forall i | 0 <= i <= |s|
          ensures !(sub <= s[i..])
        {
          if i > 0 {
            assert s[1..][i - 1..] == s[i..];
          } else {
            assert s[0..] == s;
          }
        }
      }
    }
  }

  /**
   `recv[key]` for a String key and a receiver of any parsed shape: a Hash
   looks the key up, a String returns the key when it occurs in it (String#[]),
   and every other receiver raises.
   */
  function Index(recv: Value, key: string): (r: Result<Value, RubyError>)
    ensures r.Success? <==> recv.Obj? || recv.Str?
    ensures recv.Obj? ==> r == Success(Lookup(recv.fields, key))
    ensures recv.Str? ==>
      r.value == if exists i :: 0 <= i <= |recv.s| && key <= recv.s[i..] then Str(key) else Nil
    ensures recv.Nil? || recv.Bool? ==> r == Failure(NoMethodError)
    ensures recv.Int? || recv.Arr? ==> r == Failure(TypeError)
  {
    match recv
    case Obj(fields) => Success(Lookup(fields, key))
    case Str(s) =>
      OccursIffSomeSuffix(key, s);
      Success(if Occurs(key, s) then Str(key) else Nil)
    case Int(_) => Failure(TypeError)
    case Arr(_) => Failure(TypeError)
    case Nil => Failure(NoMethodError)
    case Bool(_) => Failure(NoMethodError)
  }
}
