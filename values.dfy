/**
 * The untyped data that flows through the demo application: whatever the
 * external API client returns (token responses, user records, field lists,
 * attachments, continuation tokens) is JSON-shaped Python data. The
 * application never validates it; it only tests it for truth, compares it
 * and indexes it by key, and those three operations are modelled here with
 * Python's semantics, including the exceptions indexing raises.
 */
module Values {

  /** Python's `None` and the JSON-shaped values the API client returns. */
  datatype Value =
    | Null
    | Bool(b: bool)
    | Int(i: int)
    | Str(s: string)
    | Arr(items: seq<Value>)
    | Obj(entries: map<string, Value>)

  /** The exceptions the modelled code can raise. A call to the external API
      client may end in any of them; `Upstream` stands for an exception of any
      other class, such as a network failure inside the client. */
  datatype Error =
    | TypeError
    | KeyError(key: string)
    | IndexError
    | Upstream

  datatype Option<T> = None | Some(value: T)

  /** A value, or the exception raised while computing it. */
  datatype Result<T> = Ok(value: T) | Err(error: Error)

  /** Python's truth test (`if v:`): None, False, 0 and empty
      strings, lists and dicts are false, everything else is true. */
  predicate Truthy(v: Value)
    ensures Truthy(v) <==> v !in {Null, Bool(false), Int(0), Str(""), Arr([]), Obj(map[])}
  {
    match v
    case Null => false
    case Bool(b) => b
    case Int(i) => i != 0
    case Str(s) => s != ""
    case Arr(xs) => xs != []
    case Obj(m) => m != map[]
  }

  /** Python's `v[key]` for a string key: a dict yields the entry or raises
      KeyError; every other kind of value raises TypeError. */
  function Index(v: Value, key: string): (r: Result<Value>)
    ensures r.Ok? <==> v.Obj? && key in v.entries
    ensures r.Ok? ==> r.value == v.entries[key]
    ensures r.Err? && v.Obj? ==> r.error == KeyError(key)
    ensures !v.Obj? ==> r == Err(TypeError)
  {
    match v
    case Obj(m) => if key in m then Ok(m[key]) else Err(KeyError(key))
    case _ => Err(TypeError)
  }
}
