/**
 * The field detail route's lookup in the cached field list:
 *
 *   the first element of the list comprehension that keeps the fields whose
 *   `id` equals the requested id.
 *
 * The comprehension reads `f['id']` of every element, so an element without
 * an id raises even when an earlier element matched; indexing the empty
 * result raises IndexError. Iterating something other than a list yields
 * its characters or keys, which are strings and cannot be indexed by 'id'.
 */
module FieldLookup {
  import opened Values

  const IdKey := "id"

  /** The field's id entry equals the requested id (Python's `==` between a
      value and a string holds only for an equal string). */
  predicate HasId(f: Value, fieldId: string)
  {
    Index(f, IdKey) == Ok(Str(fieldId))
  }

  /** Every element can be indexed by 'id'. */
  predicate AllHaveIds(xs: seq<Value>)
  {
    forall i :: 0 <= i < |xs| ==> Index(xs[i], IdKey).Ok?
  }

  /** The comprehension over a list, evaluated left to right. */
  function Matching(xs: seq<Value>, fieldId: string): (r: Result<seq<Value>>)
    ensures r.Ok? <==> AllHaveIds(xs)
    ensures r.Ok? ==> forall k :: 0 <= k < |r.value| ==> HasId(r.value[k], fieldId) && r.value[k] in xs
    ensures r.Ok? ==> (r.value == [] <==> forall i :: 0 <= i < |xs| ==> !HasId(xs[i], fieldId))
  {
    if xs == [] then Ok([])
    else
      match Index(xs[0], IdKey)
      case Err(e) => Err(e)
      case Ok(id) =>
        match Matching(xs[1..], fieldId)
        case Err(e) => Err(e)
        case Ok(rest) =>
          assert forall i :: 1 <= i < |xs| ==> xs[i] == xs[1..][i - 1];
          Ok(if id == Str(fieldId) then [xs[0]] + rest else rest)
  }

  /** The field detail route's lookup: the first cached field whose id is
      the requested one, or the exception the comprehension or the index raises. */
  function FieldById(fields: Value, fieldId: string): (r: Result<Value>)
    ensures r.Ok? ==> fields.Arr? && r.value in fields.items && HasId(r.value, fieldId)
    ensures fields.Arr? && AllHaveIds(fields.items) ==>
              (r == Err(IndexError) <==> forall i :: 0 <= i < |fields.items| ==> !HasId(fields.items[i], fieldId))
    ensures fields.Arr? && AllHaveIds(fields.items) ==> r.Ok? || r == Err(IndexError)
    ensures fields.Null? || fields.Bool? || fields.Int? ==> r == Err(TypeError)
  {
    match fields
    case Arr(xs) =>
      (match Matching(xs, fieldId)
       case Err(e) => Err(e)
       case Ok(found) => if found == [] then Err(IndexError) else Ok(found[0]))
    case Str(s) => if s == "" then Err(IndexError) else Err(TypeError)
    case Obj(m) => if m == map[] then Err(IndexError) else Err(TypeError)
    case _ => Err(TypeError)
  }

  /** The lookup returns the FIRST field with the requested id. */
  lemma {:induction false} MatchingStartsWithFirst(xs: seq<Value>, fieldId: string, i: int)
    requires AllHaveIds(xs)
    requires 0 <= i < |xs| && HasId(xs[i], fieldId)
    requires forall j :: 0 <= j < i ==> !HasId(xs[j], fieldId)
    ensures Matching(xs, fieldId).Ok? && Matching(xs, fieldId).value != []
    ensures Matching(xs, fieldId).value[0] == xs[i]
  {
    if i > 0 {
      assert AllHaveIds(xs[1..]) by {
        forall k | 0 <= k < |xs[1..]| ensures Index(xs[1..][k], IdKey).Ok? {
          assert xs[1..][k] == xs[k + 1];
        }
      }
      MatchingStartsWithFirst(xs[1..], fieldId, i - 1);
    }
  }

  lemma FirstFieldWithId(xs: seq<Value>, fieldId: string, i: int)
    requires AllHaveIds(xs)
    requires 0 <= i < |xs| && HasId(xs[i], fieldId)
    requires forall j :: 0 <= j < i ==> !HasId(xs[j], fieldId)
    ensures FieldById(Arr(xs), fieldId) == Ok(xs[i])
  {
    MatchingStartsWithFirst(xs, fieldId, i);
  }

  /** When the elements before it all have ids, the first element without
      one decides the exception raised, whatever follows it. */
  lemma {:induction false} MatchingRaisesAtFirstMissingId(xs: seq<Value>, fieldId: string, i: int)
    requires 0 <= i < |xs| && Index(xs[i], IdKey).Err?
    requires forall j :: 0 <= j < i ==> Index(xs[j], IdKey).Ok?
    ensures Matching(xs, fieldId) == Err(Index(xs[i], IdKey).error)
  {
    if i > 0 {
      assert xs[1..][i - 1] == xs[i];
      assert forall j :: 0 <= j < i - 1 ==> xs[1..][j] == xs[j + 1];
      MatchingRaisesAtFirstMissingId(xs[1..], fieldId, i - 1);
    }
  }

  /** A matching field does not save the lookup from a later field that has
      no id: `[{'id': 'a'}, {}]` looked up for 'a' raises KeyError. */
  lemma LaterFieldWithoutIdRaises()
    ensures FieldById(Arr([Obj(map[IdKey := Str("a")]), Obj(map[])]), "a") == Err(KeyError(IdKey))
  {
    var xs := [Obj(map[IdKey := Str("a")]), Obj(map[])];
    MatchingRaisesAtFirstMissingId(xs, "a", 1);
  }

  /** The list [{id: "a"}, {id: "b"}] looked up for "b" gives the second record. */
  lemma LookupSecondOfTwo(a: map<string, Value>, b: map<string, Value>)
    requires IdKey in a && a[IdKey] == Str("a")
    requires IdKey in b && b[IdKey] == Str("b")
    ensures FieldById(Arr([Obj(a), Obj(b)]), "b") == Ok(Obj(b))
  {
    FirstFieldWithId([Obj(a), Obj(b)], "b", 1);
  }
}
