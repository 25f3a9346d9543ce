/** Parsed JSON values. */
module JsonValues {
  import opened Basics

  /** Python's parser also reads the words NaN, Infinity and -Infinity as numbers. */
  datatype Json =
    | Null | Bool(flag: bool) | Num(number: real) | NotANumber | Infinity(negative: bool)
    | Str(text: string) | Arr(items: seq<Json>) | Obj(fields: seq<Field>)

  datatype Field = Field(key: string, value: Json)

  /** `d.get(key)` on an object; keys are unique. */
  function Lookup(fields: seq<Field>, key: string): Option<Json> {
    if fields == [] then None else if fields[0].key == key then Some(fields[0].value) else Lookup(fields[1..], key)
  }

  function LookupOr(fields: seq<Field>, key: string, default: Json): Json {
    var found := Lookup(fields, key);
    if found.Some? then found.value else default
  }

  /** A lookup finds the first field of the name. */
  lemma {:induction false} LookupExactly(fields: seq<Field>, key: string, n: nat)
    ensures n < |fields| && fields[n].key == key && (forall k | 0 <= k < n :: fields[k].key != key) ==>
              Lookup(fields, key) == Some(fields[n].value)
    ensures Lookup(fields, key) == None <==> forall k | 0 <= k < |fields| :: fields[k].key != key
  {
    if fields == [] {
    } else {
      assert forall k | 0 < k < |fields| :: fields[k] == fields[1..][k - 1];
      LookupExactly(fields[1..], key, if n == 0 then 0 else n - 1);
    }
  }

  /** Python's truth value. */
  predicate Truthy(j: Json) {
    match j
    case Null => false
    case Bool(flag) => flag
    case Num(number) => number != 0.0
    case NotANumber => true
    case Infinity(_) => true
    case Str(text) => text != ""
    case Arr(items) => items != []
    case Obj(fields) => fields != []
  }

  /** `a or b`. */
  function Or(a: Json, b: Json): Json { if Truthy(a) then a else b }
}
