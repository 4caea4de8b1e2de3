/**
 * Document values as the backend sees them after `to_dict()`, and the
 * outcome of resolving a bearer token to a user (`get_user_details`).
 */
module Firestore {
  import opened Wrappers

  /** A field value of a Firestore document. */
  datatype Value =
    | Null
    | Bool(b: bool)
    | Num(n: int)            // integers only: floating-point amounts are not modelled
    | Str(s: string)
    | Time(iso: string)      // a datetime, represented by what its isoformat() returns
    | ServerTimestamp        // the SERVER_TIMESTAMP sentinel, resolved by the store on write
    | Arr(elems: seq<Value>)
    | Obj(fields: map<string, Value>)

  /** A document, or any JSON-like dictionary, keyed by field name. */
  type Doc = map<string, Value>

  /** Python's type name for a value, as error messages print it. */
  function TypeName(v: Value): string
  {
    match v
    case Null => "NoneType"
    case Bool(_) => "bool"
    case Num(_) => "int"
    case Str(_) => "str"
    case Time(_) => "DatetimeWithNanoseconds"
    case ServerTimestamp => "Sentinel"
    case Arr(_) => "list"
    case Obj(_) => "dict"
  }

  /**
   * `json.dumps` accepts the value: no datetime and no sentinel occurs in
   * it at any depth.
   */
  predicate JsonEncodable(v: Value)
    ensures v.Time? || v.ServerTimestamp? ==> !JsonEncodable(v)
    ensures v.Null? || v.Bool? || v.Num? || v.Str? ==> JsonEncodable(v)
  {
    match v
    case Time(_) => false
    case ServerTimestamp => false
    case Arr(es) => forall i :: 0 <= i < |es| ==> JsonEncodable(es[i])
    case Obj(fs) => forall k :: k in fs ==> JsonEncodable(fs[k])
    case _ => true
  }

  /** A datetime occurs in the value at some depth. */
  predicate HoldsTime(v: Value)
  {
    match v
    case Time(_) => true
    case Arr(es) => exists i :: 0 <= i < |es| && HoldsTime(es[i])
    case Obj(fs) => exists k :: k in fs && HoldsTime(fs[k])
    case _ => false
  }

  /** The SERVER_TIMESTAMP sentinel occurs in the value at some depth. */
  predicate HoldsSentinel(v: Value)
  {
    match v
    case ServerTimestamp => true
    case Arr(es) => exists i :: 0 <= i < |es| && HoldsSentinel(es[i])
    case Obj(fs) => exists k :: k in fs && HoldsSentinel(fs[k])
    case _ => false
  }

  /** A value fails to encode exactly when a datetime or a sentinel occurs in it. */
  lemma {:induction false} UnencodableHoldsAtom(v: Value)
    ensures !JsonEncodable(v) <==> HoldsTime(v) || HoldsSentinel(v)
  {
    match v
    case Arr(es) =>
      forall i | 0 <= i < |es| {
        UnencodableHoldsAtom(es[i]);
      }
    case Obj(fs) =>
      forall k | k in fs {
        UnencodableHoldsAtom(fs[k]);
      }
    case _ =>
  }

  /** `str(TypeError)` of `json.dumps` for a value of Python class `name`. */
  function NotSerializableText(name: string): (t: string)
    ensures |t| == |name| + 40
    ensures t[..15] == "Object of type " && t[15..15 + |name|] == name
    ensures t[15 + |name|..] == " is not JSON serializable"
  {
    "Object of type " + name + " is not JSON serializable"
  }

  /**
   * The text `json.dumps` raises for a value it cannot encode. A document
   * read from the store holds datetimes but never the sentinel, so the
   * datetime's class is the one named whenever a datetime occurs.
   */
  function EncodeErrorText(v: Value): (t: string)
    ensures HoldsTime(v) ==> t == NotSerializableText(TypeName(Time("")))
    ensures !HoldsTime(v) ==> t == NotSerializableText(TypeName(ServerTimestamp))
  {
    NotSerializableText(if HoldsTime(v) then "DatetimeWithNanoseconds" else "Sentinel")
  }

  /** Without a sentinel, a value that cannot be encoded is reported as a datetime. */
  lemma UnencodableReadNamesDatetime(v: Value)
    requires !JsonEncodable(v) && !HoldsSentinel(v)
    ensures EncodeErrorText(v) == NotSerializableText("DatetimeWithNanoseconds")
  {
    UnencodableHoldsAtom(v);
  }

  /** Python's `d.get(k)`, keeping "absent" apart from an explicit null. */
  function Lookup(d: Doc, k: string): (r: Option<Value>)
    ensures r.Some? <==> k in d
    ensures r.Some? ==> r.value == d[k]
  {
    if k in d then Some(d[k]) else None
  }

  /** Python's `d.get(k)` as JSON renders it: an absent field is null. */
  function GetOrNull(d: Doc, k: string): (v: Value)
    ensures k !in d ==> v == Null
    ensures k in d ==> v == d[k]
  {
    Lookup(d, k).GetOr(Null)
  }

  /**
   * What `get_user_details` returns: the user's profile document and uid
   * when the token verifies and the profile exists, nothing otherwise.
   */
  type UserLookup = Option<(Doc, string)>

  /**
   * The handlers' `if not user_data` test passes: a user was found and the
   * profile is not an empty dictionary (an empty dict is falsy in Python).
   */
  predicate Authorised(user: UserLookup)
    ensures Authorised(user) ==> user.Some?
    ensures user.Some? && user.value.0 == map[] ==> !Authorised(user)
  {
    user.Some? && user.value.0 != map[]
  }

  function Uid(user: UserLookup): string
    requires user.Some?
  {
    user.value.1
  }

  /** `user_data.get("college_id")`, null when the profile has none. */
  function CollegeOf(user: UserLookup): (v: Value)
    requires user.Some?
    ensures "college_id" in user.value.0 ==> v == user.value.0["college_id"]
    ensures "college_id" !in user.value.0 ==> v == Null
  {
    GetOrNull(user.value.0, "college_id")
  }
}
