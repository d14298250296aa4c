/**
 * The values Python's `json` module decodes and encodes, as the chartibot
 * webhook sees them. `json.loads` and `json.dumps` themselves are library code
 * and are passed to the model as functions; only how their values are read
 * (dict lookup with a default, truthiness, iteration) is defined here.
 */
module JsonValues {
  import opened Wrappers

  /**
   * A decoded JSON value. An object keeps its members in text order, as the
   * dict that `json.loads` builds remembers insertion order.
   */
  datatype Json =
    | Null
    | Bool(b: bool)
    | Number(n: real)
    | Str(s: string)
    | Arr(items: seq<Json>)
    | Obj(members: seq<(string, Json)>)

  /**
   * Where a Python dict built from `members` takes its value for `key`: when
   * a name repeats, the later pair overwrites the earlier one, so this is the
   * LAST member with that name, or -1 when there is none.
   */
  function LastIndex(members: seq<(string, Json)>, key: string): (i: int)
    ensures -1 <= i < |members|
    ensures i == -1 <==> forall k | 0 <= k < |members| :: members[k].0 != key
    ensures i >= 0 ==> members[i].0 == key && forall k | i < k < |members| :: members[k].0 != key
  {
    if members == [] then -1
    else if members[|members| - 1].0 == key then |members| - 1
    else LastIndex(members[..|members| - 1], key)
  }

  /** The value the dict decoded from `members` holds under `key`. */
  function Lookup(members: seq<(string, Json)>, key: string): (r: Option<Json>)
  {
    var i := LastIndex(members, key);
    if i < 0 then None else Some(members[i].1)
  }

  /** The member names of an object, in text order. */
  function Names(members: seq<(string, Json)>): (ns: seq<string>)
    ensures |ns| == |members|
    ensures forall i | 0 <= i < |members| :: ns[i] == members[i].0
  {
    seq(|members|, i requires 0 <= i < |members| => members[i].0)
  }

  /** No name occurs twice, as in an object the program builds itself. */
  predicate DistinctNames(members: seq<(string, Json)>) {
    forall i, j | 0 <= i < j < |members| :: members[i].0 != members[j].0
  }

  /** With distinct names, each member is found under its own name. */
  lemma LookupDistinct(members: seq<(string, Json)>, i: nat)
    requires DistinctNames(members) && i < |members|
    ensures Lookup(members, members[i].0) == Some(members[i].1)
  {
    assert LastIndex(members, members[i].0) >= i;
  }

  /**
   * An object with distinct names is fixed by its names in order and the
   * value found under each: two such objects are the same member list, and
   * so serialise alike.
   */
  lemma NamesAndLookupsDetermine(m1: seq<(string, Json)>, m2: seq<(string, Json)>)
    requires Names(m1) == Names(m2) && DistinctNames(m1)
    requires forall i | 0 <= i < |m1| :: Lookup(m1, m1[i].0) == Lookup(m2, m1[i].0)
    ensures m1 == m2
  {
    assert |m1| == |Names(m1)| == |Names(m2)| == |m2|;
    assert forall i | 0 <= i < |m1| :: m1[i].0 == Names(m1)[i] == Names(m2)[i] == m2[i].0;
    forall i | 0 <= i < |m1|
      ensures m1[i] == m2[i]
    {
      LookupDistinct(m1, i);
      LookupDistinct(m2, i);
    }
  }

  /** Python's `d.get(key, default)` on a dict decoded from `members`. */
  function GetOr(members: seq<(string, Json)>, key: string, default: Json): Json
  {
    match Lookup(members, key)
    case Some(v) => v
    case None => default
  }

  /** Python's truth value of a decoded value (`if body:`). */
  predicate Truthy(j: Json) {
    match j
    case Null => false
    case Bool(b) => b
    case Number(n) => n != 0.0
    case Str(s) => s != ""
    case Arr(items) => items != []
    case Obj(members) => members != []
  }

  /**
   * The elements a Python `for` visits when it iterates over `j`: a list
   * gives its items, a dict its keys (as strings), a string its characters
   * (as one-character strings); null, booleans and numbers are not iterable.
   */
  function Iterated(j: Json): (r: Option<seq<Json>>)
  {
    match j
    case Arr(items) => Some(items)
    case Obj(members) => Some(seq(|members|, k requires 0 <= k < |members| => Str(members[k].0)))
    case Str(s) => Some(seq(|s|, k requires 0 <= k < |s| => Str([s[k]])))
    case _ => None
  }
}
