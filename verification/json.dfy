/** The semi-structured values the Notion client hands back (decoded JSON, as
    Python sees it) and Python's subscript operator on them, including the
    exception each malformed access raises. */
module Json {
  import opened Wrappers

  datatype Json =
    | Null
    | Bool(b: bool)
    | Num(n: int)
    | Str(s: string)
    | Arr(elems: seq<Json>)
    | Obj(fields: map<string, Json>)

  /** The exceptions an unguarded subscript raises in Python. */
  datatype Error =
    | KeyError(key: Json)   // dict without that key
    | IndexError            // list or str index out of range
    | TypeError             // subscript of a value that does not support that key type

  /** One subscript in a chain such as `item["properties"]["Title"]["title"][0]`. */
  datatype Step = Key(name: string) | At(index: nat)

  /** `v[name]` for a string key. */
  function Get(v: Json, name: string): (r: Result<Json, Error>)
    ensures r.Ok? <==> v.Obj? && name in v.fields
    ensures r.Ok? ==> r.value == v.fields[name]
    ensures v.Obj? && name !in v.fields ==> r == Err(KeyError(Str(name)))
    ensures !v.Obj? ==> r == Err(TypeError)
  {
    match v
    case Obj(fields) => if name in fields then Ok(fields[name]) else Err(KeyError(Str(name)))
    case _ => Err(TypeError)
  }

  /** `v[i]` for a non-negative integer index: lists and strings are indexed,
      a dict looks the integer up as a key (JSON objects only have string keys,
      so that always misses), and every other value rejects the subscript. */
  function Index(v: Json, i: nat): (r: Result<Json, Error>)
    ensures v.Arr? ==> (r.Ok? <==> i < |v.elems|)
    ensures v.Arr? && i < |v.elems| ==> r == Ok(v.elems[i])
    ensures (v.Arr? && i >= |v.elems|) || (v.Str? && i >= |v.s|) ==> r == Err(IndexError)
    ensures v.Str? && i < |v.s| ==> r == Ok(Str([v.s[i]]))
    ensures v.Obj? ==> r == Err(KeyError(Num(i)))
    ensures !(v.Arr? || v.Str? || v.Obj?) ==> r == Err(TypeError)
  {
    match v
    case Arr(elems) => if i < |elems| then Ok(elems[i]) else Err(IndexError)
    case Str(s) => if i < |s| then Ok(Str([s[i]])) else Err(IndexError)
    case Obj(_) => Err(KeyError(Num(i)))
    case _ => Err(TypeError)
  }

  function Apply(v: Json, step: Step): Result<Json, Error>
  {
    match step
    case Key(name) => Get(v, name)
    case At(i) => Index(v, i)
  }

  /** Evaluates a subscript chain left to right; the first failing subscript
      raises and the rest are never evaluated. */
  function Follow(v: Json, path: seq<Step>): Result<Json, Error>
    decreases |path|
  {
    if path == [] then Ok(v)
    else
      var w :- Apply(v, path[0]);
      Follow(w, path[1..])
  }

  /** Following `p + q` is following `p` and then, if that succeeded, `q`. */
  lemma {:induction false} FollowAppend(v: Json, p: seq<Step>, q: seq<Step>)
    ensures Follow(v, p + q) ==
              match Follow(v, p)
              case Ok(w) => Follow(w, q)
              case Err(e) => Err(e)
    decreases |p|
  {
    if p == [] {
      assert p + q == q;
    } else {
      assert (p + q)[0] == p[0];
      assert (p + q)[1..] == p[1..] + q;
      match Apply(v, p[0])
      case Ok(w) => FollowAppend(w, p[1..], q);
      case Err(_) =>
    }
  }
}
