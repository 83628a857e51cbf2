/**
 * The few Python semantics the extraction scripts rely on: `None`,
 * exceptions, truthiness of optional strings, `os.path.join` on POSIX,
 * JSON values with ordered objects (as `json.dumps` writes a dict), and the
 * effects a script has on the outside world.
 */
module Python {

  datatype Option<+T> = None | Some(value: T)

  /** A value, or the message of the exception raised instead. */
  datatype Result<+T> = Ok(value: T) | Err(error: string)

  /** `if s:` on a value that is `None` or a string. */
  predicate Truthy(s: Option<string>)
  {
    s.Some? && s.value != ""
  }

  /** A string argument, or `None`, as JSON. */
  function OptionalString(s: Option<string>): Json
  {
    match s
    case None => Null
    case Some(v) => Str(v)
  }

  /** `os.path.join(a, b)` with POSIX paths. */
  function JoinPath(a: string, b: string): (r: string)
    ensures |r| >= |b| && r[|r| - |b|..] == b
    ensures |b| > 0 && b[0] == '/' ==> r == b
    ensures !(|b| > 0 && b[0] == '/') ==> |r| >= |a| && r[..|a|] == a
    ensures !(|b| > 0 && b[0] == '/') ==> |r| <= |a| + 1 + |b|
    ensures !(|b| > 0 && b[0] == '/') && a != "" ==> a[|a| - 1] == '/' || (|r| > |a| && r[|a|] == '/')
    ensures !(|b| > 0 && b[0] == '/') && (a == "" || a[|a| - 1] == '/') ==> r == a + b
    ensures !(|b| > 0 && b[0] == '/') && !(a == "" || a[|a| - 1] == '/') ==> r == a + "/" + b
  {
    if |b| > 0 && b[0] == '/' then b
    else if a == "" || a[|a| - 1] == '/' then a + b
    else a + "/" + b
  }

  /** A JSON value; an object keeps its members in insertion order. */
  datatype Json =
    | Null
    | Str(s: string)
    | Num(n: real)
    | Arr(items: seq<Json>)
    | Obj(members: seq<Member>)

  datatype Member = Member(key: string, value: Json)

  /** `d[key]` on a JSON object: the first member with that key. */
  function Lookup(members: seq<Member>, key: string): (r: Option<Json>)
    ensures r.Some? <==> exists i :: 0 <= i < |members| && members[i].key == key
  {
    if members == [] then None
    else if members[0].key == key then Some(members[0].value)
    else Lookup(members[1..], key)
  }

  /** The keys of a JSON object, in order. */
  function Keys(members: seq<Member>): seq<string>
  {
    seq(|members|, i requires 0 <= i < |members| => members[i].key)
  }

  /** What a script does to the outside world, in order. */
  datatype Effect =
    | WriteJson(file: string, content: Json)
    | RunProcess(argv: seq<string>)
}
