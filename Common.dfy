/** Values shared by every module: optional and failing results, the
    exceptions the Python code can raise, JSON-like dictionary payloads and
    the few string operations the code relies on. */
module Common {

  datatype Option<+T> = None | Some(value: T) {
    function GetOr(default: T): T {
      match this
      case Some(v) => v
      case None => default
    }
  }

  /** A Python call either returns a value or raises. */
  datatype Result<+T> = Ok(value: T) | Err(error: Exception)

  /** The exceptions the modelled code can raise. `Raised` stands for any
      exception coming from code outside the model (the language-model run,
      the database driver, a time limit), carrying its message;
      `HTTPException` is the web framework's error response. */
  datatype Exception =
    | KeyError(key: string)
    | TypeError(message: string)
    | ZeroDivisionError
    | Raised(message: string)
    | HTTPException(statusCode: nat, detail: string)

  /** `str(e)` of a Python exception. */
  function Describe(e: Exception): string {
    match e
    case KeyError(k) => "'" + k + "'"
    case TypeError(m) => m
    case ZeroDivisionError => "division by zero"
    case Raised(m) => m
    case HTTPException(code, detail) => NatToString(code) + ": " + detail
  }

  /** JSON-shaped payloads: the `Dict[str, Any]` and `List[Dict]` fields. */
  datatype Json =
    | JNull
    | JBool(b: bool)
    | JNum(n: real)
    | JStr(s: string)
    | JArray(items: seq<Json>)
    | JObject(fields: seq<(string, Json)>)

  /** A Python dict, keys in insertion order. */
  type Dict = seq<(string, Json)>

  /** `d.get(key)`: the value stored under the first occurrence of `key`. */
  function Lookup(d: Dict, key: string): (r: Option<Json>)
    ensures r.Some? <==> exists i :: 0 <= i < |d| && d[i].0 == key
    ensures r.Some? ==> exists i :: 0 <= i < |d| && d[i] == (key, r.value)
  {
    if |d| == 0 then None
    else if d[0].0 == key then Some(d[0].1)
    else Lookup(d[1..], key)
  }

  function Keys(d: Dict): (r: seq<string>)
    ensures |r| == |d|
    ensures forall i :: 0 <= i < |d| ==> r[i] == d[i].0
  {
    seq(|d|, i requires 0 <= i < |d| => d[i].0)
  }

  function Min(a: nat, b: nat): nat {
    if a <= b then a else b
  }

  /** `s[:n]` */
  function Take<T>(s: seq<T>, n: nat): (r: seq<T>)
    ensures |r| == Min(n, |s|)
    ensures forall i :: 0 <= i < |r| ==> r[i] == s[i]
  {
    if n <= |s| then s[..n] else s
  }

  /** `str.lower()` restricted to ASCII letters. */
  function LowerChar(c: char): char {
    if 'A' <= c <= 'Z' then (c as int + 32) as char else c
  }

  function UpperChar(c: char): char {
    if 'a' <= c <= 'z' then (c as int - 32) as char else c
  }

  function Lower(s: string): string {
    seq(|s|, i requires 0 <= i < |s| => LowerChar(s[i]))
  }

  function Upper(s: string): string {
    seq(|s|, i requires 0 <= i < |s| => UpperChar(s[i]))
  }

  /** Python's `sub in s`. */
  predicate Contains(s: string, sub: string)
    decreases |s|
  {
    if sub <= s then true
    else if |s| == 0 then false
    else Contains(s[1..], sub)
  }

  /** Case-insensitive search: a text containing `sub` in any spelling still
      contains the lower-cased `sub` once the text is lower-cased. */
  lemma {:induction false} ContainsLowered(s: string, sub: string)
    requires Contains(s, sub)
    ensures Contains(Lower(s), Lower(sub))
    decreases |s|
  {
    if sub <= s {
      assert forall i :: 0 <= i < |sub| ==> Lower(s)[i] == Lower(sub)[i];
      assert Lower(sub) <= Lower(s);
    } else {
      ContainsLowered(s[1..], sub);
      assert Lower(s)[1..] == Lower(s[1..]);
    }
  }

  /** `sep.join(parts)` */
  function Join(parts: seq<string>, sep: string): string {
    if |parts| == 0 then ""
    else if |parts| == 1 then parts[0]
    else parts[0] + sep + Join(parts[1..], sep)
  }

  /** `str(n)` for a natural number. */
  function NatToString(n: nat): (r: string)
    ensures |r| > 0
    ensures forall i :: 0 <= i < |r| ==> '0' <= r[i] <= '9'
  {
    if n < 10 then [DigitChar(n)]
    else NatToString(n / 10) + [DigitChar(n % 10)]
  }

  function DigitChar(d: nat): (c: char)
    requires d < 10
    ensures '0' <= c <= '9'
  {
    ('0' as int + d) as char
  }

  /** Python truthiness of an optional string: present and non-empty. */
  predicate Truthy(s: Option<string>) {
    s.Some? && s.value != ""
  }

  /** Python's `a or b` on optional strings: `a` when it is truthy. */
  function Or(a: Option<string>, b: Option<string>): (r: Option<string>)
    ensures Truthy(a) ==> r == a
    ensures !Truthy(a) ==> r == b
  {
    if Truthy(a) then a else b
  }

  /** Apply a raising formatter to each element in order; the first element
      that raises decides the exception, as a Python loop does. */
  function MapAll<T>(f: T -> Result<string>, s: seq<T>): Result<seq<string>> {
    if |s| == 0 then Ok([])
    else match MapAll(f, s[..|s| - 1])
      case Err(e) => Err(e)
      case Ok(prefix) =>
        match f(s[|s| - 1])
        case Err(e) => Err(e)
        case Ok(line) => Ok(prefix + [line])
  }

  /** The loop succeeds exactly when no element raises; then it yields one
      line per element, in order. When it raises, the exception is that of
      the first element that raises. */
  lemma {:induction false} MapAllOutcome<T>(f: T -> Result<string>, s: seq<T>)
    ensures MapAll(f, s).Ok? <==> forall i :: 0 <= i < |s| ==> f(s[i]).Ok?
    ensures MapAll(f, s).Ok? ==>
              |MapAll(f, s).value| == |s| &&
              forall i :: 0 <= i < |s| ==> MapAll(f, s).value[i] == f(s[i]).value
    ensures MapAll(f, s).Err? ==>
              exists i :: 0 <= i < |s| && f(s[i]) == Err(MapAll(f, s).error) &&
                          forall j :: 0 <= j < i ==> f(s[j]).Ok?
  {
    if |s| > 0 {
      var n := |s| - 1;
      MapAllOutcome(f, s[..n]);
      assert forall i :: 0 <= i < n ==> s[..n][i] == s[i];
    }
  }

  /** Once a prefix raises, the whole loop raises the same exception. */
  lemma {:induction false} MapAllErrPersists<T>(f: T -> Result<string>, s: seq<T>, k: nat)
    requires k <= |s|
    requires MapAll(f, s[..k]).Err?
    ensures MapAll(f, s) == MapAll(f, s[..k])
    decreases |s| - k
  {
    if k < |s| {
      assert s[..k + 1][..k] == s[..k];
      MapAllErrPersists(f, s, k + 1);
    } else {
      assert s[..k] == s;
    }
  }

  /** `"\n".join(lines)` of a loop that may raise. */
  function JoinLines(lines: Result<seq<string>>): Result<string> {
    match lines
    case Ok(ls) => Ok(Join(ls, "\n"))
    case Err(e) => Err(e)
  }
}
