/**
 The Python values the spider handles: parsed JSON documents, and the few
 pieces of Python semantics the spider applies to them (`dict.get`, `or`,
 truthiness, `in`, iteration, hashing, `> 0`, slicing, `str.strip`).
 Every operation that can raise a Python exception returns a `Py` value,
 so a crawler can decide, as the source does, where the exception is caught.
 */
module PyJson {

  datatype Option<+T> = None | Some(value: T)

  /** A parsed JSON value as Python sees it after `json.loads`. Numbers are
      integers only. An object is a dict: its bindings in insertion order.
      A parsed dict has distinct keys, which the datatype does not enforce;
      lookups use the first binding of a key and iteration lists every
      binding. */
  datatype Json =
    | JNull
    | JBool(b: bool)
    | JNum(n: int)
    | JStr(s: string)
    | JArr(elems: seq<Json>)
    | JObj(fields: seq<(string, Json)>)

  /** The outcome of a Python expression: a value, or an exception. */
  datatype Py<+T> = Ok(value: T) | Raised {
    predicate IsFailure() { Raised? }

    function PropagateFailure<U>(): Py<U> {
      Raised
    }

    function Extract(): T
      requires Ok?
    {
      value
    }
  }

  const EmptyObj: Json := JObj([])
  const EmptyArr: Json := JArr([])

  /** Python's `bool(x)` for a JSON value. */
  predicate Truthy(j: Json) {
    match j
    case JNull => false
    case JBool(b) => b
    case JNum(n) => n != 0
    case JStr(s) => |s| > 0
    case JArr(xs) => |xs| > 0
    case JObj(fs) => |fs| > 0
  }

  /** Python's `x or y`. */
  function Or(x: Json, y: Json): (r: Json)
    ensures Truthy(x) ==> r == x
    ensures !Truthy(x) ==> r == y
  {
    if Truthy(x) then x else y
  }

  function Lookup(fs: seq<(string, Json)>, key: string): (r: Option<Json>)
  {
    if |fs| == 0 then None
    else if fs[0].0 == key then Some(fs[0].1)
    else Lookup(fs[1..], key)
  }

  lemma LookupFirst(k: string, v: Json, extra: seq<(string, Json)>)
    ensures Lookup([(k, v)] + extra, k) == Some(v)
  {
  }

  lemma {:induction false} LookupSkip(k: string, v: Json, extra: seq<(string, Json)>, key: string)
    requires key != k
    ensures Lookup([(k, v)] + extra, key) == Lookup(extra, key)
  {
    assert ([(k, v)] + extra)[1..] == extra;
  }

  predicate HasKey(fs: seq<(string, Json)>, key: string) {
    Lookup(fs, key).Some?
  }

  /** `obj.get(key, default)`: raises `AttributeError` unless `obj` is a dict. */
  function GetOr(obj: Json, key: string, default: Json): (r: Py<Json>)
    ensures r.Ok? <==> obj.JObj?
    ensures obj.JObj? && !HasKey(obj.fields, key) ==> r == Ok(default)
    ensures obj.JObj? && HasKey(obj.fields, key) ==> r == Ok(Lookup(obj.fields, key).value)
  {
    match obj
    case JObj(fs) =>
      (match Lookup(fs, key)
       case Some(v) => Ok(v)
       case None => Ok(default))
    case _ => Raised
  }

  /** `obj.get(key)`, whose default is `None`. */
  function Get(obj: Json, key: string): Py<Json> {
    GetOr(obj, key, JNull)
  }

  /** `needle in hay` for two strings. */
  predicate IsSubstring(needle: string, hay: string)
    decreases |hay|
  {
    needle <= hay || (|hay| > 0 && IsSubstring(needle, hay[1..]))
  }

  /** `key in container` for a string `key`: a dict tests its keys, a list
      its elements, a string its substrings; anything else raises `TypeError`. */
  function In(key: string, container: Json): (r: Py<bool>)
    ensures r.Ok? <==> (container.JObj? || container.JArr? || container.JStr?)
    ensures container.JObj? ==> r == Ok(HasKey(container.fields, key))
    ensures container.JArr? ==> r == Ok(JStr(key) in container.elems)
  {
    match container
    case JObj(fs) => Ok(HasKey(fs, key))
    case JArr(xs) => Ok(JStr(key) in xs)
    case JStr(s) => Ok(IsSubstring(key, s))
    case _ => Raised
  }

  /** `container[key]` for a string `key`: only a dict holding the key answers. */
  function Subscript(container: Json, key: string): (r: Py<Json>)
    ensures r.Ok? <==> container.JObj? && HasKey(container.fields, key)
    ensures r.Ok? ==> r.value == Lookup(container.fields, key).value
  {
    match container
    case JObj(fs) =>
      (match Lookup(fs, key)
       case Some(v) => Ok(v)
       case None => Raised)
    case _ => Raised
  }

  /** The items `for x in j` visits: a list's elements, a dict's keys, a
      string's characters; `None`, booleans and numbers are not iterable. */
  function Iter(j: Json): (r: Py<seq<Json>>)
    ensures r.Ok? <==> (j.JArr? || j.JObj? || j.JStr?)
    ensures j.JArr? ==> r == Ok(j.elems)
    ensures j.JObj? ==> |r.value| == |j.fields| &&
                        forall i :: 0 <= i < |j.fields| ==> r.value[i] == JStr(j.fields[i].0)
    ensures j.JStr? ==> |r.value| == |j.s| &&
                        forall i :: 0 <= i < |j.s| ==> r.value[i] == JStr([j.s[i]])
    ensures r.Ok? ==> (|r.value| == 0 <==> !Truthy(j))
  {
    match j
    case JArr(xs) => Ok(xs)
    case JObj(fs) => Ok(seq(|fs|, i requires 0 <= i < |fs| => JStr(fs[i].0)))
    case JStr(s) => Ok(seq(|s|, i requires 0 <= i < |s| => JStr([s[i]])))
    case _ => Raised
  }

  /** What Python hashes a dict key to. `True == 1` and `False == 0` share a
      hash bucket and compare equal, so booleans become numbers. */
  datatype Key = KNone | KNum(n: int) | KStr(s: string)

  /** `hash(j)`: lists and dicts are unhashable and raise `TypeError`. */
  function HashKey(j: Json): (r: Py<Key>)
    ensures r.Ok? <==> !(j.JArr? || j.JObj?)
    ensures j.JStr? ==> r == Ok(KStr(j.s))
    ensures j.JNum? ==> r == Ok(KNum(j.n))
  {
    match j
    case JNull => Ok(KNone)
    case JBool(b) => Ok(KNum(if b then 1 else 0))
    case JNum(n) => Ok(KNum(n))
    case JStr(s) => Ok(KStr(s))
    case _ => Raised
  }

  /** `j > 0`: defined for numbers and booleans; `None`, strings, lists and
      dicts raise `TypeError`. */
  function Positive(j: Json): (r: Py<bool>)
    ensures r.Ok? <==> (j.JNum? || j.JBool?)
    ensures j.JNum? ==> r == Ok(j.n > 0)
  {
    match j
    case JNum(n) => Ok(n > 0)
    case JBool(b) => Ok(b)
    case _ => Raised
  }

  /** Whether `j[:n]` evaluates: strings and lists slice, everything else raises. */
  predicate Sliceable(j: Json) {
    j.JStr? || j.JArr?
  }

  function DigitChar(d: nat): char
    requires d < 10
  {
    "0123456789"[d]
  }

  function NatString(n: nat): (r: string)
    ensures |r| > 0
    ensures forall i :: 0 <= i < |r| ==> '0' <= r[i] <= '9'
  {
    if n < 10 then [DigitChar(n)] else NatString(n / 10) + [DigitChar(n % 10)]
  }

  /** `str(j)` for the values a dict key can be: `None`, a boolean, a number
      or a string. */
  function PyStr(j: Json): (r: string)
    requires !(j.JArr? || j.JObj?)
    ensures j.JStr? ==> r == j.s
    ensures j.JNum? && j.n >= 0 ==> r == NatString(j.n)
  {
    match j
    case JNull => "None"
    case JBool(b) => if b then "True" else "False"
    case JNum(n) => if n < 0 then "-" + NatString(-n) else NatString(n)
    case JStr(s) => s
  }

  function Max(a: int, b: int): int {
    if a < b then b else a
  }

  /** The first `n` elements of `xs`, or all of them; none when `n <= 0`. */
  function Take<T>(xs: seq<T>, n: int): (r: seq<T>)
    ensures |r| <= Max(0, n) && r <= xs
    ensures n >= |xs| ==> r == xs
  {
    if n <= 0 then [] else if n >= |xs| then xs else xs[..n]
  }

  lemma AppendAssoc<T>(a: seq<T>, b: seq<T>, c: seq<T>)
    ensures a + b + c == a + (b + c)
  {
  }

  lemma TakeCons<T>(x: T, d: seq<T>, n: int)
    requires n >= 1
    ensures Take([x] + d, n) == [x] + Take(d, n - 1)
  {
    if n - 1 < |d| {
      assert ([x] + d)[..n] == [x] + d[..n - 1];
    }
  }

  /** The characters Python's `str.isspace` accepts, which `str.strip()` removes. */
  predicate IsSpace(c: char) {
    || '\t' <= c <= '\r'
    || '\U{1C}' <= c <= ' '
    || c == '\U{85}' || c == '\U{A0}' || c == '\U{1680}'
    || '\U{2000}' <= c <= '\U{200A}'
    || c == '\U{2028}' || c == '\U{2029}' || c == '\U{202F}' || c == '\U{205F}'
    || c == '\U{3000}'
  }

  function TrimStart(s: string): (r: string)
    ensures |r| <= |s| && r == s[|s| - |r|..]
    ensures forall i :: 0 <= i < |s| - |r| ==> IsSpace(s[i])
    ensures |r| > 0 ==> !IsSpace(r[0])
  {
    if |s| > 0 && IsSpace(s[0]) then TrimStart(s[1..]) else s
  }

  function TrimEnd(s: string): (r: string)
    ensures |r| <= |s| && r == s[..|r|]
    ensures forall i :: |r| <= i < |s| ==> IsSpace(s[i])
    ensures |r| > 0 ==> !IsSpace(r[|r| - 1])
  {
    if |s| > 0 && IsSpace(s[|s| - 1]) then TrimEnd(s[..|s| - 1]) else s
  }

  /** Python's `s.strip()`. */
  function Strip(s: string): (r: string)
    ensures exists i, j :: 0 <= i <= j <= |s| && r == s[i..j] &&
                           (forall k :: 0 <= k < i ==> IsSpace(s[k])) &&
                           (forall k :: j <= k < |s| ==> IsSpace(s[k]))
    ensures |r| > 0 ==> !IsSpace(r[0]) && !IsSpace(r[|r| - 1])
  {
    var t := TrimStart(s);
    var r := TrimEnd(t);
    var i := |s| - |t|;
    assert r == s[i..i + |r|];
    r
  }

  /** Stripping twice is stripping once. */
  lemma StripIdempotent(s: string)
    ensures Strip(Strip(s)) == Strip(s)
  {
    var r := Strip(s);
    if |r| > 0 {
      assert TrimStart(r) == r;
      assert TrimEnd(r) == r;
    }
  }

  /** A string with no whitespace at either end is its own strip. */
  lemma StripKeepsTrimmed(s: string)
    requires |s| > 0 ==> !IsSpace(s[0]) && !IsSpace(s[|s| - 1])
    ensures Strip(s) == s
  {
  }

  /** A string made of whitespace only strips to the empty string. */
  lemma {:induction false} StripAllSpace(s: string)
    requires forall i :: 0 <= i < |s| ==> IsSpace(s[i])
    ensures Strip(s) == ""
  {
    if |s| > 0 {
      StripAllSpace(s[1..]);
      assert TrimStart(s) == TrimStart(s[1..]);
    }
  }
}
