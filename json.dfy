/** JSON-like values as the decoded response payloads carry them, with the few
    pieces of Python behaviour the normalisation code leans on: truthiness,
    `dict.get`, the `in` operator, and iteration over a value whose elements
    are then subscripted with string keys. */
module JsonValues {

  /** A decoded JSON value. Numbers are integers only. */
  datatype Json =
    | Null
    | Bool(b: bool)
    | Num(n: int)
    | Str(s: string)
    | Arr(a: seq<Json>)
    | Obj(m: map<string, Json>)

  /** The outcome of a step that may raise. The text of a raised exception is
      not modelled: every failure is the same `Fail`. */
  datatype Result<T> = Ok(value: T) | Fail

  datatype Option<T> = None | Some(value: T) {
    function GetOr(default: T): T {
      match this
      case Some(v) => v
      case None => default
    }
  }

  /** `json.dumps`, `json.loads` and `str` as an abstract collaborator. */
  datatype Codec = Codec(
    encode: Json -> string,
    decode: string -> Option<Json>,
    display: Json -> string)

  /** The codec decodes what it encodes. */
  ghost predicate RoundTrips(codec: Codec) {
    forall j :: codec.decode(codec.encode(j)) == Some(j)
  }

  /** Python's `str(v)`: a string is itself, anything else is displayed by the codec. */
  function PyStr(codec: Codec, j: Json): string {
    if j.Str? then j.s else codec.display(j)
  }

  /** Python truthiness of a value. */
  predicate Truthy(j: Json) {
    match j
    case Null => false
    case Bool(b) => b
    case Num(n) => n != 0
    case Str(s) => s != ""
    case Arr(a) => a != []
    case Obj(m) => m != map[]
  }

  /** `a or b` */
  function Or(a: Json, b: Json): (r: Json)
    ensures Truthy(a) ==> r == a
    ensures !Truthy(a) ==> r == b
  {
    if Truthy(a) then a else b
  }

  /** `d.get(k, default)` */
  function GetOr(m: map<string, Json>, k: string, default: Json): Json {
    if k in m then m[k] else default
  }

  /** `d.get(k)`, whose default is None */
  function Get(m: map<string, Json>, k: string): Json {
    GetOr(m, k, Null)
  }

  const EmptyObj: Json := Obj(map[])

  predicate IsPrefix(p: string, s: string) {
    |p| <= |s| && s[..|p|] == p
  }

  /** Python's `needle in hay` on two strings. */
  predicate IsSubstring(needle: string, hay: string)
    decreases |hay|
  {
    IsPrefix(needle, hay) || (hay != [] && IsSubstring(needle, hay[1..]))
  }

  lemma {:induction false} SingleCharSubstring(c: char, s: string)
    ensures IsSubstring([c], s) <==> c in s
  {
    if s != [] {
      SingleCharSubstring(c, s[1..]);
      assert s == [s[0]] + s[1..];
    }
  }

  /** Python's `key in container`: a key test on a dict, a substring test on a
      string, a membership test on a list; any other value raises. */
  function Contains(container: Json, key: string): (r: Result<bool>)
    ensures r.Ok? <==> container.Obj? || container.Str? || container.Arr?
    ensures container.Obj? ==> r == Ok(key in container.m)
    ensures container.Arr? ==> r == Ok(Str(key) in container.a)
    ensures container.Str? ==> r == Ok(IsSubstring(key, container.s))
  {
    match container
    case Obj(m) => Ok(key in m)
    case Str(s) => Ok(IsSubstring(key, s))
    case Arr(a) => Ok(Str(key) in a)
    case _ => Fail
  }

  /** The elements Python's `for x in v` visits when each `x` is then
      subscripted with a string key (`x["message"]`, `**x`). A list yields its
      elements; a dict or a string yields strings (keys, characters), on which
      that subscript raises, so only an empty one gets through; anything else
      is not iterable. */
  function RecordElements(j: Json): (r: Result<seq<Json>>)
    ensures r.Ok? <==> j.Arr? || j == EmptyObj || j == Str("")
    ensures j.Arr? ==> r == Ok(j.a)
    ensures r.Ok? && !j.Arr? ==> r == Ok([])
  {
    match j
    case Arr(a) => Ok(a)
    case Obj(m) => if m == map[] then Ok([]) else Fail
    case Str(s) => if s == "" then Ok([]) else Fail
    case _ => Fail
  }

  /** Decimal rendering of a natural number, as an f-string renders an int. */
  function NatToString(n: nat): (r: string)
    ensures |r| >= 1
    decreases n
  {
    if n < 10 then [Digit(n)] else NatToString(Quotient(n)) + [Digit(Remainder(n))]
  }

  /** `n // 10` and `n % 10`, by repeated subtraction. */
  function Quotient(n: nat): (q: nat)
    ensures n >= 10 ==> q < n
  {
    if n < 10 then 0 else 1 + Quotient(n - 10)
  }

  function Remainder(n: nat): (r: nat)
    ensures r < 10
  {
    if n < 10 then n else Remainder(n - 10)
  }

  lemma {:induction false} QuotientAndRemainder(n: nat)
    ensures Quotient(n) * 10 + Remainder(n) == n
    decreases n
  {
    if n >= 10 {
      QuotientAndRemainder(n - 10);
    }
  }

  predicate IsDecimal(s: string) {
    forall i :: 0 <= i < |s| ==> '0' <= s[i] <= '9'
  }

  /** The rendering is made of decimal digits only. */
  lemma {:induction false} NatToStringIsDecimal(n: nat)
    ensures IsDecimal(NatToString(n))
    decreases n
  {
    if n >= 10 {
      NatToStringIsDecimal(Quotient(n));
    }
  }

  function Digit(d: nat): (c: char)
    requires d < 10
    ensures '0' <= c <= '9'
    ensures DigitValue(c) == d
  {
    ['0', '1', '2', '3', '4', '5', '6', '7', '8', '9'][d]
  }

  function DigitValue(c: char): nat
    requires '0' <= c <= '9'
  {
    (c as int - '0' as int) as nat
  }

  /** Value of a non-empty string of decimal digits. */
  function DecimalValue(s: string): nat
    requires IsDecimal(s)
    decreases |s|
  {
    if s == [] then 0 else DecimalValue(s[..|s| - 1]) * 10 + DigitValue(s[|s| - 1])
  }

  /** The rendering reads back as the number it renders. */
  lemma {:induction false} NatToStringRoundTrip(n: nat)
    ensures IsDecimal(NatToString(n)) && DecimalValue(NatToString(n)) == n
    decreases n
  {
    var r := NatToString(n);
    NatToStringIsDecimal(n);
    if n >= 10 {
      NatToStringRoundTrip(Quotient(n));
      QuotientAndRemainder(n);
      assert r[..|r| - 1] == NatToString(Quotient(n));
    }
  }

  /** Distinct positions render as distinct strings. */
  lemma NatToStringInjective(m: nat, n: nat)
    requires NatToString(m) == NatToString(n)
    ensures m == n
  {
    NatToStringRoundTrip(m);
    NatToStringRoundTrip(n);
  }

  /** `[f(x, i) for i, x in enumerate(xs[:n])]` where any `f` may raise: the
      first failure, scanning left to right, fails the whole list. */
  function MapIndexed<S, T>(xs: seq<S>, n: nat, f: (S, nat) -> Result<T>): Result<seq<T>>
    requires n <= |xs|
    decreases n
  {
    if n == 0 then Ok([])
    else
      match MapIndexed(xs, n - 1, f)
      case Fail => Fail
      case Ok(prev) =>
        match f(xs[n - 1], n - 1)
        case Fail => Fail
        case Ok(y) => Ok(prev + [y])
  }

  /** The list succeeds exactly when every element does, and then holds one
      result per element, at that element's position. */
  lemma {:induction false} MapIndexedOk<S, T>(xs: seq<S>, n: nat, f: (S, nat) -> Result<T>)
    requires n <= |xs|
    ensures MapIndexed(xs, n, f).Ok? <==> forall i :: 0 <= i < n ==> f(xs[i], i).Ok?
    ensures MapIndexed(xs, n, f).Ok? ==>
      |MapIndexed(xs, n, f).value| == n &&
      forall i :: 0 <= i < n ==> f(xs[i], i) == Ok(MapIndexed(xs, n, f).value[i])
    decreases n
  {
    if n > 0 {
      MapIndexedOk(xs, n - 1, f);
    }
  }

  /** Once a prefix fails, every longer prefix fails. */
  lemma {:induction false} MapIndexedFailExtends<S, T>(xs: seq<S>, i: nat, n: nat, f: (S, nat) -> Result<T>)
    requires i <= n <= |xs|
    requires MapIndexed(xs, i, f).Fail?
    ensures MapIndexed(xs, n, f).Fail?
    decreases n
  {
    if n > i {
      MapIndexedFailExtends(xs, i, n - 1, f);
    }
  }
}
