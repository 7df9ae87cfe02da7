/** Values as they come back from the hosted document store, and the
    JavaScript coercions (`??`, `Boolean(..)`, `Number(..)`, `String(..)`,
    `Array.isArray`) that the screens apply to them.

    A document is a `Record`: a map from field name to `Value`. A field that
    is not in the map is JavaScript's `undefined`; `Null` is a stored null. */
module Common {
  import Text

  datatype Option<+T> = None | Some(value: T) {
    function GetOr(default: T): T {
      match this
      case Some(v) => v
      case None => default
    }
  }

  /** A JavaScript number as the screens see it: a finite value (modelled as
      an integer: pence, whole quantities, milliseconds) or a non-finite one
      (NaN or an infinity). */
  datatype JsNum = Finite(v: int) | NonFinite

  /** A stored field value. `Stamp` is a database timestamp (milliseconds
      since the epoch); `NaN` is a stored NaN. */
  datatype Value =
    | Null
    | Bool(b: bool)
    | Num(n: int)
    | NaN
    | Str(s: string)
    | Arr(elems: seq<Value>)
    | Stamp(ms: int)

  type Record = map<string, Value>

  /** The signed-in account (`auth.currentUser`): its id and, when the
      provider knows it, its email. */
  datatype AuthUser = AuthUser(uid: string, email: Option<string>)

  /** A message line shown under a form or box: `{ type, text }`. */
  datatype MsgKind = Error | Success
  datatype Msg = Msg(kind: MsgKind, text: string)

  /** A failed read or write of the hosted store; `message` is the error's
      `message` when it has one. */
  datatype StoreError = StoreError(message: Option<string>)

  /** The outcome of reading a collection. */
  datatype Result<T> = Read(value: T) | ReadFailed(error: StoreError)

  /** What reading one document gave: no such document, its fields, or a
      failure. */
  datatype DocRead = Missing | Present(data: Record) | ReadError(error: StoreError)

  /** The collection after `setDoc(doc(id), { key: v }, { merge: true })`:
      the field is set on the document, which is created when missing; every
      other field and document stays as it was. */
  function MergeField(docs: map<string, Record>, id: string, key: string, v: Value): (r: map<string, Record>)
    ensures r.Keys == docs.Keys + {id}
    ensures id in r && key in r[id] && r[id][key] == v
    ensures id in docs ==> r[id].Keys == docs[id].Keys + {key}
    ensures id in docs ==> forall k :: k in docs[id] && k != key ==> r[id][k] == docs[id][k]
    ensures id !in docs ==> r[id].Keys == {key}
    ensures forall d :: d in docs && d != id ==> r[d] == docs[d]
  {
    docs[id := (if id in docs then docs[id] else map[])[key := v]]
  }

  /** A number as it is stored: a finite number, or NaN. */
  function NumValue(n: JsNum): (v: Value)
    ensures ToNumber(Some(v)) == n
  {
    match n
    case Finite(x) => Num(x)
    case NonFinite => NaN
  }

  /** `e?.message ?? fallback` */
  function ErrorText(e: StoreError, fallback: string): (r: string)
    ensures e.message.Some? ==> r == e.message.value
    ensures e.message.None? ==> r == fallback
  {
    e.message.GetOr(fallback)
  }

  /** How often `x` occurs in `s`. */
  function Occurrences<T(==)>(s: seq<T>, x: T): nat {
    multiset(s)[x]
  }

  /** An element occurs in a non-empty sequence once more than in its tail
      when it is the head. */
  lemma CountCons<T>(s: seq<T>, x: T)
    requires s != []
    ensures Occurrences(s, x) == (if s[0] == x then 1 else 0) + Occurrences(s[1..], x)
  {
    assert s == [s[0]] + s[1..];
  }

  /** `a` is `b` with some elements left out, in the same order. */
  predicate IsSubsequence<T(==)>(a: seq<T>, b: seq<T>)
    decreases |b|
  {
    if a == [] then true
    else if b == [] then false
    else if a[0] == b[0] then IsSubsequence(a[1..], b[1..])
    else IsSubsequence(a, b[1..])
  }

  /** `data.field`: `None` is `undefined`. */
  function Get(rec: Record, key: string): (r: Option<Value>)
    ensures r.Some? <==> key in rec
    ensures r.Some? ==> r.value == rec[key]
  {
    if key in rec then Some(rec[key]) else None
  }

  /** `x == null` in JavaScript: undefined or null. */
  predicate Nullish(o: Option<Value>) {
    o.None? || o.value.Null?
  }

  /** `x ?? d` */
  function Coalesce(o: Option<Value>, d: Value): (r: Value)
    ensures Nullish(o) ==> r == d
    ensures !Nullish(o) ==> r == o.value
  {
    if Nullish(o) then d else o.value
  }

  /** `data.k0 ?? data.k1 ?? ... ?? null`: the first field among `keys`
      that holds a value other than null/undefined, else `Null`. */
  function FirstPresent(rec: Record, keys: seq<string>): (r: Value)
    ensures r == Null || exists i :: 0 <= i < |keys| && !Nullish(Get(rec, keys[i])) && r == rec[keys[i]]
  {
    if |keys| == 0 then Null
    else if !Nullish(Get(rec, keys[0])) then rec[keys[0]]
    else FirstPresent(rec, keys[1..])
  }

  /** The first field in `keys` holding a value decides; with none, `Null`. */
  lemma {:induction false} FirstPresentPicksFirst(rec: Record, keys: seq<string>, i: nat)
    requires i < |keys| && !Nullish(Get(rec, keys[i]))
    requires forall j :: 0 <= j < i ==> Nullish(Get(rec, keys[j]))
    ensures FirstPresent(rec, keys) == rec[keys[i]]
  {
    if i > 0 {
      assert Nullish(Get(rec, keys[0]));
      FirstPresentPicksFirst(rec, keys[1..], i - 1);
    }
  }

  lemma {:induction false} FirstPresentNone(rec: Record, keys: seq<string>)
    requires forall j :: 0 <= j < |keys| ==> Nullish(Get(rec, keys[j]))
    ensures FirstPresent(rec, keys) == Null
  {
    if |keys| > 0 {
      assert Nullish(Get(rec, keys[0]));
      FirstPresentNone(rec, keys[1..]);
    }
  }

  /** `(Array.isArray(data.k0) && data.k0) || ... || []`: the first field
      among `keys` that holds an array, even an empty one, else `[]`. */
  function FirstArray(rec: Record, keys: seq<string>): (r: seq<Value>)
  {
    if |keys| == 0 then []
    else if keys[0] in rec && rec[keys[0]].Arr? then rec[keys[0]].elems
    else FirstArray(rec, keys[1..])
  }

  /** The first field in `keys` holding an array decides, whatever lies in the
      later fields; with none, the list is empty. */
  lemma {:induction false} FirstArrayPicksFirst(rec: Record, keys: seq<string>, i: nat)
    requires i < |keys| && keys[i] in rec && rec[keys[i]].Arr?
    requires forall j :: 0 <= j < i ==> !(keys[j] in rec && rec[keys[j]].Arr?)
    ensures FirstArray(rec, keys) == rec[keys[i]].elems
  {
    if i > 0 {
      assert !(keys[0] in rec && rec[keys[0]].Arr?);
      FirstArrayPicksFirst(rec, keys[1..], i - 1);
    }
  }

  lemma {:induction false} FirstArrayNone(rec: Record, keys: seq<string>)
    requires forall j :: 0 <= j < |keys| ==> !(keys[j] in rec && rec[keys[j]].Arr?)
    ensures FirstArray(rec, keys) == []
  {
    if |keys| > 0 {
      assert !(keys[0] in rec && rec[keys[0]].Arr?);
      FirstArrayNone(rec, keys[1..]);
    }
  }

  /** `Boolean(x)`: JavaScript truthiness. */
  predicate Truthy(o: Option<Value>) {
    match o
    case None => false
    case Some(v) =>
      match v
      case Null => false
      case Bool(b) => b
      case Num(n) => n != 0
      case NaN => false
      case Str(s) => s != ""
      case Arr(_) => true
      case Stamp(_) => true
  }

  // ---------------------------------------------------------------------
  // String(x)

  function DigitChar(d: int): (c: char)
    requires 0 <= d < 10
    ensures '0' <= c <= '9'
  {
    ['0', '1', '2', '3', '4', '5', '6', '7', '8', '9'][d]
  }

  predicate IsDigit(c: char) { '0' <= c <= '9' }

  /** Decimal digits of a natural number, without leading zeros. */
  function NatToString(n: nat): (s: string)
    ensures |s| > 0 && forall i :: 0 <= i < |s| ==> IsDigit(s[i])
    decreases n
  {
    if n < 10 then [DigitChar(n)] else NatToString(n / 10) + [DigitChar(n % 10)]
  }

  function IntToString(n: int): (s: string)
    ensures |s| > 0
  {
    if n < 0 then "-" + NatToString(-n) else NatToString(n)
  }

  function DigitOf(c: char): (d: nat)
    requires IsDigit(c)
    ensures d < 10
  {
    (c as int) - ('0' as int)
  }

  /** Value of a run of decimal digits, read left to right. */
  function DigitsValue(s: string): nat
    requires forall i :: 0 <= i < |s| ==> IsDigit(s[i])
  {
    if |s| == 0 then 0
    else DigitsValue(s[..|s| - 1]) * 10 + DigitOf(s[|s| - 1])
  }

  lemma {:induction false} DigitsRoundTrip(n: nat)
    ensures DigitsValue(NatToString(n)) == n
    decreases n
  {
    if n >= 10 {
      var s := NatToString(n);
      assert s[..|s| - 1] == NatToString(n / 10);
      DigitsRoundTrip(n / 10);
      assert DigitOf(s[|s| - 1]) == n % 10 by {
        assert s[|s| - 1] == DigitChar(n % 10);
      }
    } else {
      assert NatToString(n)[..0] == [];
    }
  }

  /** `String(v)`; `None` (undefined) gives "undefined". Array elements that
      are null or undefined print as "", as `Array.prototype.join` does. A
      timestamp prints as the database client's `Timestamp(seconds=…,
      nanoseconds=…)`. */
  function ToStr(o: Option<Value>): string {
    match o
    case None => "undefined"
    case Some(v) => ValueToStr(v)
  }

  function ValueToStr(v: Value): string
    decreases v, 1
  {
    match v
    case Null => "null"
    case Bool(b) => if b then "true" else "false"
    case Num(n) => IntToString(n)
    case NaN => "NaN"
    case Str(s) => s
    case Arr(a) => JoinValues(a)
    case Stamp(ms) =>
      "Timestamp(seconds=" + IntToString(ms / 1000) + ", nanoseconds="
        + IntToString((ms % 1000) * 1000000) + ")"
  }

  function JoinValues(vs: seq<Value>): string
    decreases vs, 0
  {
    if |vs| == 0 then ""
    else
      var head := if vs[0].Null? then "" else ValueToStr(vs[0]);
      if |vs| == 1 then head else head + "," + JoinValues(vs[1..])
  }

  // ---------------------------------------------------------------------
  // Number(x)

  predicate AllDigits(s: string) {
    forall i :: 0 <= i < |s| ==> IsDigit(s[i])
  }

  /** `Number(s)` for a string: blank is 0, an optionally negative run of
      decimal digits is its value, anything else is not finite. */
  function ParseNumber(s: string): JsNum {
    var t := Text.Trim(s);
    if t == "" then Finite(0)
    else if t[0] == '-' && |t| > 1 && AllDigits(t[1..]) then Finite(0 - DigitsValue(t[1..]) as int)
    else if AllDigits(t) then Finite(DigitsValue(t))
    else NonFinite
  }

  /** `Number(v)`; `None` (undefined) is not finite. */
  function ToNumber(o: Option<Value>): (r: JsNum)
    ensures o == Some(Null) ==> r == Finite(0)
    ensures o.Some? && o.value.Num? ==> r == Finite(o.value.n)
    ensures o.None? || o == Some(NaN) ==> r == NonFinite
  {
    match o
    case None => NonFinite
    case Some(v) =>
      match v
      case Null => Finite(0)
      case Bool(b) => Finite(if b then 1 else 0)
      case Num(n) => Finite(n)
      case NaN => NonFinite
      case Str(s) => ParseNumber(s)
      case Arr(_) => ParseNumber(ValueToStr(v))
      case Stamp(_) => NonFinite
  }

  /** A number written out by `String` reads back as the same number. */
  lemma NumberOfString(n: int)
    ensures ToNumber(Some(Str(IntToString(n)))) == Finite(n)
  {
    if n < 0 {
      var d := NatToString(-n);
      var t := "-" + d;
      Text.TrimNoEdges(t);
      assert t[1..] == d;
      DigitsRoundTrip(-n);
    } else {
      var d := NatToString(n);
      Text.TrimNoEdges(d);
      DigitsRoundTrip(n);
    }
  }
}
