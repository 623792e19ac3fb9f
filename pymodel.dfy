/** The pieces of the Python runtime that binancebus.py leans on: values that
    travel in a parameter map, decoded JSON, `str()` of an integer, the
    insertion-ordered assignment `d[k] = v` of a dict or OrderedDict, and the
    `in` operator applied to decoded JSON. Library code whose internals are
    not modelled (HMAC-SHA256, `quote_plus`, `repr`) is bundled in `Lib`. */
module PyModel {

  datatype Option<+T> = None | Some(value: T)

  /** A value a caller stores in a parameter map: a string, or an integer
      such as a timestamp, a receive window or an order id. */
  datatype Value = Text(s: string) | Int(i: int)

  /** A decoded JSON document, as `json.loads` gives it. An object is kept
      in key order; like a Python dict it is assumed to hold distinct keys. */
  datatype Json =
    | JNull
    | JBool(b: bool)
    | JInt(i: int)
    | JReal(r: real)
    | JStr(s: string)
    | JArray(items: seq<Json>)
    | JObject(members: seq<(string, Json)>)

  /** Python exceptions that escape the module without being classified. */
  datatype PyError = KeyError | JsonDecodeError | TypeError

  /** Foreign library functions, left uninterpreted:
      `hmacHex(key, msg)` is `hmac.new(key, msg, sha256).hexdigest()`,
      `quotePlus` is `urllib.parse.quote_plus`, and `repr` is Python's
      `str()` of a float, a list or a dict. */
  datatype Lib = Lib(
    hmacHex: (string, string) -> string,
    quotePlus: string -> string,
    repr: Json -> string)

  // ---------------------------------------------------------------------
  // str() of an int

  predicate IsDigit(c: char) { '0' <= c <= '9' }

  predicate AllDigits(s: string) { forall i | 0 <= i < |s| :: IsDigit(s[i]) }

  function DigitChar(d: nat): (c: char)
    requires d < 10
    ensures IsDigit(c) && c as int - '0' as int == d
  {
    (d + '0' as int) as char
  }

  /** Decimal digits of `n`, most significant first, without leading zeros. */
  function NatDigits(n: nat): (s: string)
    ensures |s| > 0 && AllDigits(s)
    ensures s[0] == '0' ==> n == 0 && s == "0"
    decreases n
  {
    if n < 10 then [DigitChar(n)] else NatDigits(n / 10) + [DigitChar(n % 10)]
  }

  /** `str(i)` for a Python int. */
  function IntStr(i: int): string {
    if i < 0 then "-" + NatDigits(-i) else NatDigits(i)
  }

  function ParseNat(s: string): nat
    requires AllDigits(s)
  {
    if s == [] then 0 else ParseNat(s[..|s| - 1]) * 10 + (s[|s| - 1] as int - '0' as int)
  }

  /** `int(s)` for the strings `IntStr` produces. */
  function ParseInt(s: string): int {
    if |s| > 0 && s[0] == '-' && AllDigits(s[1..]) then 0 - ParseNat(s[1..])
    else if AllDigits(s) then ParseNat(s)
    else 0
  }

  lemma {:induction false} ParseNatDigits(n: nat)
    ensures ParseNat(NatDigits(n)) == n
    decreases n
  {
    if n >= 10 {
      var s := NatDigits(n);
      assert s[..|s| - 1] == NatDigits(n / 10);
      ParseNatDigits(n / 10);
    }
  }

  /** `str()` of an int loses nothing: `int(str(i)) == i`. */
  lemma IntStrRoundTrip(i: int)
    ensures ParseInt(IntStr(i)) == i
  {
    if i < 0 {
      var s := IntStr(i);
      assert s[1..] == NatDigits(-i);
      ParseNatDigits(-i);
    } else {
      ParseNatDigits(i);
    }
  }

  lemma IntStrInjective(i: int, j: int)
    ensures IntStr(i) == IntStr(j) <==> i == j
  {
    IntStrRoundTrip(i);
    IntStrRoundTrip(j);
  }

  /** `str(v)` of a parameter value, as `urlencode` applies it. */
  function ValueStr(v: Value): string {
    match v
    case Text(s) => s
    case Int(i) => IntStr(i)
  }

  // ---------------------------------------------------------------------
  // dict / OrderedDict: entries in insertion order

  predicate HasKey<V>(m: seq<(string, V)>, k: string) {
    exists i | 0 <= i < |m| :: m[i].0 == k
  }

  ghost predicate DistinctKeys<V>(m: seq<(string, V)>) {
    forall i, j | 0 <= i < j < |m| :: m[i].0 != m[j].0
  }

  /** `d[k]`, or None where Python raises KeyError. */
  function Get<V>(m: seq<(string, V)>, k: string): (r: Option<V>)
    ensures r.None? <==> !HasKey(m, k)
    ensures r.Some? ==> (k, r.value) in m
  {
    if m == [] then None
    else if m[0].0 == k then Some(m[0].1)
    else Get(m[1..], k)
  }

  /** `d[k] = v`: a key already present keeps its position and takes the new
      value; a new key goes to the end. */
  function Put<V>(m: seq<(string, V)>, k: string, v: V): (r: seq<(string, V)>)
    ensures !HasKey(m, k) ==> r == m + [(k, v)]
    ensures HasKey(m, k) ==> |r| == |m|
  {
    if m == [] then [(k, v)]
    else if m[0].0 == k then [(k, v)] + m[1..]
    else [m[0]] + Put(m[1..], k, v)
  }

  /** On a dict (distinct keys), `d[k] = v` for a present key changes that
      entry's value only, so the keys stay distinct and in their order. */
  lemma {:induction false} PutReplaces<V>(m: seq<(string, V)>, k: string, v: V)
    requires DistinctKeys(m) && HasKey(m, k)
    ensures forall i | 0 <= i < |m| :: Put(m, k, v)[i] == (if m[i].0 == k then (k, v) else m[i])
    ensures DistinctKeys(Put(m, k, v))
  {
    var r := Put(m, k, v);
    if m[0].0 == k {
      forall i | 0 <= i < |m| ensures r[i] == (if m[i].0 == k then (k, v) else m[i]) {
        if i > 0 { assert m[i].0 != m[0].0; }
      }
    } else {
      var j :| 0 <= j < |m| && m[j].0 == k;
      assert m[1..][j - 1].0 == k;
      PutReplaces(m[1..], k, v);
      forall i | 0 <= i < |m| ensures r[i] == (if m[i].0 == k then (k, v) else m[i]) {
        if i > 0 { assert r[i] == Put(m[1..], k, v)[i - 1]; }
      }
    }
    assert forall i | 0 <= i < |m| :: r[i].0 == m[i].0;
  }

  /** `d[k] = v` keeps a dict a dict: its keys stay distinct whether `k`
      was present or not. */
  lemma PutKeepsDistinct<V>(m: seq<(string, V)>, k: string, v: V)
    requires DistinctKeys(m)
    ensures DistinctKeys(Put(m, k, v))
  {
    if HasKey(m, k) {
      PutReplaces(m, k, v);
    } else {
      var r := Put(m, k, v);
      forall i, j | 0 <= i < j < |r| ensures r[i].0 != r[j].0 {
        if j == |m| {
          assert m[i].0 != k;
        }
      }
    }
  }

  /** After `d[k] = v`, reading `d[k]` gives `v` and every other key reads
      as before. */
  lemma {:induction false} GetPut<V>(m: seq<(string, V)>, k: string, v: V, k': string)
    ensures Get(Put(m, k, v), k') == if k' == k then Some(v) else Get(m, k')
  {
    if m != [] && m[0].0 != k {
      GetPut(m[1..], k, v, k');
    }
  }

  // ---------------------------------------------------------------------
  // The `in` operator applied to a decoded JSON value

  predicate OccursAt(sub: string, s: string, i: int) {
    0 <= i <= |s| - |sub| && s[i..i + |sub|] == sub
  }

  predicate IsSubstring(sub: string, s: string) {
    exists i | 0 <= i <= |s| - |sub| :: OccursAt(sub, s, i)
  }

  /** `key in j`: a key test on a dict, an element test on a list, a
      substring test on a string; None where Python raises TypeError
      because `j` is a number, a boolean or None. */
  function JsonContains(j: Json, key: string): (r: Option<bool>)
    ensures r.None? <==> !(j.JObject? || j.JArray? || j.JStr?)
  {
    match j
    case JObject(ms) => Some(HasKey(ms, key))
    case JArray(xs) => Some(JStr(key) in xs)
    case JStr(s) => Some(IsSubstring(key, s))
    case _ => None
  }

  /** `str(j)` as `%s` formats it; floats, lists and dicts go through the
      foreign `repr`. */
  function JsonStr(j: Json, repr: Json -> string): string {
    match j
    case JNull => "None"
    case JBool(b) => if b then "True" else "False"
    case JInt(i) => IntStr(i)
    case JStr(s) => s
    case _ => repr(j)
  }
}
