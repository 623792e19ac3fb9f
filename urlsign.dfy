/** Request signing (getURLDataHash): the parameter map is serialised the
    way `urllib.parse.urlencode` does it, fields `quote_plus(str(k)) + "=" +
    quote_plus(str(v))` joined by `&`, and the signature is the hex HMAC-SHA256
    of that string under the API secret. The percent-encoding and the HMAC
    themselves are the foreign functions of `Lib`. */
module UrlSign {
  import opened PyModel

  /** One `key=value` field of the query string. */
  function Field(e: (string, Value), quote: string -> string): string {
    quote(e.0) + "=" + quote(ValueStr(e.1))
  }

  function Fields(m: seq<(string, Value)>, quote: string -> string): (r: seq<string>)
    ensures |r| == |m|
    ensures forall i | 0 <= i < |m| :: r[i] == Field(m[i], quote)
  {
    if m == [] then [] else [Field(m[0], quote)] + Fields(m[1..], quote)
  }

  /** `"&".join(parts)` */
  function Join(parts: seq<string>): string {
    if |parts| == 0 then ""
    else if |parts| == 1 then parts[0]
    else parts[0] + "&" + Join(parts[1..])
  }

  /** `urlencode(m)` */
  function UrlEncode(m: seq<(string, Value)>, quote: string -> string): string {
    Join(Fields(m, quote))
  }

  /** getURLDataHash(data, key) */
  function Sign(lib: Lib, secret: string, m: seq<(string, Value)>): string {
    lib.hmacHex(secret, UrlEncode(m, lib.quotePlus))
  }

  /** `quote_plus` escapes every `&` and `=`, so neither survives in its output. */
  ghost predicate QuoteEscapes(quote: string -> string) {
    forall s :: '&' !in quote(s) && '=' !in quote(s)
  }

  // ---------------------------------------------------------------------
  // The reading side: what a server splitting the query string recovers.

  /** Index of the first `c` in `s`, or |s| when there is none. */
  function IndexOf(s: string, c: char): (i: nat)
    ensures i <= |s|
    ensures i < |s| ==> s[i] == c
    ensures forall j | 0 <= j < i :: s[j] != c
  {
    if s == [] then 0 else if s[0] == c then 0 else 1 + IndexOf(s[1..], c)
  }

  /** `s.split("&")` */
  function Split(s: string): (r: seq<string>)
    ensures |r| > 0
    decreases |s|
  {
    var i := IndexOf(s, '&');
    if i == |s| then [s] else [s[..i]] + Split(s[i + 1..])
  }

  /** `s.split("=", 1)` for a field: the text before the first `=` and after it. */
  function SplitField(f: string): (string, string) {
    var i := IndexOf(f, '=');
    if i == |f| then (f, "") else (f[..i], f[i + 1..])
  }

  /** The query string split back into (quoted key, quoted value) pairs. */
  function Decode(q: string): seq<(string, string)> {
    var parts := Split(q);
    seq(|parts|, i requires 0 <= i < |parts| => SplitField(parts[i]))
  }

  lemma SplitPrefix(a: string, b: string)
    requires '&' !in a
    ensures Split(a + "&" + b) == [a] + Split(b)
  {
    var s := a + "&" + b;
    assert s[|a|] == '&';
    assert IndexOf(s, '&') == |a|;
    assert s[..|a|] == a;
    assert s[|a| + 1..] == b;
  }

  lemma SplitNone(a: string)
    requires '&' !in a
    ensures Split(a) == [a]
  {
  }

  /** Splitting a join on `&` gives the parts back, when none holds an `&`. */
  lemma {:induction false} SplitJoin(parts: seq<string>)
    requires |parts| > 0
    requires forall i | 0 <= i < |parts| :: '&' !in parts[i]
    ensures Split(Join(parts)) == parts
    decreases |parts|
  {
    if |parts| == 1 {
      SplitNone(parts[0]);
    } else {
      SplitJoin(parts[1..]);
      SplitPrefix(parts[0], Join(parts[1..]));
    }
  }

  lemma FieldSplits(e: (string, Value), quote: string -> string)
    requires QuoteEscapes(quote)
    ensures '&' !in Field(e, quote)
    ensures SplitField(Field(e, quote)) == (quote(e.0), quote(ValueStr(e.1)))
  {
    var k, v := quote(e.0), quote(ValueStr(e.1));
    var f := Field(e, quote);
    assert '&' !in k && '=' !in k && '&' !in v && '=' !in v;
    assert f[|k|] == '=';
    assert IndexOf(f, '=') == |k|;
    assert f[..|k|] == k;
    assert f[|k| + 1..] == v;
  }

  /** The encoded query string decodes back to one field per map entry, in
      map order, each the quoted key and the quoted `str()` of the value. */
  lemma UrlEncodeDecodes(m: seq<(string, Value)>, quote: string -> string)
    requires |m| > 0
    requires QuoteEscapes(quote)
    ensures Decode(UrlEncode(m, quote)) ==
      seq(|m|, i requires 0 <= i < |m| => (quote(m[i].0), quote(ValueStr(m[i].1))))
  {
    var fs := Fields(m, quote);
    forall i | 0 <= i < |fs| ensures '&' !in fs[i] {
      FieldSplits(m[i], quote);
    }
    SplitJoin(fs);
    forall i | 0 <= i < |m| ensures SplitField(fs[i]) == (quote(m[i].0), quote(ValueStr(m[i].1))) {
      FieldSplits(m[i], quote);
    }
  }

  lemma {:induction false} JoinAppend(parts: seq<string>, last: string)
    requires |parts| > 0
    ensures Join(parts + [last]) == Join(parts) + "&" + last
    decreases |parts|
  {
    if |parts| > 1 {
      JoinAppend(parts[1..], last);
      assert (parts + [last])[1..] == parts[1..] + [last];
    }
  }

  /** Adding an entry to a non-empty map extends its encoding by `&` and one
      field; the encoding of the empty map is the empty string. */
  lemma UrlEncodeAppend(m: seq<(string, Value)>, e: (string, Value), quote: string -> string)
    ensures UrlEncode(m + [e], quote) ==
      if m == [] then Field(e, quote) else UrlEncode(m, quote) + "&" + Field(e, quote)
  {
    assert Fields(m + [e], quote) == Fields(m, quote) + [Field(e, quote)];
    if m != [] {
      JoinAppend(Fields(m, quote), Field(e, quote));
    }
  }
}
