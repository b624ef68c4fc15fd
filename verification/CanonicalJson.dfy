/**
 The canonical JSON text of a decoded tree: keys sorted, no insignificant space,
 numbers by their token (RFC 8259, sections 2 to 7). Two trees print alike only
 when they are the same tree.
 */
module CanonicalJson {
  import opened Words

  datatype Json =
    | JNull
    | JBool(b: bool)
    | JNumber(token: string)
    | JString(s: string)
    | JArray(items: seq<Json>)
    | JObject(fields: map<string, Json>)

  // ---------------------------------------------------------------------------
  // Strings
  // ---------------------------------------------------------------------------

  function HexDigit(n: int): (c: char)
    requires 0 <= n < 16
    ensures n < 10 ==> c as int == '0' as int + n
    ensures n >= 10 ==> c as int == 'a' as int + n - 10
  {
    "0123456789abcdef"[n]
  }

  function UnicodeEscape(n: int): string
    requires 0 <= n < 0x10000
  {
    var a := n / 16;
    var b := a / 16;
    var c := b / 16;
    ['\\', 'u', HexDigit(c), HexDigit(b % 16), HexDigit(a % 16), HexDigit(n % 16)]
  }

  /** Characters written as a backslash and one letter; '\0' for the others. */
  function ShortEscape(c: char): char {
    match c
    case '\"' => '\"'
    case '\\' => '\\'
    case '\n' => 'n'
    case '\r' => 'r'
    case '\t' => 't'
    case '\U{0008}' => 'b'
    case '\U{000C}' => 'f'
    case _ => '\0'
  }

  /** Characters written as a \u escape: controls, the HTML ones, and the two line separators. */
  predicate LongEscaped(c: char) {
    c < ' ' || c == '<' || c == '>' || c == '&' || c == '\U{2028}' || c == '\U{2029}'
  }

  function EscapeChar(c: char): (e: string)
    ensures |e| > 0 && e[0] != '\"'
  {
    if ShortEscape(c) != '\0' then ['\\', ShortEscape(c)]
    else if LongEscaped(c) then UnicodeEscape(c as int)
    else [c]
  }

  function Escape(s: string): string {
    if s == "" then "" else EscapeChar(s[0]) + Escape(s[1..])
  }

  function Quote(s: string): string {
    "\"" + Escape(s) + "\""
  }

  lemma ShortEscapeInjective(c: char, d: char)
    requires ShortEscape(c) != '\0' && ShortEscape(c) == ShortEscape(d)
    ensures c == d
  {
  }

  lemma HexDigitInjective(m: int, n: int)
    requires 0 <= m < 16 && 0 <= n < 16 && HexDigit(m) == HexDigit(n)
    ensures m == n
  {
  }

  lemma UnicodeEscapeInjective(m: int, n: int)
    requires 0 <= m < 0x10000 && 0 <= n < 0x10000 && UnicodeEscape(m) == UnicodeEscape(n)
    ensures m == n
  {
    var a, b := UnicodeEscape(m), UnicodeEscape(n);
    var m1, n1 := m / 16, n / 16;
    var m2, n2 := m1 / 16, n1 / 16;
    assert a[2] == b[2] && a[3] == b[3] && a[4] == b[4] && a[5] == b[5];
    HexDigitInjective(m2 / 16, n2 / 16);
    HexDigitInjective(m2 % 16, n2 % 16);
    HexDigitInjective(m1 % 16, n1 % 16);
    HexDigitInjective(m % 16, n % 16);
  }

  lemma EscapeCharInjective(c: char, d: char)
    requires EscapeChar(c) == EscapeChar(d)
    ensures c == d
  {
    var e, f := EscapeChar(c), EscapeChar(d);
    if ShortEscape(c) != '\0' {
      assert |f| == 2 && e[1] == f[1];
      ShortEscapeInjective(c, d);
    } else if LongEscaped(c) {
      assert |f| == 6;
      UnicodeEscapeInjective(c as int, d as int);
    } else {
      assert e[0] == f[0];
    }
  }

  lemma PrefixSplit(a: string, b: string, x: string, y: string)
    requires a + x == b + y && |a| == |b|
    ensures a == b && x == y
  {
    var w := a + x;
    assert a == w[..|a|] && b == w[..|b|] && x == w[|a|..] && y == w[|b|..];
  }

  /** The first two characters of a text tell how long its leading escape is. */
  lemma EscapeLength(c: char, x: string)
    ensures var e, w := EscapeChar(c), EscapeChar(c) + x;
      |e| == (if w[0] != '\\' then 1 else if w[1] == 'u' then 6 else 2)
  {
    var e, w := EscapeChar(c), EscapeChar(c) + x;
    assert w[0] == e[0];
    if |e| > 1 {
      assert w[1] == e[1];
    }
  }

  /** No escape is a prefix of another. */
  lemma EscapeCharUnique(c: char, d: char, x: string, y: string)
    requires EscapeChar(c) + x == EscapeChar(d) + y
    ensures c == d && x == y
  {
    EscapeLength(c, x);
    EscapeLength(d, y);
    PrefixSplit(EscapeChar(c), EscapeChar(d), x, y);
    EscapeCharInjective(c, d);
  }

  lemma EscapeHead(s: string, x: string)
    ensures Escape(s) + "\"" + x == if s == "" then "\"" + x else EscapeChar(s[0]) + (Escape(s[1..]) + "\"" + x)
    ensures (Escape(s) + "\"" + x)[0] == '\"' <==> s == ""
  {
    hide EscapeChar;
    if s != "" {
      var e, r := EscapeChar(s[0]), Escape(s[1..]);
      assert e + r + "\"" + x == e + (r + "\"" + x);
    }
  }

  /** A quoted string ends where its closing quote says. */
  lemma {:induction false} EscapeUnique(s: string, t: string, x: string, y: string)
    requires Escape(s) + "\"" + x == Escape(t) + "\"" + y
    ensures s == t && x == y
    decreases |s|
  {
    EscapeHead(s, x);
    EscapeHead(t, y);
    if s != "" && t != "" {
      EscapeCharUnique(s[0], t[0], Escape(s[1..]) + "\"" + x, Escape(t[1..]) + "\"" + y);
      EscapeUnique(s[1..], t[1..], x, y);
      assert s == [s[0]] + s[1..] && t == [t[0]] + t[1..];
    } else if s == "" && t == "" {
      SameTail('\"', x, y);
    }
  }

  lemma SameTail(c: char, x: string, y: string)
    requires [c] + x == [c] + y
    ensures x == y
  {
    assert x == ([c] + x)[1..] && y == ([c] + y)[1..];
  }

  lemma QuoteUnique(s: string, t: string, x: string, y: string)
    requires Quote(s) + x == Quote(t) + y
    ensures s == t && x == y
  {
    var u, v := Escape(s) + "\"" + x, Escape(t) + "\"" + y;
    assert Quote(s) + x == "\"" + u && Quote(t) + y == "\"" + v;
    SameTail('\"', u, v);
    EscapeUnique(s, t, x, y);
  }

  // ---------------------------------------------------------------------------
  // Key order
  // ---------------------------------------------------------------------------

  /** The order of key sorting: by code point, a proper prefix first. */
  predicate KeyLess(a: string, b: string) {
    if b == "" then false
    else if a == "" then true
    else a[0] < b[0] || (a[0] == b[0] && KeyLess(a[1..], b[1..]))
  }

  lemma {:induction false} KeyLessTransitive(a: string, b: string, c: string)
    requires KeyLess(a, b) && KeyLess(b, c)
    ensures KeyLess(a, c)
  {
    if a != "" && a[0] == b[0] && b[0] == c[0] {
      KeyLessTransitive(a[1..], b[1..], c[1..]);
    }
  }

  lemma {:induction false} KeyLessTotal(a: string, b: string)
    ensures a == b || KeyLess(a, b) || KeyLess(b, a)
    ensures !(a == b && KeyLess(a, b)) && !(KeyLess(a, b) && KeyLess(b, a))
  {
    if a != "" && b != "" && a[0] == b[0] {
      KeyLessTotal(a[1..], b[1..]);
      assert a == [a[0]] + a[1..] && b == [b[0]] + b[1..];
    }
  }

  ghost predicate KeysAscending(keys: seq<string>) {
    forall i, j :: 0 <= i < j < |keys| ==> KeyLess(keys[i], keys[j])
  }

  /** `keys` lists exactly the keys of the set, in order. */
  ghost predicate SortedFrom(keys: seq<string>, ks: set<string>) {
    KeysAscending(keys) && forall k :: k in keys <==> k in ks
  }

  method LeastKey(ks: set<string>) returns (least: string)
    requires ks != {}
    ensures least in ks && forall k :: k in ks && k != least ==> KeyLess(least, k)
  {
    least :| least in ks;
    var left := ks - {least};
    while left != {}
      invariant left <= ks && least in ks
      invariant forall k :: k in ks && k !in left && k != least ==> KeyLess(least, k)
      decreases |left|
    {
      var k: string :| k in left;
      KeyLessTotal(least, k);
      if KeyLess(k, least) {
        forall o | o in ks && o !in left && o != least
          ensures KeyLess(k, o)
        {
          KeyLessTransitive(k, least, o);
        }
        least := k;
      }
      left := left - {k};
    }
  }

  method SortKeys(ks: set<string>) returns (keys: seq<string>)
    ensures SortedFrom(keys, ks)
  {
    keys := [];
    var left := ks;
    while left != {}
      invariant left <= ks && KeysAscending(keys)
      invariant forall k :: k in keys <==> k in ks && k !in left
      invariant forall a, b :: a in keys && b in left ==> KeyLess(a, b)
      decreases |left|
    {
      var least := LeastKey(left);
      assert forall i :: 0 <= i < |keys| ==> keys[i] in keys;
      forall a, b | a in keys + [least] && b in left - {least}
        ensures KeyLess(a, b)
      {
        assert a in keys || a == least;
      }
      keys, left := keys + [least], left - {least};
    }
  }

  lemma EmptyListing(a: seq<string>, ks: set<string>)
    requires SortedFrom(a, ks)
    ensures a == [] <==> ks == {}
  {
    if a != [] {
      assert a[0] in ks;
    }
  }

  /** A set has one sorted listing. */
  lemma {:induction false} SortedUnique(a: seq<string>, b: seq<string>, ks: set<string>)
    requires SortedFrom(a, ks) && SortedFrom(b, ks)
    ensures a == b
    decreases |a|
  {
    EmptyListing(a, ks);
    EmptyListing(b, ks);
    if a != [] {
      assert a[0] in b && b[0] in a;
      KeyLessTotal(a[0], b[0]);
      assert forall k :: k in a && k != a[0] ==> KeyLess(a[0], k);
      assert forall k :: k in b && k != b[0] ==> KeyLess(b[0], k);
      TailSorted(a, ks);
      TailSorted(b, ks);
      SortedUnique(a[1..], b[1..], ks - {a[0]});
      assert a == [a[0]] + a[1..] && b == [b[0]] + b[1..];
    }
  }

  lemma TailSorted(a: seq<string>, ks: set<string>)
    requires SortedFrom(a, ks) && a != []
    ensures SortedFrom(a[1..], ks - {a[0]})
  {
    forall k
      ensures k in a[1..] <==> k in ks && k != a[0]
    {
      KeyLessTotal(a[0], a[0]);
      assert a == [a[0]] + a[1..];
    }
  }

  // ---------------------------------------------------------------------------
  // Trees
  // ---------------------------------------------------------------------------

  predicate NumberChar(c: char) {
    '0' <= c <= '9' || c == '-' || c == '+' || c == '.' || c == 'e' || c == 'E'
  }

  /** Every number token of the grammar: number characters, starting with a digit or a minus sign. */
  predicate NumberToken(t: string) {
    t != "" && (t[0] == '-' || '0' <= t[0] <= '9') && forall i :: 0 <= i < |t| ==> NumberChar(t[i])
  }

  /** A tree as the decoder produces it. */
  ghost predicate Decodable(j: Json) {
    match j
    case JNumber(t) => NumberToken(t)
    case JArray(items) => forall i :: 0 <= i < |items| ==> Decodable(items[i])
    case JObject(fields) => forall k :: k in fields ==> Decodable(fields[k])
    case _ => true
  }

  ghost function SortedKeys(ks: set<string>): (keys: seq<string>)
    ensures SortedFrom(keys, ks)
  {
    SomeListing(ks);
    var keys :| SortedFrom(keys, ks);
    keys
  }

  lemma {:induction false} SomeListing(ks: set<string>)
    ensures exists keys :: SortedFrom(keys, ks)
    decreases |ks|
  {
    if ks == {} {
      assert SortedFrom([], ks);
    } else {
      var least := SomeLeast(ks);
      SomeListing(ks - {least});
      var rest :| SortedFrom(rest, ks - {least});
      assert forall i :: 0 <= i < |rest| ==> rest[i] in rest;
      assert SortedFrom([least] + rest, ks);
    }
  }

  lemma {:induction false} SomeLeast(ks: set<string>) returns (least: string)
    requires ks != {}
    ensures least in ks && forall k :: k in ks && k != least ==> KeyLess(least, k)
    decreases |ks|
  {
    var x :| x in ks;
    least := x;
    if ks != {x} {
      assert ks - {x} != {};
      var m := SomeLeast(ks - {x});
      KeyLessTotal(x, m);
      if KeyLess(m, x) {
        least := m;
      }
      forall k | k in ks && k != least
        ensures KeyLess(least, k)
      {
        if k != x && k != m && least == x {
          KeyLessTransitive(x, m, k);
        }
      }
    }
  }

  /** The canonical text. */
  ghost function Print(j: Json): string
    decreases j, 2
  {
    match j
    case JNull => "null"
    case JBool(b) => if b then "true" else "false"
    case JNumber(t) => t
    case JString(s) => Quote(s)
    case JArray(items) => "[" + PrintItems(items) + "]"
    case JObject(fields) => "{" + PrintFields(j, SortedKeys(fields.Keys)) + "}"
  }

  ghost function PrintItems(items: seq<Json>): string
    decreases items, 0
  {
    if items == [] then ""
    else Print(items[0]) + if |items| == 1 then "" else "," + PrintItems(items[1..])
  }

  ghost function PrintFields(j: Json, keys: seq<string>): string
    requires j.JObject? && forall k :: k in keys ==> k in j.fields
    decreases j, 1, |keys|
  {
    if keys == [] then ""
    else Quote(keys[0]) + ":" + Print(j.fields[keys[0]]) + if |keys| == 1 then "" else "," + PrintFields(j, keys[1..])
  }

  // ---------------------------------------------------------------------------
  // Unique readability
  // ---------------------------------------------------------------------------

  /** What may follow a value inside a text. */
  predicate Ends(x: string) {
    x == "" || x[0] == ',' || x[0] == ']' || x[0] == '}'
  }

  /** The kind of a value shows in its first character. */
  predicate Opens(j: Json, c: char) {
    match j
    case JNull => c == 'n'
    case JBool(b) => c == if b then 't' else 'f'
    case JNumber(_) => c == '-' || '0' <= c <= '9'
    case JString(_) => c == '\"'
    case JArray(_) => c == '['
    case JObject(_) => c == '{'
  }

  lemma PrintOpens(j: Json)
    requires Decodable(j)
    ensures Print(j) != "" && Opens(j, Print(j)[0])
  {
  }

  /** How far number characters reach into a text. */
  function NumberReach(w: string): nat {
    if w == "" || !NumberChar(w[0]) then 0 else 1 + NumberReach(w[1..])
  }

  lemma {:induction false} NumberReachIsToken(s: string, x: string)
    requires (forall i :: 0 <= i < |s| ==> NumberChar(s[i])) && Ends(x)
    ensures NumberReach(s + x) == |s|
  {
    if s == "" {
      assert s + x == x;
    } else {
      assert (s + x)[1..] == s[1..] + x;
      NumberReachIsToken(s[1..], x);
    }
  }

  lemma NumberUnique(s: string, t: string, x: string, y: string)
    requires NumberToken(s) && NumberToken(t) && Ends(x) && Ends(y)
    requires s + x == t + y
    ensures s == t && x == y
  {
    NumberReachIsToken(s, x);
    NumberReachIsToken(t, y);
    PrefixSplit(s, t, x, y);
  }

  lemma RegroupText(a: string, b: string, c: string, d: string)
    ensures a + b + c + d == a + (b + c + d)
  {
    assert (a + b) + c == a + (b + c);
    assert (a + (b + c)) + d == a + ((b + c) + d);
  }

  ghost function ItemsRest(items: seq<Json>, x: string): string
    requires items != []
  {
    (if |items| == 1 then "" else "," + PrintItems(items[1..])) + "]" + x
  }

  lemma ItemsHead(items: seq<Json>, x: string)
    ensures PrintItems(items) + "]" + x == if items == [] then "]" + x else Print(items[0]) + ItemsRest(items, x)
  {
    if items != [] {
      var rest := if |items| == 1 then "" else "," + PrintItems(items[1..]);
      RegroupText(Print(items[0]), rest, "]", x);
    } else {
      assert "" + "]" + x == "]" + x;
    }
  }

  lemma ItemsRestHead(items: seq<Json>, x: string)
    requires items != []
    ensures ItemsRest(items, x) == if |items| == 1 then "]" + x else "," + (PrintItems(items[1..]) + "]" + x)
  {
    if |items| > 1 {
      RegroupText(",", PrintItems(items[1..]), "]", x);
    } else {
      assert "" + "]" + x == "]" + x;
    }
  }

  ghost function FieldsRest(j: Json, keys: seq<string>, x: string): string
    requires j.JObject? && keys != [] && forall k :: k in keys ==> k in j.fields
  {
    (if |keys| == 1 then "" else "," + PrintFields(j, keys[1..])) + "}" + x
  }

  lemma FieldsHead(j: Json, keys: seq<string>, x: string)
    requires j.JObject? && forall k :: k in keys ==> k in j.fields
    ensures PrintFields(j, keys) + "}" + x ==
            if keys == [] then "}" + x
            else Quote(keys[0]) + (":" + (Print(j.fields[keys[0]]) + FieldsRest(j, keys, x)))
  {
    if keys != [] {
      var q, p := Quote(keys[0]), Print(j.fields[keys[0]]);
      var rest := if |keys| == 1 then "" else "," + PrintFields(j, keys[1..]);
      RegroupField(q, p, rest, x);
    } else {
      assert "" + "}" + x == "}" + x;
    }
  }

  lemma RegroupField(q: string, p: string, r: string, x: string)
    ensures q + ":" + p + r + "}" + x == q + (":" + (p + (r + "}" + x)))
  {
    RegroupText(q, ":", p, r);
    RegroupText(q, ":" + p + r, "}", x);
    RegroupText(":", p, r, "}" + x);
    RegroupText(p, r, "}", x);
    var t := "}" + x;
    assert (":" + p + r) + "}" + x == ":" + p + r + t;
    assert p + r + t == p + r + "}" + x;
  }

  lemma FieldsRestHead(j: Json, keys: seq<string>, x: string)
    requires j.JObject? && keys != [] && forall k :: k in keys ==> k in j.fields
    ensures FieldsRest(j, keys, x) == if |keys| == 1 then "}" + x else "," + (PrintFields(j, keys[1..]) + "}" + x)
  {
    if |keys| > 1 {
      RegroupText(",", PrintFields(j, keys[1..]), "}", x);
    } else {
      assert "" + "}" + x == "}" + x;
    }
  }

  /** A value can be read off the front of a text in one way only. */
  lemma {:induction false} Readable(a: Json, b: Json, x: string, y: string)
    requires Decodable(a) && Decodable(b) && Ends(x) && Ends(y)
    requires Print(a) + x == Print(b) + y
    ensures a == b && x == y
    decreases a, 2
  {
    var w := Print(a) + x;
    PrintOpens(a);
    PrintOpens(b);
    assert w[0] == Print(a)[0] && w[0] == Print(b)[0];
    match a
    case JNull => PrefixSplit(Print(a), Print(b), x, y);
    case JBool(_) => PrefixSplit(Print(a), Print(b), x, y);
    case JNumber(t) => NumberUnique(t, b.token, x, y);
    case JString(s) => QuoteUnique(s, b.s, x, y);
    case JArray(items) =>
      var u, v := PrintItems(items) + "]" + x, PrintItems(b.items) + "]" + y;
      assert Print(a) + x == ['['] + u && Print(b) + y == ['['] + v;
      SameTail('[', u, v);
      ReadableItems(items, b.items, x, y);
    case JObject(fields) =>
      ReadableObject(a, b, x, y);
  }

  lemma {:induction false} ReadableItems(xs: seq<Json>, ys: seq<Json>, x: string, y: string)
    requires (forall i :: 0 <= i < |xs| ==> Decodable(xs[i])) && (forall i :: 0 <= i < |ys| ==> Decodable(ys[i]))
    requires PrintItems(xs) + "]" + x == PrintItems(ys) + "]" + y
    ensures xs == ys && x == y
    decreases xs, 0
  {
    ItemsHead(xs, x);
    ItemsHead(ys, y);
    if xs == [] && ys == [] {
      SameTail(']', x, y);
    } else if xs != [] && ys != [] {
      var u, v := ItemsRest(xs, x), ItemsRest(ys, y);
      ItemsRestHead(xs, x);
      ItemsRestHead(ys, y);
      Readable(xs[0], ys[0], u, v);
      assert u[0] == v[0];
      if |xs| == 1 {
        SameTail(']', x, y);
      } else {
        SameTail(',', PrintItems(xs[1..]) + "]" + x, PrintItems(ys[1..]) + "]" + y);
        ReadableItems(xs[1..], ys[1..], x, y);
      }
      assert xs == [xs[0]] + xs[1..] && ys == [ys[0]] + ys[1..];
    } else {
      EmptyItems(xs, x);
      EmptyItems(ys, y);
    }
  }

  lemma EmptyItems(xs: seq<Json>, x: string)
    requires forall i :: 0 <= i < |xs| ==> Decodable(xs[i])
    ensures (PrintItems(xs) + "]" + x)[0] == ']' <==> xs == []
  {
    ItemsHead(xs, x);
    if xs != [] {
      PrintOpens(xs[0]);
      assert (Print(xs[0]) + ItemsRest(xs, x))[0] == Print(xs[0])[0];
    }
  }

  lemma {:induction false} ReadableObject(a: Json, b: Json, x: string, y: string)
    requires Decodable(a) && Decodable(b) && a.JObject? && b.JObject?
    requires Print(a) + x == Print(b) + y
    ensures a == b && x == y
    decreases a, 1
  {
    var ka, kb := SortedKeys(a.fields.Keys), SortedKeys(b.fields.Keys);
    OpenBrace(a, ka, x);
    OpenBrace(b, kb, y);
    SameTail('{', PrintFields(a, ka) + "}" + x, PrintFields(b, kb) + "}" + y);
    ReadableFields(a, b, ka, kb, x, y);
    SameFields(a.fields, b.fields, ka);
  }

  lemma OpenBrace(j: Json, keys: seq<string>, x: string)
    requires j.JObject? && keys == SortedKeys(j.fields.Keys)
    ensures Print(j) + x == ['{'] + (PrintFields(j, keys) + "}" + x)
  {
  }

  lemma SameFields(f: map<string, Json>, g: map<string, Json>, keys: seq<string>)
    requires SortedFrom(keys, f.Keys) && SortedFrom(keys, g.Keys)
    requires forall k :: k in keys ==> k in f && k in g && f[k] == g[k]
    ensures f == g
  {
    forall k
      ensures k in f <==> k in g
    {
      assert k in f.Keys <==> k in keys;
      assert k in g.Keys <==> k in keys;
    }
    forall k | k in f
      ensures f[k] == g[k]
    {
      assert k in f.Keys;
    }
  }

  lemma {:induction false} ReadableFirstField(a: Json, b: Json, ka: seq<string>, kb: seq<string>, x: string, y: string)
    requires Decodable(a) && Decodable(b) && a.JObject? && b.JObject? && ka != [] && kb != []
    requires (forall k :: k in ka ==> k in a.fields) && (forall k :: k in kb ==> k in b.fields)
    requires PrintFields(a, ka) + "}" + x == PrintFields(b, kb) + "}" + y
    ensures ka[0] == kb[0] && a.fields[ka[0]] == b.fields[kb[0]]
    ensures FieldsRest(a, ka, x) == FieldsRest(b, kb, y)
    decreases a, 0, |ka|, 0
  {
    FieldsHead(a, ka, x);
    FieldsHead(b, kb, y);
    var u, v := FieldsRest(a, ka, x), FieldsRest(b, kb, y);
    var p, q := Print(a.fields[ka[0]]) + u, Print(b.fields[kb[0]]) + v;
    QuoteUnique(ka[0], kb[0], ":" + p, ":" + q);
    SameTail(':', p, q);
    FieldsRestHead(a, ka, x);
    FieldsRestHead(b, kb, y);
    Readable(a.fields[ka[0]], b.fields[kb[0]], u, v);
  }

  lemma {:induction false} ReadableFields(a: Json, b: Json, ka: seq<string>, kb: seq<string>, x: string, y: string)
    requires Decodable(a) && Decodable(b) && a.JObject? && b.JObject?
    requires (forall k :: k in ka ==> k in a.fields) && (forall k :: k in kb ==> k in b.fields)
    requires PrintFields(a, ka) + "}" + x == PrintFields(b, kb) + "}" + y
    ensures ka == kb && x == y
    ensures forall k :: k in ka ==> k in b.fields && a.fields[k] == b.fields[k]
    decreases a, 0, |ka|, 1
  {
    EmptyFields(a, ka, x);
    EmptyFields(b, kb, y);
    if ka == [] {
      SameTail('}', x, y);
    } else {
      ReadableFirstField(a, b, ka, kb, x, y);
      FieldsRestHead(a, ka, x);
      FieldsRestHead(b, kb, y);
      assert FieldsRest(a, ka, x)[0] == FieldsRest(b, kb, y)[0];
      if |ka| == 1 {
        SameTail('}', x, y);
      } else {
        SameTail(',', PrintFields(a, ka[1..]) + "}" + x, PrintFields(b, kb[1..]) + "}" + y);
        ReadableFields(a, b, ka[1..], kb[1..], x, y);
      }
      assert ka == [ka[0]] + ka[1..] && kb == [kb[0]] + kb[1..];
    }
  }

  lemma EmptyFields(j: Json, keys: seq<string>, x: string)
    requires j.JObject? && forall k :: k in keys ==> k in j.fields
    ensures keys == [] ==> PrintFields(j, keys) + "}" + x == "}" + x
    ensures (PrintFields(j, keys) + "}" + x)[0] == '}' <==> keys == []
  {
    FieldsHead(j, keys, x);
    if keys != [] {
      assert Quote(keys[0])[0] == '\"';
    }
  }

  // ---------------------------------------------------------------------------
  // The printer
  // ---------------------------------------------------------------------------

  /** The parts of a list, separated by commas. */
  function Join(parts: seq<string>): string {
    if parts == [] then ""
    else parts[0] + if |parts| == 1 then "" else "," + Join(parts[1..])
  }

  lemma {:induction false} JoinedItems(items: seq<Json>, parts: seq<string>)
    requires |parts| == |items| && forall i :: 0 <= i < |items| ==> parts[i] == Print(items[i])
    ensures Join(parts) == PrintItems(items)
    decreases |items|
  {
    if items != [] {
      JoinedItems(items[1..], parts[1..]);
    }
  }

  lemma {:induction false} JoinedFields(j: Json, keys: seq<string>, parts: seq<string>)
    requires j.JObject? && forall k :: k in keys ==> k in j.fields
    requires |parts| == |keys|
    requires forall i :: 0 <= i < |keys| ==> parts[i] == Quote(keys[i]) + ":" + Print(j.fields[keys[i]])
    ensures Join(parts) == PrintFields(j, keys)
    decreases |keys|
  {
    if keys != [] {
      JoinedFields(j, keys[1..], parts[1..]);
    }
  }

  /** Walks the tree; object keys are collected from the map and sorted. */
  method Canonicalize(j: Json) returns (text: string)
    ensures text == Print(j)
    decreases j, 1
  {
    match j
    case JNull => text := "null";
    case JBool(b) => text := if b then "true" else "false";
    case JNumber(token) => text := token;
    case JString(s) => text := Quote(s);
    case JArray(items) => text := CanonicalizeItems(j);
    case JObject(fields) => text := CanonicalizeFields(j);
  }

  method CanonicalizeItems(j: Json) returns (text: string)
    requires j.JArray?
    ensures text == Print(j)
    decreases j, 0
  {
    var parts: seq<string> := [];
    for i := 0 to |j.items|
      invariant |parts| == i && forall k :: 0 <= k < i ==> parts[k] == Print(j.items[k])
    {
      var part := Canonicalize(j.items[i]);
      parts := parts + [part];
    }
    JoinedItems(j.items, parts);
    text := "[" + Join(parts) + "]";
  }

  method CanonicalizeFields(j: Json) returns (text: string)
    requires j.JObject?
    ensures text == Print(j)
    decreases j, 0
  {
    var keys := SortKeys(j.fields.Keys);
    SortedUnique(keys, SortedKeys(j.fields.Keys), j.fields.Keys);
    var parts: seq<string> := [];
    for i := 0 to |keys|
      invariant |parts| == i
      invariant forall k :: 0 <= k < i ==>
                  keys[k] in j.fields && parts[k] == Quote(keys[k]) + ":" + Print(j.fields[keys[k]])
    {
      assert keys[i] in keys;
      var part := Canonicalize(j.fields[keys[i]]);
      parts := parts + [Quote(keys[i]) + ":" + part];
    }
    JoinedFields(j, keys, parts);
    text := "{" + Join(parts) + "}";
  }

  /** Two decoded trees print alike exactly when they are the same tree. */
  lemma CanonicalIdentifies(a: Json, b: Json)
    requires Decodable(a) && Decodable(b)
    ensures Print(a) == Print(b) <==> a == b
  {
    if Print(a) == Print(b) {
      assert Print(a) + "" == Print(b) + "";
      Readable(a, b, "", "");
    }
  }

  /**
   The number condition is needed: trees with unrestricted tokens can print alike.
   The decoder never produces them.
   */
  lemma TokensMustBeNumbers()
    ensures Print(JArray([JNumber("1,2")])) == Print(JArray([JNumber("1"), JNumber("2")]))
  {
    var one, two := [JNumber("1,2")], [JNumber("1"), JNumber("2")];
    assert two[1..] == [JNumber("2")];
    assert PrintItems(one) == "1,2" == PrintItems(two);
  }
}
