/**
 The scan that recovers a JSON object embedded in prose: a walk over the bytes of
 the text that tracks brace depth and skips string literals.
 */
module EmbeddedJson {
  import opened Words
  import opened CanonicalJson

  type Byte = x: int | 0 <= x < 0x100

  const QUOTE: Byte := 0x22
  const BACKSLASH: Byte := 0x5C
  const OPEN: Byte := 0x7B
  const CLOSE: Byte := 0x7D

  datatype Scan = Scan(depth: int, inString: bool, escaped: bool)

  function Outside(depth: int): Scan {
    Scan(depth, false, false)
  }

  function Inside(depth: int): Scan {
    Scan(depth, true, false)
  }

  /** What one byte does to the scan: braces count outside string literals only. */
  function Step(s: Scan, c: Byte): Scan {
    if s.inString then
      if s.escaped then s.(escaped := false)
      else if c == BACKSLASH then s.(escaped := true)
      else s.(inString := c != QUOTE)
    else if c == QUOTE then s.(inString := true)
    else if c == OPEN then s.(depth := s.depth + 1)
    else if c == CLOSE then s.(depth := s.depth - 1)
    else s
  }

  function Run(s: Scan, x: seq<Byte>): Scan
    decreases |x|
  {
    if x == [] then s else Run(Step(s, x[0]), x[1..])
  }

  /** The depth stays at `floor` or above through the whole of `x`. */
  predicate Above(s: Scan, x: seq<Byte>, floor: int)
    decreases |x|
  {
    s.depth >= floor && (x == [] || Above(Step(s, x[0]), x[1..], floor))
  }

  /** An opening brace closed by the last byte and by no earlier one. */
  predicate Balanced(x: seq<Byte>) {
    |x| > 1 && x[0] == OPEN && Run(Outside(0), x).depth == 0 && Above(Outside(1), x[1..|x| - 1], 1)
  }

  /** The scan result: the balanced object at the first brace, or nothing when that brace is never closed. */
  ghost predicate Extracted(text: seq<Byte>, r: Option<seq<Byte>>) {
    match r
    case Some(x) => Balanced(x) && exists p, q :: text == p + x + q && OPEN !in p
    case None => forall p, x, q :: text == p + x + q && OPEN !in p ==> !Balanced(x)
  }

  // ---------------------------------------------------------------------------
  // The scan
  // ---------------------------------------------------------------------------

  lemma {:induction false} RunAppend(s: Scan, x: seq<Byte>, y: seq<Byte>)
    ensures Run(s, x + y) == Run(Run(s, x), y)
    decreases |x|
  {
    if x == [] {
      assert x + y == y;
    } else {
      assert (x + y)[1..] == x[1..] + y;
      RunAppend(Step(s, x[0]), x[1..], y);
    }
  }

  lemma {:induction false} AboveAppend(s: Scan, x: seq<Byte>, y: seq<Byte>, floor: int)
    ensures Above(s, x + y, floor) <==> Above(s, x, floor) && Above(Run(s, x), y, floor)
    decreases |x|
  {
    if x == [] {
      assert x + y == y;
    } else {
      assert (x + y)[1..] == x[1..] + y;
      AboveAppend(Step(s, x[0]), x[1..], y, floor);
    }
  }

  lemma {:induction false} AboveEnd(s: Scan, x: seq<Byte>, floor: int)
    requires Above(s, x, floor)
    ensures Run(s, x).depth >= floor
    decreases |x|
  {
    if x != [] {
      AboveEnd(Step(s, x[0]), x[1..], floor);
    }
  }

  lemma RunSnoc(s: Scan, x: seq<Byte>, c: Byte)
    ensures Run(s, x + [c]) == Step(Run(s, x), c)
  {
    RunAppend(s, x, [c]);
    assert Run(Run(s, x), [c]) == Step(Run(s, x), c);
  }

  method ExtractEmbeddedObject(text: seq<Byte>) returns (r: Option<seq<Byte>>)
    ensures Extracted(text, r)
  {
    var start := 0;
    while start < |text| && text[start] != OPEN
      invariant 0 <= start <= |text| && OPEN !in text[..start]
    {
      assert text[..start + 1] == text[..start] + [text[start]];
      start := start + 1;
    }
    if start == |text| {
      NoBrace(text);
      return None;
    }
    var scan := Outside(0);
    var i := start;
    while i < |text|
      invariant start <= i <= |text|
      invariant scan == Run(Outside(0), text[start..i])
      invariant i > start ==> Above(Outside(1), text[start + 1..i], 1)
    {
      assert text[start..i + 1] == text[start..i] + [text[i]];
      RunSnoc(Outside(0), text[start..i], text[i]);
      scan := Step(scan, text[i]);
      i := i + 1;
      if !scan.inString && text[i - 1] == CLOSE && scan.depth == 0 {
        FoundBalanced(text, start, i);
        return Some(text[start..i]);
      }
      StillOpen(text, start, i);
    }
    assert text[start + 1..i] == text[start + 1..];
    NeverClosed(text, start);
    return None;
  }

  lemma NoBrace(text: seq<Byte>)
    requires OPEN !in text
    ensures Extracted(text, None)
  {
    forall p: seq<Byte>, x: seq<Byte>, q: seq<Byte> | text == p + x + q
      ensures !Balanced(x)
    {
      if |x| > 0 {
        assert text[|p|] == x[0];
      }
    }
  }

  lemma Cut(text: seq<Byte>, i: nat, j: nat)
    requires i <= j <= |text|
    ensures text == text[..i] + text[i..j] + text[j..]
  {
    assert text[i..] == text[i..j] + text[j..];
    assert text == text[..i] + text[i..];
  }

  lemma SliceOfSlice(text: seq<Byte>, i: nat, j: nat, a: nat, b: nat)
    requires i <= j <= |text| && a <= b <= j - i
    ensures text[i..j][a..b] == text[i + a..i + b]
  {
    var x, y := text[i..j][a..b], text[i + a..i + b];
    assert |x| == |y|;
    forall k | 0 <= k < |x|
      ensures x[k] == y[k]
    {
      assert x[k] == text[i..j][a + k] == text[i + (a + k)];
    }
  }

  lemma FoundBalanced(text: seq<Byte>, start: nat, end: nat)
    requires start < end <= |text| && OPEN !in text[..start] && text[start] == OPEN
    requires end > start + 1 && Above(Outside(1), text[start + 1..end - 1], 1)
    requires Run(Outside(0), text[start..end]).depth == 0
    ensures Extracted(text, Some(text[start..end]))
  {
    var p, x, q := text[..start], text[start..end], text[end..];
    SliceOfSlice(text, start, end, 1, |x| - 1);
    Cut(text, start, end);
  }

  lemma OneStepIn(text: seq<Byte>, start: nat, end: nat)
    requires start < end <= |text| && text[start] == OPEN
    ensures Run(Outside(0), text[start..end]) == Run(Outside(1), text[start + 1..end])
  {
    assert text[start..end][1..] == text[start + 1..end];
  }

  /** After a byte that does not close the object, the depth is still at least one. */
  lemma StillOpen(text: seq<Byte>, start: nat, end: nat)
    requires start < end <= |text| && text[start] == OPEN
    requires end > start + 1 ==> Above(Outside(1), text[start + 1..end - 1], 1)
    requires var s := Run(Outside(0), text[start..end]); s.inString || text[end - 1] != CLOSE || s.depth != 0
    ensures Above(Outside(1), text[start + 1..end], 1)
  {
    if end > start + 1 {
      var x, c := text[start + 1..end - 1], text[end - 1];
      assert text[start + 1..end] == x + [c];
      OneStepIn(text, start, end);
      RunSnoc(Outside(1), x, c);
      AboveEnd(Outside(1), x, 1);
      AboveAppend(Outside(1), x, [c], 1);
      assert [c][1..] == [];
    }
  }

  /** Where the first brace is. */
  function FirstBrace(text: seq<Byte>): nat {
    if text == [] || text[0] == OPEN then 0 else 1 + FirstBrace(text[1..])
  }

  lemma {:induction false} FirstBraceAfter(p: seq<Byte>, rest: seq<Byte>)
    requires OPEN !in p && rest != [] && rest[0] == OPEN
    ensures FirstBrace(p + rest) == |p|
    decreases |p|
  {
    if p == [] {
      assert p + rest == rest;
    } else {
      assert p[0] in p && (p + rest)[1..] == p[1..] + rest;
      FirstBraceAfter(p[1..], rest);
    }
  }

  lemma FirstBraceUnique(text: seq<Byte>, p: seq<Byte>, x: seq<Byte>, q: seq<Byte>, start: nat)
    requires text == p + x + q && OPEN !in p && |x| > 0 && x[0] == OPEN
    requires start < |text| && OPEN !in text[..start] && text[start] == OPEN
    ensures |p| == start && x == text[start..start + |x|]
  {
    assert text == p + (x + q) && text == text[..start] + text[start..];
    FirstBraceAfter(p, x + q);
    FirstBraceAfter(text[..start], text[start..]);
  }

  lemma NeverClosed(text: seq<Byte>, start: nat)
    requires start < |text| && OPEN !in text[..start] && text[start] == OPEN
    requires Above(Outside(1), text[start + 1..], 1)
    ensures Extracted(text, None)
  {
    forall p: seq<Byte>, x: seq<Byte>, q: seq<Byte> | text == p + x + q && OPEN !in p
      ensures !Balanced(x)
    {
      if |x| > 0 && x[0] == OPEN {
        FirstBraceUnique(text, p, x, q, start);
        var end := start + |x|;
        OneStepIn(text, start, end);
        assert text[start + 1..] == text[start + 1..end] + text[end..];
        AboveAppend(Outside(1), text[start + 1..end], text[end..], 1);
        AboveEnd(Outside(1), text[start + 1..end], 1);
      }
    }
  }

  // ---------------------------------------------------------------------------
  // What the scan returns is determined
  // ---------------------------------------------------------------------------

  /** No balanced object is a proper prefix of another, so the result is the shortest one. */
  lemma BalancedUnique(x: seq<Byte>, y: seq<Byte>, u: seq<Byte>, v: seq<Byte>)
    requires Balanced(x) && Balanced(y) && x + u == y + v
    ensures x == y
  {
    var w := x + u;
    assert x == w[..|x|] && y == w[..|y|];
    NotProperPrefix(x, y);
    NotProperPrefix(y, x);
  }

  lemma NotProperPrefix(x: seq<Byte>, y: seq<Byte>)
    requires Balanced(x) && Balanced(y)
    ensures |x| < |y| ==> x != y[..|x|]
  {
    if |x| < |y| && x == y[..|x|] {
      var inner := y[1..|y| - 1];
      assert inner == x[1..] + inner[|x| - 1..];
      AboveAppend(Outside(1), x[1..], inner[|x| - 1..], 1);
      AboveEnd(Outside(1), x[1..], 1);
      assert false;
    }
  }

  /** The result is the balanced object at the first brace whenever there is one. */
  lemma ExtractedUnique(text: seq<Byte>, p: seq<Byte>, x: seq<Byte>, q: seq<Byte>, r: Option<seq<Byte>>)
    requires text == p + x + q && OPEN !in p && Balanced(x)
    requires Extracted(text, r)
    ensures r == Some(x)
  {
    var y := r.value;
    var p', q' :| text == p' + y + q' && OPEN !in p';
    SameObject(text, p, x, q, p', y, q');
  }

  lemma SameObject(text: seq<Byte>, p: seq<Byte>, x: seq<Byte>, q: seq<Byte>,
                   p': seq<Byte>, x': seq<Byte>, q': seq<Byte>)
    requires text == p + x + q && OPEN !in p && Balanced(x)
    requires text == p' + x' + q' && OPEN !in p' && Balanced(x')
    ensures x == x'
  {
    assert text == p + (x + q) && text == p' + (x' + q');
    FirstBraceAfter(p, x + q);
    FirstBraceAfter(p', x' + q');
    assert x + q == text[|p|..] && x' + q' == text[|p|..];
    BalancedUnique(x, x', q, q');
  }

  // ---------------------------------------------------------------------------
  // UTF-8
  // ---------------------------------------------------------------------------

  /** The UTF-8 bytes of one code point. */
  function EncodeChar(c: char): (e: seq<Byte>)
    ensures c as int < 0x80 ==> e == [c as int]
    ensures c as int >= 0x80 ==> forall b :: b in e ==> b >= 0x80
  {
    var n := c as int;
    if n < 0x80 then [n]
    else if n < 0x800 then [0xC0 + n / 0x40, 0x80 + n % 0x40]
    else if n < 0x10000 then [0xE0 + n / 0x1000, 0x80 + n / 0x40 % 0x40, 0x80 + n % 0x40]
    else [0xF0 + n / 0x40000 % 8, 0x80 + n / 0x1000 % 0x40, 0x80 + n / 0x40 % 0x40, 0x80 + n % 0x40]
  }

  function Encode(s: string): seq<Byte> {
    if s == "" then [] else EncodeChar(s[0]) + Encode(s[1..])
  }

  lemma {:induction false} EncodeAppend(s: string, t: string)
    ensures Encode(s + t) == Encode(s) + Encode(t)
  {
    if s == "" {
      assert s + t == t;
    } else {
      assert (s + t)[1..] == s[1..] + t;
      EncodeAppend(s[1..], t);
      assert EncodeChar(s[0]) + (Encode(s[1..]) + Encode(t)) == Encode(s) + Encode(t);
    }
  }

  // ---------------------------------------------------------------------------
  // Printed values leave the scan where it was
  // ---------------------------------------------------------------------------

  /** The scan goes from one state to another without dipping below the depth it started at. */
  predicate Crosses(s: Scan, x: string, t: Scan) {
    Run(s, Encode(x)) == t && Above(s, Encode(x), s.depth)
  }

  lemma CrossesAppend(s: Scan, x: string, t: Scan, y: string, u: Scan)
    requires Crosses(s, x, t) && Crosses(t, y, u) && s.depth <= t.depth
    ensures Crosses(s, x + y, u)
  {
    EncodeAppend(x, y);
    RunAppend(s, Encode(x), Encode(y));
    AboveAppend(s, Encode(x), Encode(y), s.depth);
    AboveLower(t, Encode(y), t.depth, s.depth);
  }

  lemma {:induction false} AboveLower(s: Scan, x: seq<Byte>, high: int, low: int)
    requires Above(s, x, high) && low <= high
    ensures Above(s, x, low)
    decreases |x|
  {
    if x != [] {
      AboveLower(Step(s, x[0]), x[1..], high, low);
    }
  }

  lemma AsciiCrosses(s: Scan, c: char)
    requires c as int < 0x80 && Step(s, c as int).depth >= s.depth
    ensures Crosses(s, [c], Step(s, c as int))
  {
    assert [c][1..] == "";
    var b: Byte := c as int;
    assert Encode([c]) == [b];
    assert [b][1..] == [];
    assert Above(Step(s, b), [], s.depth);
  }

  lemma {:induction false} HighBytesStay(s: Scan, x: seq<Byte>)
    requires !s.escaped && forall b :: b in x ==> b >= 0x80
    ensures Run(s, x) == s && Above(s, x, s.depth)
    decreases |x|
  {
    if x != [] {
      assert x[0] in x && forall b :: b in x[1..] ==> b in x;
      HighBytesStay(s, x[1..]);
    }
  }

  /** Unstructured characters are skipped. */
  predicate Plain(c: char) {
    c != '\"' && c != '{' && c != '}'
  }

  lemma {:induction false} PlainCrosses(d: int, x: string)
    requires forall i :: 0 <= i < |x| ==> Plain(x[i]) && x[i] as int < 0x80
    ensures Crosses(Outside(d), x, Outside(d))
  {
    if x != "" {
      AsciiCrosses(Outside(d), x[0]);
      PlainCrosses(d, x[1..]);
      assert x == [x[0]] + x[1..];
      CrossesAppend(Outside(d), [x[0]], Outside(d), x[1..], Outside(d));
    }
  }

  /** A character that needs no escape keeps the scan inside its string. */
  lemma BareCrosses(d: int, c: char)
    requires c != '\"' && c != '\\'
    ensures Crosses(Inside(d), [c], Inside(d))
  {
    var s := Inside(d);
    assert [c][1..] == "";
    assert Encode([c]) == EncodeChar(c);
    if c as int < 0x80 {
      AsciiCrosses(s, c);
    } else {
      HighBytesStay(s, EncodeChar(c));
    }
  }

  /** A backslash hides the character after it. */
  lemma PairCrosses(d: int, c: char)
    requires c as int < 0x80
    ensures Crosses(Inside(d), ['\\', c], Inside(d))
  {
    var s := Inside(d);
    AsciiCrosses(s, '\\');
    AsciiCrosses(s.(escaped := true), c);
    CrossesAppend(s, ['\\'], s.(escaped := true), [c], s);
    assert ['\\'] + [c] == ['\\', c];
  }

  /** A longer escape is a backslash pair, followed by harmless characters. */
  lemma EscapeIsPair(c: char)
    requires |EscapeChar(c)| > 1
    ensures var e := EscapeChar(c);
      && e == ['\\', e[1]] + e[2..] && e[1] as int < 0x80
      && forall i :: 0 <= i < |e[2..]| ==> e[2..][i] as int < 0x80 && e[2..][i] != '\"' && e[2..][i] != '\\'
  {
    var e := EscapeChar(c);
    if |e| == 2 {
      assert e[2..] == "";
    }
  }

  /** An escaped character keeps the scan inside its string. */
  lemma EscapeCrosses(d: int, c: char)
    ensures Crosses(Inside(d), EscapeChar(c), Inside(d))
  {
    var e := EscapeChar(c);
    if |e| == 1 {
      BareCrosses(d, c);
    } else {
      EscapeIsPair(c);
      PairCrosses(d, e[1]);
      HexCrosses(d, e[2..]);
      CrossesAppend(Inside(d), ['\\', e[1]], Inside(d), e[2..], Inside(d));
    }
  }

  lemma {:induction false} HexCrosses(d: int, x: string)
    requires forall i :: 0 <= i < |x| ==> x[i] as int < 0x80 && x[i] != '\"' && x[i] != '\\'
    ensures Crosses(Inside(d), x, Inside(d))
  {
    if x != "" {
      AsciiCrosses(Inside(d), x[0]);
      HexCrosses(d, x[1..]);
      assert x == [x[0]] + x[1..];
      CrossesAppend(Inside(d), [x[0]], Inside(d), x[1..], Inside(d));
    }
  }

  lemma {:induction false} TextCrosses(d: int, s: string)
    ensures Crosses(Inside(d), Escape(s), Inside(d))
  {
    if s != "" {
      EscapeCrosses(d, s[0]);
      TextCrosses(d, s[1..]);
      CrossesAppend(Inside(d), EscapeChar(s[0]), Inside(d), Escape(s[1..]), Inside(d));
    }
  }

  lemma QuoteCrosses(d: int, s: string)
    ensures Crosses(Outside(d), Quote(s), Outside(d))
  {
    AsciiCrosses(Outside(d), '\"');
    TextCrosses(d, s);
    AsciiCrosses(Inside(d), '\"');
    CrossesAppend(Outside(d), "\"", Inside(d), Escape(s), Inside(d));
    CrossesAppend(Outside(d), "\"" + Escape(s), Inside(d), "\"", Outside(d));
  }

  lemma NumberCrosses(d: int, t: string)
    requires NumberToken(t)
    ensures Crosses(Outside(d), t, Outside(d))
  {
    forall i | 0 <= i < |t|
      ensures Plain(t[i]) && t[i] as int < 0x80
    {
      assert NumberChar(t[i]);
    }
    PlainCrosses(d, t);
  }

  /** Every printed value is crossed at the depth it starts at. */
  lemma {:induction false} PrintCrosses(d: int, j: Json)
    requires Decodable(j)
    ensures Crosses(Outside(d), Print(j), Outside(d))
    decreases j, 2
  {
    match j
    case JNull => PlainCrosses(d, Print(j));
    case JBool(_) => PlainCrosses(d, Print(j));
    case JNumber(t) => NumberCrosses(d, t);
    case JString(s) => QuoteCrosses(d, s);
    case JArray(items) =>
      PlainCrosses(d, "[");
      ItemsCross(d, items);
      PlainCrosses(d, "]");
      CrossesAppend(Outside(d), "[", Outside(d), PrintItems(items), Outside(d));
      CrossesAppend(Outside(d), "[" + PrintItems(items), Outside(d), "]", Outside(d));
    case JObject(fields) =>
      ObjectCrosses(d, j);
  }

  lemma {:induction false} ItemsCross(d: int, items: seq<Json>)
    requires forall i :: 0 <= i < |items| ==> Decodable(items[i])
    ensures Crosses(Outside(d), PrintItems(items), Outside(d))
    decreases items, 0
  {
    var o := Outside(d);
    if items == [] {
      PlainCrosses(d, "");
    } else {
      PrintCrosses(d, items[0]);
      if |items| > 1 {
        PlainCrosses(d, ",");
        ItemsCross(d, items[1..]);
        CrossesAppend(o, ",", o, PrintItems(items[1..]), o);
        CrossesAppend(o, Print(items[0]), o, "," + PrintItems(items[1..]), o);
      } else {
        assert Print(items[0]) + "" == Print(items[0]);
      }
    }
  }

  lemma {:induction false} FieldsCross(d: int, j: Json, keys: seq<string>)
    requires Decodable(j) && j.JObject? && forall k :: k in keys ==> k in j.fields
    ensures Crosses(Outside(d), PrintFields(j, keys), Outside(d))
    decreases j, 0, |keys|
  {
    var o := Outside(d);
    if keys == [] {
      PlainCrosses(d, "");
    } else {
      var q, p := Quote(keys[0]) + ":", Print(j.fields[keys[0]]);
      QuoteCrosses(d, keys[0]);
      PlainCrosses(d, ":");
      CrossesAppend(o, Quote(keys[0]), o, ":", o);
      PrintCrosses(d, j.fields[keys[0]]);
      CrossesAppend(o, q, o, p, o);
      if |keys| > 1 {
        PlainCrosses(d, ",");
        FieldsCross(d, j, keys[1..]);
        CrossesAppend(o, ",", o, PrintFields(j, keys[1..]), o);
        CrossesAppend(o, q + p, o, "," + PrintFields(j, keys[1..]), o);
      } else {
        assert q + p + "" == q + p;
      }
    }
  }

  /** The fields of an object run one level deeper, so its own brace is the one that closes it. */
  lemma {:induction false} ObjectCrosses(d: int, j: Json)
    requires Decodable(j) && j.JObject?
    ensures Crosses(Outside(d), Print(j), Outside(d))
    decreases j, 1
  {
    var body := PrintFields(j, SortedKeys(j.fields.Keys));
    AsciiCrosses(Outside(d), '{');
    FieldsCross(d + 1, j, SortedKeys(j.fields.Keys));
    CrossesAppend(Outside(d), "{", Outside(d + 1), body, Outside(d + 1));
    CloseCrosses(d);
    EncodeAppend("{" + body, "}");
    RunAppend(Outside(d), Encode("{" + body), Encode("}"));
    AboveAppend(Outside(d), Encode("{" + body), Encode("}"), d);
  }

  lemma CloseCrosses(d: int)
    ensures Encode("}") == [CLOSE]
    ensures Run(Outside(d + 1), Encode("}")) == Outside(d)
    ensures Above(Outside(d + 1), Encode("}"), d)
  {
    assert "}"[1..] == "";
    assert Encode("}") == [CLOSE];
    assert [CLOSE][1..] == [];
    assert Above(Outside(d), [], d);
  }

  /** A printed object is balanced, whatever braces, quotes and backslashes its strings hold. */
  lemma PrintedBalanced(j: Json)
    requires Decodable(j) && j.JObject?
    ensures Balanced(Encode(Print(j)))
  {
    var body := PrintFields(j, SortedKeys(j.fields.Keys));
    var inner, x := Encode(body), Encode(Print(j));
    FieldsCross(1, j, SortedKeys(j.fields.Keys));
    EncodeAppend("{" + body, "}");
    EncodeAppend("{", body);
    CloseCrosses(0);
    OpenBytes();
    assert x == [OPEN] + inner + [CLOSE];
    assert x[1..|x| - 1] == inner;
    ObjectCrosses(0, j);
  }

  lemma OpenBytes()
    ensures Encode("{") == [OPEN]
  {
    assert "{"[1..] == "";
  }

  /** A printed object embedded after brace-free text is recovered exactly. */
  lemma RecoversPrintedObject(p: seq<Byte>, j: Json, q: seq<Byte>, r: Option<seq<Byte>>)
    requires Decodable(j) && j.JObject? && OPEN !in p
    requires Extracted(p + Encode(Print(j)) + q, r)
    ensures r == Some(Encode(Print(j)))
  {
    PrintedBalanced(j);
    ExtractedUnique(p + Encode(Print(j)) + q, p, Encode(Print(j)), q, r);
  }

  // ---------------------------------------------------------------------------
  // Repair
  // ---------------------------------------------------------------------------

  /** The strict parse wins; only after it failed is the embedded object parsed instead. */
  ghost predicate Repaired<A(!new)>(text: seq<Byte>, parse: seq<Byte> -> Option<A>, r: Option<A>) {
    if parse(text).Some? then r == parse(text)
    else exists x :: Extracted(text, x) && r == if x.Some? then parse(x.value) else None
  }

  /** Captures a plan, falling back to the object embedded in prose. */
  method CaptureWithRepair<A(!new)>(text: seq<Byte>, parse: seq<Byte> -> Option<A>) returns (r: Option<A>)
    ensures Repaired(text, parse, r)
    ensures parse(text).Some? ==> r == parse(text)
  {
    r := parse(text);
    if r.None? {
      var x := ExtractEmbeddedObject(text);
      if x.Some? {
        r := parse(x.value);
      }
    }
  }

  /** A plan object wrapped in prose without an earlier brace is captured as if it stood alone. */
  lemma RepairRecovers<A(!new)>(p: seq<Byte>, j: Json, q: seq<Byte>, parse: seq<Byte> -> Option<A>, r: Option<A>)
    requires Decodable(j) && j.JObject? && OPEN !in p
    requires parse(p + Encode(Print(j)) + q).None? && Repaired(p + Encode(Print(j)) + q, parse, r)
    ensures r == parse(Encode(Print(j)))
  {
    var text := p + Encode(Print(j)) + q;
    var x :| Extracted(text, x) && r == if x.Some? then parse(x.value) else None;
    RecoversPrintedObject(p, j, q, x);
  }
}
