/** `json.dumps` of the template-id list that query sends: a list of
    `{"id": id}` objects with the default separators `", "` and `": "` and
    `ensure_ascii`, where a string id is quoted and escaped and an integer
    id is written bare.  A reader for exactly this text is its partner. */
module JsonIds {
  import opened Wrappers
  import opened Strings
  import opened Curator

  // ----- hexadecimal escapes -----

  function HexDigit(d: nat): (c: char)
    requires d < 16
    ensures HexValue(c) == Some(d)
  {
    if d < 10 then ('0' as int + d) as char else ('a' as int + d - 10) as char
  }

  /** A lower-case hexadecimal digit's value. */
  function HexValue(c: char): (r: Option<nat>)
    ensures r.Some? ==> r.value < 16
  {
    if '0' <= c <= '9' then Some(c as int - '0' as int)
    else if 'a' <= c <= 'f' then Some(c as int - 'a' as int + 10)
    else None
  }

  /** `'{0:04x}'.format(n)`: the four digits, most significant first. */
  function Hex4(n: nat): (r: string)
    requires n < 0x10000
    ensures |r| == 4
  {
    var r1 := n % 0x1000;
    var r2 := r1 % 0x100;
    [HexDigit(n / 0x1000), HexDigit(r1 / 0x100), HexDigit(r2 / 0x10), HexDigit(r2 % 0x10)]
  }

  function ReadHex4(s: string): (r: Option<nat>)
    requires |s| >= 4
    ensures r.Some? ==> r.value < 0x10000
  {
    match (HexValue(s[0]), HexValue(s[1]), HexValue(s[2]), HexValue(s[3]))
    case (Some(a), Some(b), Some(c), Some(d)) => Some(a * 0x1000 + b * 0x100 + c * 0x10 + d)
    case _ => None
  }

  lemma Hex4RoundTrip(n: nat, t: string)
    requires n < 0x10000
    ensures ReadHex4(Hex4(n) + t) == Some(n)
  {
    var r1 := n % 0x1000;
    var r2 := r1 % 0x100;
    assert n == n / 0x1000 * 0x1000 + r1;
    assert r1 == r1 / 0x100 * 0x100 + r2;
    assert r2 == r2 / 0x10 * 0x10 + r2 % 0x10;
    var s := Hex4(n) + t;
    assert s[0] == HexDigit(n / 0x1000) && s[1] == HexDigit(r1 / 0x100);
    assert s[2] == HexDigit(r2 / 0x10) && s[3] == HexDigit(r2 % 0x10);
  }

  // ----- string escapes -----

  const Backspace: char := 8 as char
  const FormFeed: char := 12 as char

  /** What `ensure_ascii` encoding writes for one character: the two-letter
      escapes, printable ASCII as itself, anything else as `\uXXXX` (a
      surrogate pair above U+FFFF). */
  function EscapeChar(c: char): (r: string)
    ensures |r| > 0 && r[0] != '"'
  {
    if c == '"' then "\\\""
    else if c == '\\' then "\\\\"
    else if c == '\n' then "\\n"
    else if c == '\r' then "\\r"
    else if c == '\t' then "\\t"
    else if c == Backspace then "\\b"
    else if c == FormFeed then "\\f"
    else if ' ' <= c <= '~' then [c]
    else if c as int < 0x10000 then "\\u" + Hex4(c as int)
    else
      var n := c as int - 0x10000;
      "\\u" + Hex4(0xD800 + n / 0x400) + "\\u" + Hex4(0xDC00 + n % 0x400)
  }

  function Escape(s: string): string {
    if s == [] then [] else EscapeChar(s[0]) + Escape(s[1..])
  }

  /** Reads one (possibly escaped) character of a JSON string body. */
  function ReadChar(s: string): (r: Option<(char, string)>)
    ensures r.Some? ==> |r.value.1| < |s|
  {
    if s == [] then None
    else if s[0] != '\\' then Some((s[0], s[1..]))
    else if |s| < 2 then None
    else if s[1] == '"' then Some(('"', s[2..]))
    else if s[1] == '\\' then Some(('\\', s[2..]))
    else if s[1] == 'n' then Some(('\n', s[2..]))
    else if s[1] == 'r' then Some(('\r', s[2..]))
    else if s[1] == 't' then Some(('\t', s[2..]))
    else if s[1] == 'b' then Some((Backspace, s[2..]))
    else if s[1] == 'f' then Some((FormFeed, s[2..]))
    else if s[1] != 'u' || |s| < 6 then None
    else
      match ReadHex4(s[2..6])
      case None => None
      case Some(hi) =>
        if hi < 0xD800 || 0xE000 <= hi then Some((hi as char, s[6..]))
        else if 0xDC00 <= hi || |s| < 12 || s[6] != '\\' || s[7] != 'u' then None
        else
          match ReadHex4(s[8..12])
          case None => None
          case Some(lo) =>
            if 0xDC00 <= lo < 0xE000 then Some(((0x10000 + (hi - 0xD800) * 0x400 + (lo - 0xDC00)) as char, s[12..]))
            else None
  }

  /** Reads a JSON string body up to its closing quote. */
  function ReadString(s: string): (r: Option<(string, string)>)
    ensures r.Some? ==> |r.value.1| < |s|
    decreases |s|
  {
    if s == [] then None
    else if s[0] == '"' then Some(([], s[1..]))
    else
      match ReadChar(s)
      case None => None
      case Some((c, t)) =>
        match ReadString(t)
        case None => None
        case Some((body, rest)) => Some(([c] + body, rest))
  }

  lemma ReadEscapedChar(c: char, t: string)
    ensures ReadChar(EscapeChar(c) + t) == Some((c, t))
  {
    var s := EscapeChar(c) + t;
    if c == '"' || c == '\\' || c == '\n' || c == '\r' || c == '\t' || c == Backspace || c == FormFeed {
      assert s[2..] == t;
    } else if ' ' <= c <= '~' {
      assert s[1..] == t;
    } else if c as int < 0x10000 {
      ReadBasicEscape(c, t);
    } else {
      ReadSurrogateEscape(c, t);
    }
  }

  /** A character of the basic plane reads back from its `\uXXXX`. */
  lemma ReadBasicEscape(c: char, t: string)
    requires c as int < 0xD800 || 0xE000 <= c as int < 0x10000
    ensures ReadChar("\\u" + Hex4(c as int) + t) == Some((c, t))
  {
    var s := "\\u" + Hex4(c as int) + t;
    assert s[2..6] == Hex4(c as int) + [];
    Hex4RoundTrip(c as int, []);
    assert s[6..] == t;
  }

  /** A character above U+FFFF reads back from its surrogate pair. */
  lemma ReadSurrogateEscape(c: char, t: string)
    requires 0x10000 <= c as int
    ensures var n := c as int - 0x10000;
      ReadChar("\\u" + Hex4(0xD800 + n / 0x400) + "\\u" + Hex4(0xDC00 + n % 0x400) + t) == Some((c, t))
  {
    var n := c as int - 0x10000;
    var hi := 0xD800 + n / 0x400;
    var lo := 0xDC00 + n % 0x400;
    var s := "\\u" + Hex4(hi) + "\\u" + Hex4(lo) + t;
    assert s[2..6] == Hex4(hi) + [];
    assert s[8..12] == Hex4(lo) + [];
    Hex4RoundTrip(hi, []);
    Hex4RoundTrip(lo, []);
    assert s[6] == '\\' && s[7] == 'u';
    assert s[12..] == t;
    assert 0x10000 + (hi - 0xD800) * 0x400 + (lo - 0xDC00) == c as int;
  }

  lemma {:induction false} ReadEscaped(body: string, rest: string)
    ensures ReadString(Escape(body) + "\"" + rest) == Some((body, rest))
    decreases |body|
  {
    if body == [] {
      assert Escape(body) + "\"" + rest == "\"" + rest;
      assert ("\"" + rest)[1..] == rest;
    } else {
      var e := EscapeChar(body[0]);
      var t := Escape(body[1..]) + "\"" + rest;
      assert Escape(body) + "\"" + rest == e + t;
      ReadEscapedChar(body[0], t);
      ReadEscaped(body[1..], rest);
      ReadStringStep(e + t, body[0], t, body[1..], rest);
      assert [body[0]] + body[1..] == body;
    }
  }

  /** A string body that does not end here reads its first character, then
      the rest of the body. */
  lemma ReadStringStep(s: string, c: char, t: string, body: string, rest: string)
    requires s != [] && s[0] != '"'
    requires ReadChar(s) == Some((c, t)) && ReadString(t) == Some((body, rest))
    ensures ReadString(s) == Some(([c] + body, rest))
  {
  }

  // ----- numbers -----

  /** How many digits `s` starts with. */
  function DigitRun(s: string): (k: nat)
    ensures k <= |s|
    ensures forall j :: 0 <= j < k ==> IsDigit(s[j])
    ensures k < |s| ==> !IsDigit(s[k])
  {
    if s == [] || !IsDigit(s[0]) then 0 else 1 + DigitRun(s[1..])
  }

  lemma {:induction false} DigitRunOf(d: string, t: string)
    requires forall j :: 0 <= j < |d| ==> IsDigit(d[j])
    requires t == [] || !IsDigit(t[0])
    ensures DigitRun(d + t) == |d|
    decreases |d|
  {
    if d == [] {
      assert d + t == t;
    } else {
      assert (d + t)[1..] == d[1..] + t;
      DigitRunOf(d[1..], t);
    }
  }

  /** Reads an unsigned run of digits. */
  function ReadDigits(s: string): (r: Option<(int, string)>)
    ensures r.Some? ==> |r.value.1| < |s|
  {
    var k := DigitRun(s);
    if k == 0 then None else Some((ParseNat(s[..k]), s[k..]))
  }

  /** Reads an optionally signed integer. */
  function ReadInt(s: string): (r: Option<(int, string)>)
    ensures r.Some? ==> |r.value.1| < |s|
  {
    if |s| > 0 && s[0] == '-' then
      match ReadDigits(s[1..])
      case None => None
      case Some((n, rest)) => Some((-n, rest))
    else ReadDigits(s)
  }

  lemma ReadDecimal(i: int, t: string)
    requires t == [] || !IsDigit(t[0])
    ensures ReadInt(DecimalString(i) + t) == Some((i, t))
  {
    if i < 0 {
      ReadNegative(i, t);
    } else {
      ReadNatural(i, t);
    }
  }

  /** The digits of `n` read back as `n`, up to the first non-digit. */
  lemma ReadDigitsOf(n: nat, t: string)
    requires t == [] || !IsDigit(t[0])
    ensures ReadDigits(NatDigits(n) + t) == Some((n, t))
  {
    var d := NatDigits(n);
    var s := d + t;
    DigitRunOf(d, t);
    assert s[..|d|] == d && s[|d|..] == t;
    ParseNatDigits(n);
  }

  lemma ReadNatural(n: nat, t: string)
    requires t == [] || !IsDigit(t[0])
    ensures ReadInt(NatDigits(n) + t) == Some((n, t))
    ensures DecimalString(n) == NatDigits(n)
  {
    ReadDigitsOf(n, t);
    assert (NatDigits(n) + t)[0] != '-';
  }

  lemma ReadNegative(i: int, t: string)
    requires i < 0
    requires t == [] || !IsDigit(t[0])
    ensures ReadInt(DecimalString(i) + t) == Some((i, t))
  {
    var n: nat := -i;
    var u := NatDigits(n) + t;
    assert DecimalString(i) + t == "-" + u;
    assert ("-" + u)[1..] == u;
    ReadDigitsOf(n, t);
  }

  // ----- the id list -----

  /** An id in its native JSON type. */
  function IdJson(id: Id): string {
    match id
    case StrId(s) => "\"" + Escape(s) + "\""
    case IntId(n) => DecimalString(n)
  }

  const ObjectHead := "{\"id\": "

  function Element(id: Id): string {
    ObjectHead + IdJson(id) + "}"
  }

  function Elements(ids: seq<Id>): string {
    if ids == [] then ""
    else if |ids| == 1 then Element(ids[0])
    else Element(ids[0]) + ", " + Elements(ids[1..])
  }

  /** `json.dumps([{"id": id} for id in ids])`. */
  function DumpIdRefs(ids: seq<Id>): (r: string)
    ensures |r| >= 2 && r[0] == '[' && r[|r| - 1] == ']'
  {
    "[" + Elements(ids) + "]"
  }

  function ReadId(s: string): (r: Option<(Id, string)>)
    ensures r.Some? ==> |r.value.1| < |s|
  {
    if |s| > 0 && s[0] == '"' then
      match ReadString(s[1..])
      case None => None
      case Some((body, rest)) => Some((StrId(body), rest))
    else
      match ReadInt(s)
      case None => None
      case Some((n, rest)) => Some((IntId(n), rest))
  }

  function ReadElement(s: string): (r: Option<(Id, string)>)
    ensures r.Some? ==> |r.value.1| < |s|
  {
    if |s| < 7 || s[..7] != ObjectHead then None
    else
      match ReadId(s[7..])
      case None => None
      case Some((id, rest)) =>
        if |rest| > 0 && rest[0] == '}' then Some((id, rest[1..])) else None
  }

  /** Reads elements separated by `, ` up to the closing `]`. */
  function ReadElements(s: string): (r: Option<seq<Id>>)
    decreases |s|
  {
    match ReadElement(s)
    case None => None
    case Some((id, rest)) =>
      if rest == "]" then Some([id])
      else if |rest| >= 2 && rest[..2] == ", " then
        match ReadElements(rest[2..])
        case None => None
        case Some(ids) => Some([id] + ids)
      else None
  }

  /** Reads back a dumped id list. */
  function ReadIdRefs(s: string): (r: Option<seq<Id>>) {
    if s == "[]" then Some([])
    else if |s| > 0 && s[0] == '[' then ReadElements(s[1..])
    else None
  }

  lemma ReadIdOf(id: Id, t: string)
    requires |t| > 0 && t[0] == '}'
    ensures ReadId(IdJson(id) + t) == Some((id, t))
  {
    match id
    case StrId(body) =>
      var s := IdJson(id) + t;
      assert s[1..] == Escape(body) + "\"" + t;
      ReadEscaped(body, t);
    case IntId(n) =>
      ReadDecimal(n, t);
      var d := DecimalString(n);
      if n >= 0 { assert d[0] != '"'; } else { assert d[0] == '-'; }
  }

  lemma ReadElementOf(id: Id, t: string)
    ensures ReadElement(Element(id) + t) == Some((id, t))
  {
    ReadIdOf(id, "}" + t);
    ReadElementParts(IdJson(id), id, t);
  }

  /** The head, an id's text that reads back as `id`, and a brace. */
  lemma ReadElementParts(j: string, id: Id, t: string)
    requires ReadId(j + ("}" + t)) == Some((id, "}" + t))
    ensures ReadElement(ObjectHead + j + "}" + t) == Some((id, t))
  {
    var u := "}" + t;
    var s := ObjectHead + j + "}" + t;
    assert s == ObjectHead + (j + u);
    assert s[..7] == ObjectHead && s[7..] == j + u;
    assert u[1..] == t;
    ReadElementAt(s, id, u);
  }

  /** An element is the object head, an id and a closing brace. */
  lemma ReadElementAt(s: string, id: Id, rest: string)
    requires |s| >= 7 && s[..7] == ObjectHead && ReadId(s[7..]) == Some((id, rest))
    requires |rest| > 0 && rest[0] == '}'
    ensures ReadElement(s) == Some((id, rest[1..]))
  {
  }

  lemma {:induction false} ReadElementsOf(ids: seq<Id>)
    requires ids != []
    ensures ReadElements(Elements(ids) + "]") == Some(ids)
    decreases |ids|
  {
    if |ids| == 1 {
      assert Elements(ids) == Element(ids[0]);
      ReadLastElement(ids[0]);
      assert ids == [ids[0]];
    } else {
      assert Elements(ids) + "]" == Element(ids[0]) + (", " + (Elements(ids[1..]) + "]"));
      ReadElementsOf(ids[1..]);
      ReadNextElement(ids[0], Elements(ids[1..]) + "]");
      assert [ids[0]] + ids[1..] == ids;
    }
  }

  /** The last element is followed by the closing bracket. */
  lemma ReadLastElement(id: Id)
    ensures ReadElements(Element(id) + "]") == Some([id])
  {
    ReadElementOf(id, "]");
  }

  /** An element followed by `, ` is followed by the others. */
  lemma ReadNextElement(id: Id, tail: string)
    ensures ReadElements(Element(id) + (", " + tail)) ==
      (match ReadElements(tail) case None => None case Some(ids) => Some([id] + ids))
  {
    var u := ", " + tail;
    ReadElementOf(id, u);
    assert u[..2] == ", " && u[2..] == tail;
    assert u != "]";
  }

  /** The server reads back exactly the ids sent, in order and each in its
      own type. */
  lemma DumpIdRefsRoundTrip(ids: seq<Id>)
    ensures ReadIdRefs(DumpIdRefs(ids)) == Some(ids)
  {
    var s := DumpIdRefs(ids);
    if ids == [] {
      assert s == "[]";
    } else {
      var e := Elements(ids);
      ElementsNonEmpty(ids);
      assert s == "[" + (e + "]");
      assert s[1] == e[0] == '{';
      assert s != "[]";
      assert s[1..] == e + "]";
      ReadElementsOf(ids);
    }
  }

  lemma ElementsNonEmpty(ids: seq<Id>)
    requires ids != []
    ensures |Elements(ids)| > 0 && Elements(ids)[0] == '{'
  {
    assert Element(ids[0])[0] == '{';
  }

  /** String ids are quoted, integer ids bare. */
  lemma DumpIdRefsNative()
    ensures DumpIdRefs([StrId("1")]) == "[{\"id\": \"1\"}]"
    ensures DumpIdRefs([IntId(1)]) == "[{\"id\": 1}]"
  {
    assert Escape("1") == "1";
    assert DecimalString(1) == "1";
  }

  /** Dumping is injective: distinct id lists are distinct texts. */
  lemma DumpIdRefsInjective(a: seq<Id>, b: seq<Id>)
    requires DumpIdRefs(a) == DumpIdRefs(b)
    ensures a == b
  {
    DumpIdRefsRoundTrip(a);
    DumpIdRefsRoundTrip(b);
  }
}
