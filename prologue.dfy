/** The XML-prologue encoding sniff that upload_template, update_template,
    upload_xslt, update_xslt and upload_record each carry a copy of, and the
    encoding step built on it. */
module Prologue {
  import opened Wrappers
  import opened Strings

  const DefaultEncoding := "UTF-8"

  /** `pat` occurs at `i` and nowhere before. */
  predicate FirstAt(s: string, pat: string, i: int) {
    OccursAt(s, pat, i) && forall j :: 0 <= j < i ==> !OccursAt(s, pat, j)
  }

  /** Where the declared name lies, found by the slicing of the source:
      the prologue ends at the first `?>`, the declaration starts after the
      first `encoding` in front of it, and the name is `content[start..end]`. */
  datatype Span = NoDeclaration | MissingQuote | Quoted(start: nat, end: nat)

  /** The two `index('"')` steps: the text between the first two quotes of
      `content[s..e]`, as positions in `content`. */
  function QuotedValue(content: string, s: nat, e: nat): (r: Option<(nat, nat)>)
    requires s <= e <= |content|
    ensures r.Some? ==> s < r.value.0 <= r.value.1 < e
    ensures r.Some? ==> content[r.value.0 - 1] == '"' && content[r.value.1] == '"'
    ensures r.Some? ==> forall k :: s <= k < r.value.0 - 1 ==> content[k] != '"'
    ensures r.Some? ==> forall k :: r.value.0 <= k < r.value.1 ==> content[k] != '"'
  {
    match IndexOfChar(content[s..e], '"')
    case None => None
    case Some(q1) =>
      QuoteInSlice(content, s, e, q1);
      var s2 := q1 + s + 1;
      match IndexOfChar(content[s2..e], '"')
      case None => None
      case Some(q2) =>
        QuoteInSlice(content, s2, e, q2);
        Some((s2, s2 + q2))
  }

  /** A quote found in `content[s..e]` at offset `q`, in terms of `content`. */
  lemma QuoteInSlice(content: string, s: nat, e: nat, q: nat)
    requires s <= e <= |content| && IndexOfChar(content[s..e], '"') == Some(q)
    ensures s + q < e && content[s + q] == '"'
    ensures forall k :: s <= k < s + q ==> content[k] != '"'
  {
    var t := content[s..e];
    assert content[s + q] == t[q];
    forall k | s <= k < s + q ensures content[k] != '"' {
      assert content[k] == t[k - s];
    }
  }

  /** The index arithmetic of the sniff. */
  function SniffSpan(content: string): (r: Span)
    ensures r.Quoted? ==> 0 < r.start <= r.end < |content|
    ensures r.Quoted? ==> content[r.start - 1] == '"' && content[r.end] == '"'
    ensures r.Quoted? ==> forall k :: r.start <= k < r.end ==> content[k] != '"'
  {
    match IndexOf(content, "?>")
    case None => NoDeclaration
    case Some(e) =>
      match IndexOf(content[..e], "encoding")
      case None => NoDeclaration
      case Some(p) =>
        match QuotedValue(content, p + 8, e)
        case None => MissingQuote
        case Some(span) => Quoted(span.0, span.1)
  }

  /** The encoding name the upload functions encode text with: the declared
      one, UTF-8 when there is no declaration, and the uncaught ValueError of
      `str.index` when a quote is missing. */
  function SniffEncoding(content: string): (r: Result<string>)
    ensures (forall j :: !OccursAt(content, "?>", j)) ==> r == Ok(DefaultEncoding)
    ensures r.Err? ==> r == Err(ValueError("substring not found"))
    ensures r.Ok? && r.value != DefaultEncoding ==> forall k :: 0 <= k < |r.value| ==> r.value[k] != '"'
  {
    match SniffSpan(content)
    case NoDeclaration => Ok(DefaultEncoding)
    case MissingQuote => Err(ValueError("substring not found"))
    case Quoted(a, b) => Ok(content[a..b])
  }

  /** No `encoding` in front of the first `?>` means UTF-8. */
  lemma {:induction false} SniffWithoutDeclaration(content: string, e: nat)
    requires FirstAt(content, "?>", e)
    requires forall p :: !OccursAt(content[..e], "encoding", p)
    ensures SniffEncoding(content) == Ok(DefaultEncoding)
  {
    IndexOfIsFirst(content, "?>", e);
    IndexOfAbsent(content[..e], "encoding");
  }

  /** `content[from..to].index('"')` is the offset of the first quote at or
      after `from`. */
  lemma {:induction false} QuoteFirst(content: string, from: nat, to: nat, q: nat)
    requires from <= q < to <= |content|
    requires content[q] == '"'
    requires forall k :: from <= k < q ==> content[k] != '"'
    ensures IndexOfChar(content[from..to], '"') == Some(q - from)
  {
    var t := content[from..to];
    assert t[q - from] == '"';
    assert forall k :: 0 <= k < q - from ==> t[k] == content[from + k];
  }

  /** The declared name is the text between the first two `"` that follow
      the first `encoding`, all in front of the first `?>`. */
  lemma {:induction false} SniffDeclared(content: string, e: nat, p: nat, q1: nat, q2: nat)
    requires FirstAt(content, "?>", e)
    requires FirstAt(content[..e], "encoding", p)
    requires p + 8 <= q1 < q2 < e
    requires content[q1] == '"' && content[q2] == '"'
    requires forall k :: p + 8 <= k < q1 ==> content[k] != '"'
    requires forall k :: q1 < k < q2 ==> content[k] != '"'
    ensures SniffEncoding(content) == Ok(content[q1 + 1..q2])
  {
    IndexOfIsFirst(content, "?>", e);
    IndexOfIsFirst(content[..e], "encoding", p);
    QuotedValueAt(content, p + 8, e, q1, q2);
    assert SniffSpan(content) == Quoted(q1 + 1, q2);
  }

  /** The two quote searches find the quotes at `q1` and `q2`. */
  lemma {:induction false} QuotedValueAt(content: string, s: nat, e: nat, q1: nat, q2: nat)
    requires s <= q1 < q2 < e <= |content|
    requires content[q1] == '"' && content[q2] == '"'
    requires forall k :: s <= k < q1 ==> content[k] != '"'
    requires forall k :: q1 < k < q2 ==> content[k] != '"'
    ensures QuotedValue(content, s, e) == Some((q1 + 1, q2))
  {
    QuoteFirst(content, s, e, q1);
    QuoteFirst(content, q1 + 1, e, q2);
  }

  /** Fewer than two quotes between `encoding` and `?>` make the sniff raise. */
  lemma {:induction false} SniffMissingQuote(content: string, e: nat, p: nat)
    requires FirstAt(content, "?>", e)
    requires FirstAt(content[..e], "encoding", p)
    requires forall a, b :: p + 8 <= a < b < e && content[a] == '"' ==> content[b] != '"'
    ensures SniffEncoding(content) == Err(ValueError("substring not found"))
  {
    IndexOfIsFirst(content, "?>", e);
    IndexOfIsFirst(content[..e], "encoding", p);
    var s := p + 8;
    var t1 := content[s..e];
    match IndexOfChar(t1, '"')
    case None =>
    case Some(q1) =>
      assert content[s + q1] == t1[q1];
      var s2 := q1 + s + 1;
      var t2 := content[s2..e];
      assert forall k :: 0 <= k < |t2| ==> t2[k] == content[s2 + k];
      assert IndexOfChar(t2, '"') == None;
  }

  /** The XML declaration a schema or record file usually starts with,
      naming `enc` and followed by further attributes such as `standalone`. */
  function Declaration(enc: string, attrs: string): string {
    "<?xml version=\"1.0\" encoding=\"" + enc + "\"" + attrs + "?>"
  }

  /** A document that starts with a declaration naming `enc` is sniffed as
      `enc`, whatever follows it. */
  lemma {:induction false} SniffDeclarationRoundTrip(enc: string, attrs: string, rest: string)
    requires forall k :: 0 <= k < |enc| ==> enc[k] != '"' && enc[k] != '?'
    requires forall k :: 0 <= k < |attrs| ==> attrs[k] != '?'
    ensures SniffEncoding(Declaration(enc, attrs) + rest) == Ok(enc)
  {
    DeclarationLayout(enc, attrs, rest);
    SniffLaidOut(Declaration(enc, attrs) + rest, enc, 30 + |enc|, 30 + |enc| + 1 + |attrs|);
  }

  /** A document laid out as a declaration head, a quoted `enc` and a `?>`
      at `e` with no `?` before it is sniffed as `enc`. */
  lemma {:induction false} SniffLaidOut(content: string, enc: string, q2: nat, e: nat)
    requires q2 == 30 + |enc| && q2 < e
    requires |content| >= e + 2 && content[..30] == DeclarationHead
    requires content[29] == '"' && content[q2] == '"' && content[30..q2] == enc
    requires forall k :: 30 <= k < q2 ==> content[k] != '"'
    requires forall k :: 30 <= k < e ==> content[k] != '?'
    requires content[e] == '?' && content[e + 1] == '>'
    ensures SniffEncoding(content) == Ok(enc)
  {
    DeclarationEndAt(content, e);
    var pre := content[..e];
    assert pre[..30] == content[..30];
    DeclarationHeadEncoding(pre, DeclarationHead);
    assert content[28] == DeclarationHead[28];
    SniffDeclared(content, e, 20, 29, q2);
  }

  const DeclarationHead := "<?xml version=\"1.0\" encoding=\""

  /** Where the parts of a declaration lie in the document. */
  lemma {:induction false} DeclarationLayout(enc: string, attrs: string, rest: string)
    requires forall k :: 0 <= k < |enc| ==> enc[k] != '"' && enc[k] != '?'
    requires forall k :: 0 <= k < |attrs| ==> attrs[k] != '?'
    ensures var content := Declaration(enc, attrs) + rest;
      var q2 := 30 + |enc|;
      var e := q2 + 1 + |attrs|;
      && |content| >= e + 2 && content[..30] == DeclarationHead
      && content[29] == '"' && content[q2] == '"' && content[30..q2] == enc
      && (forall k :: 30 <= k < q2 ==> content[k] != '"')
      && (forall k :: 30 <= k < e ==> content[k] != '?')
      && content[e] == '?' && content[e + 1] == '>'
  {
    var content := Declaration(enc, attrs) + rest;
    var q2 := 30 + |enc|;
    var e := q2 + 1 + |attrs|;
    assert |DeclarationHead| == 30;
    assert content == DeclarationHead + enc + "\"" + attrs + "?>" + rest;
    assert content[..30] == DeclarationHead;
    assert forall k :: 30 <= k < q2 ==> content[k] == enc[k - 30];
    assert forall k :: q2 < k < e ==> content[k] == attrs[k - q2 - 1];
    assert content[30..q2] == enc;
  }

  /** The first `?>` of a document that starts with the head and has no `?`
      from position 30 up to `e` is the one at `e`. */
  lemma {:induction false} DeclarationEndAt(content: string, e: nat)
    requires 30 <= e && |content| >= e + 2 && content[..30] == DeclarationHead
    requires forall k :: 30 <= k < e ==> content[k] != '?'
    requires content[e] == '?' && content[e + 1] == '>'
    ensures FirstAt(content, "?>", e)
  {
    assert content[e..e + 2] == ['?', '>'];
    DeclarationHeadNoEnd(content, DeclarationHead);
    forall j | 30 <= j < e ensures !OccursAt(content, "?>", j) {
      assert content[j..j + 2][0] == content[j];
    }
  }

  /** The fixed head of a declaration holds no `?>`. */
  lemma {:induction false} DeclarationHeadNoEnd(content: string, head: string)
    requires head == "<?xml version=\"1.0\" encoding=\""
    requires |content| >= 31 && content[..30] == head
    ensures forall j :: 0 <= j < 30 ==> !OccursAt(content, "?>", j)
  {
    forall j | 0 <= j < 30 ensures !OccursAt(content, "?>", j) {
      assert content[j] == head[j];
      if j != 1 {
        assert head[j] != '?';
        assert content[j..j + 2][0] == content[j];
      } else {
        assert content[j + 1] == head[j + 1] == 'x';
        assert content[j..j + 2][1] == content[j + 1];
      }
    }
  }

  /** The first `encoding` of a declaration is the one at position 20. */
  lemma {:induction false} DeclarationHeadEncoding(pre: string, head: string)
    requires head == "<?xml version=\"1.0\" encoding=\""
    requires |pre| >= 30 && pre[..30] == head
    ensures FirstAt(pre, "encoding", 20)
  {
    assert pre[20..28] == head[20..28] == "encoding";
    forall j | 0 <= j < 20 ensures !OccursAt(pre, "encoding", j) {
      assert pre[j] == head[j];
      assert pre[j + 1] == head[j + 1];
      if j != 7 {
        assert head[j] != 'e';
        assert pre[j..j + 8][0] == pre[j];
      } else {
        assert head[8] == 'r';
        assert pre[j..j + 8][1] == pre[j + 1];
      }
    }
  }

  /** Schema, XSLT and record content as a caller passes it. */
  datatype Content = Text(s: string) | Bytes(b: seq<byte>) | NonText(repr: string)

  /** Content as it is sent: text with the codec it is encoded with, bytes
      as given, or (update_xslt only) an unrecognised value passed through. */
  datatype Payload = Encoded(text: string, encoding: string) | Raw(bytes: seq<byte>) | AsGiven(repr: string)

  /** The encoding step of the upload functions: text is encoded with the
      sniffed codec, bytes pass through, anything else is a TypeError. */
  function EncodeContent(c: Content): (r: Result<Payload>)
    ensures c.Bytes? ==> r == Ok(Raw(c.b))
    ensures c.NonText? ==> r == Err(TypeError("content must be str or bytes"))
    ensures c.Text? ==> (r.Ok? <==> SniffEncoding(c.s).Ok?)
    ensures c.Text? && r.Ok? ==> r.value == Encoded(c.s, SniffEncoding(c.s).value)
  {
    match c
    case Text(s) =>
      var enc :- SniffEncoding(s);
      Ok(Encoded(s, enc))
    case Bytes(b) => Ok(Raw(b))
    case NonText(_) => Err(TypeError("content must be str or bytes"))
  }

  /** update_xslt's variant: text is encoded the same way, and anything that
      is not text is sent unchanged, with no type check. */
  function EncodeIfText(c: Content): (r: Result<Payload>)
    ensures !c.Text? ==> r.Ok?
    ensures c.Text? ==> r == EncodeContent(c)
    ensures c.Bytes? ==> r == EncodeContent(c)
    ensures c.NonText? ==> r == Ok(AsGiven(c.repr))
  {
    match c
    case Text(_) => EncodeContent(c)
    case Bytes(b) => Ok(Raw(b))
    case NonText(v) => Ok(AsGiven(v))
  }
}
