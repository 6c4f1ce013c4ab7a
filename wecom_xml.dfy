/** The XML document `encrypt_message` builds before encryption: a root
    `<xml>` with one child per message key, in the message's iteration order,
    each holding `str(value)` as text, written the way ElementTree's
    `tostring` writes it (`&`, `<`, `>` escaped in text; an element without
    text written `<tag />`). A small reader recovers the fields from it. */
module WeComXml {
  import opened Wrappers
  import opened PyValue
  import opened PyString

  /** How ElementTree escapes one character of element text. */
  function EscapeChar(c: char): (r: string)
    ensures |r| >= 1 && '<' !in r
  {
    if c == '&' then "&amp;"
    else if c == '<' then "&lt;"
    else if c == '>' then "&gt;"
    else [c]
  }

  /** Element text as written: every `&`, `<` and `>` replaced by its entity. */
  function Escape(s: string): (r: string)
    ensures '<' !in r
    ensures |r| >= |s|
  {
    if s == [] then [] else EscapeChar(s[0]) + Escape(s[1..])
  }

  /** Whether `t` begins `&amp;`, `&lt;` or `&gt;`, compared character by
      character. */
  predicate AmpAt(t: string) {
    |t| >= 5 && t[0] == '&' && t[1] == 'a' && t[2] == 'm' && t[3] == 'p' && t[4] == ';'
  }

  predicate LtAt(t: string) {
    |t| >= 4 && t[0] == '&' && t[1] == 'l' && t[2] == 't' && t[3] == ';'
  }

  predicate GtAt(t: string) {
    |t| >= 4 && t[0] == '&' && t[1] == 'g' && t[2] == 't' && t[3] == ';'
  }

  /** The reader's inverse of `Escape`: the three entities back to their
      characters, everything else kept. */
  function Unescape(t: string): string
    decreases |t|
  {
    if t == [] then []
    else if AmpAt(t) then "&" + Unescape(t[5..])
    else if LtAt(t) then "<" + Unescape(t[4..])
    else if GtAt(t) then ">" + Unescape(t[4..])
    else [t[0]] + Unescape(t[1..])
  }

  lemma UnescapeEscapeChar(c: char, rest: string)
    ensures Unescape(EscapeChar(c) + rest) == [c] + Unescape(rest)
  {
    var t := EscapeChar(c) + rest;
    if c == '&' {
      assert AmpAt(t) && t[5..] == rest;
    } else if c == '<' {
      assert !AmpAt(t) && LtAt(t) && t[4..] == rest;
    } else if c == '>' {
      assert !AmpAt(t) && !LtAt(t) && GtAt(t) && t[4..] == rest;
    } else {
      assert t[0] == c && !AmpAt(t) && !LtAt(t) && !GtAt(t) && t[1..] == rest;
    }
  }

  /** Escaping loses nothing: the reader gets the original text back. */
  lemma {:induction false} UnescapeEscape(s: string)
    ensures Unescape(Escape(s)) == s
  {
    if s != [] {
      UnescapeEscapeChar(s[0], Escape(s[1..]));
      UnescapeEscape(s[1..]);
      assert [s[0]] + s[1..] == s;
    }
  }

  /** A tag the reader can delimit: non-empty, with no space and no `>`. */
  predicate PlainTag(tag: string) {
    tag != [] && ' ' !in tag && '>' !in tag
  }

  /** One child element: `<tag>text</tag>`, or `<tag />` when the text is
      empty. */
  function Element(tag: string, text: string): string {
    if text == "" then "<" + tag + " />"
    else "<" + tag + ">" + Escape(text) + "</" + tag + ">"
  }

  /** The children of the document for the message's fields, in order. */
  function Children(message: seq<(string, Value)>): (r: seq<string>)
    ensures |r| == |message|
  {
    if message == [] then []
    else Children(message[..|message| - 1]) + [Element(message[|message| - 1].0, Show(message[|message| - 1].1))]
  }

  /** The whole document: `<xml />` for an empty message. */
  function Document(message: seq<(string, Value)>): string {
    if message == [] then "<xml />" else "<xml>" + Concat(Children(message)) + "</xml>"
  }

  /** `encrypt_message`, step 1: a `SubElement` appended per message item,
      then the tree written out. */
  method SerialiseMessage(message: seq<(string, Value)>) returns (xml: string)
    ensures xml == Document(message)
  {
    var children: seq<string> := [];
    var i := 0;
    while i < |message|
      invariant 0 <= i <= |message|
      invariant children == Children(message[..i])
    {
      var (key, value) := message[i];
      assert message[..i + 1][..i] == message[..i];
      children := children + [Element(key, Show(value))];
      i := i + 1;
    }
    assert message[..|message|] == message;
    if children == [] {
      xml := "<xml />";
    } else {
      xml := "<xml>" + Concat(children) + "</xml>";
    }
  }

  // ---- The reader ----

  /** Length of the longest prefix of `s` with no character from `stop`. */
  function Span(s: string, stop: set<char>): (n: nat)
    ensures n <= |s|
    ensures forall i :: 0 <= i < n ==> s[i] !in stop
    ensures n < |s| ==> s[n] in stop
  {
    if s == [] || s[0] in stop then 0 else 1 + Span(s[1..], stop)
  }

  lemma {:induction false} SpanOfPrefix(a: string, b: string, stop: set<char>)
    requires forall i :: 0 <= i < |a| ==> a[i] !in stop
    requires b != [] && b[0] in stop
    ensures Span(a + b, stop) == |a|
  {
    if a == [] {
      assert a + b == b;
    } else {
      assert (a + b)[0] == a[0];
      assert (a + b)[1..] == a[1..] + b;
      SpanOfPrefix(a[1..], b, stop);
    }
  }

  predicate StartsWith(s: string, prefix: string) {
    |s| >= |prefix| && s[..|prefix|] == prefix
  }

  /** Reads one element at the start of `s`: its tag, its text as written
      (still escaped) and the number of characters it spans. */
  function ReadElement(s: string): (r: Option<(string, string, nat)>)
    ensures r.Some? ==> 0 < r.value.2 <= |s|
  {
    if |s| < 2 || s[0] != '<' then None
    else
      var n := Span(s[1..], {' ', '>'});
      ReadAfterTag(s[1..1 + n], s[1 + n..], 1 + n)
  }

  /** Reads what follows the tag: ` />`, or `>` then text and closing tag. */
  function ReadAfterTag(tag: string, rest: string, used: nat): (r: Option<(string, string, nat)>)
    ensures r.Some? ==> used < r.value.2 <= used + |rest|
  {
    if StartsWith(rest, " />") then Some((tag, "", used + 3))
    else if rest != [] && rest[0] == '>' then ReadBody(tag, rest[1..], used + 1)
    else None
  }

  /** Reads element text up to the next `<`, then the closing tag. */
  function ReadBody(tag: string, body: string, used: nat): (r: Option<(string, string, nat)>)
    ensures r.Some? ==> used < r.value.2 <= used + |body|
  {
    var m := Span(body, {'<'});
    var close := "</" + tag + ">";
    if StartsWith(body[m..], close) then Some((tag, body[..m], used + m + |close|))
    else None
  }

  /** Reads a run of elements covering all of `s`. */
  function ReadElements(s: string): Option<seq<(string, string)>>
    decreases |s|
  {
    if s == [] then Some([])
    else match ReadElement(s)
      case None => None
      case Some((tag, text, used)) =>
        match ReadElements(s[used..])
        case None => None
        case Some(more) => Some([(tag, text)] + more)
  }

  /** Every element text unescaped. */
  function UnescapeTexts(raw: seq<(string, string)>): (r: seq<(string, string)>)
    ensures |r| == |raw|
    ensures forall i :: 0 <= i < |raw| ==> r[i] == (raw[i].0, Unescape(raw[i].1))
  {
    if raw == [] then [] else [(raw[0].0, Unescape(raw[0].1))] + UnescapeTexts(raw[1..])
  }

  /** Reads a whole document: each child's tag and unescaped text, in order. */
  function ReadDocument(s: string): Option<seq<(string, string)>> {
    if s == "<xml />" then Some([])
    else if |s| >= 11 && s[..5] == "<xml>" && s[|s| - 6..] == "</xml>" then
      match ReadElements(s[5..|s| - 6])
      case None => None
      case Some(raw) => Some(UnescapeTexts(raw))
    else None
  }

  /** Element tags and texts as the reader should see them. */
  function Fields(message: seq<(string, Value)>): (r: seq<(string, string)>)
    ensures |r| == |message|
    ensures forall i :: 0 <= i < |message| ==> r[i] == (message[i].0, Show(message[i].1))
  {
    if message == [] then [] else Fields(message[..|message| - 1]) + [(message[|message| - 1].0, Show(message[|message| - 1].1))]
  }

  /** Element tags and texts as written. */
  function Written(message: seq<(string, Value)>): (r: seq<(string, string)>)
    ensures |r| == |message|
    ensures forall i :: 0 <= i < |message| ==> r[i] == (message[i].0, Escape(Show(message[i].1)))
  {
    if message == [] then [] else [(message[0].0, Escape(Show(message[0].1)))] + Written(message[1..])
  }

  /** The tag of an element written with a plain tag is read back whole. */
  lemma ReadTag(tag: string, tail: string)
    requires PlainTag(tag) && tail != [] && tail[0] in {' ', '>'}
    ensures var s := "<" + tag + tail;
      && |s| >= 2 && s[0] == '<'
      && Span(s[1..], {' ', '>'}) == |tag| && s[1..1 + |tag|] == tag && s[1 + |tag|..] == tail
  {
    var s := "<" + tag + tail;
    assert s[1..] == tag + tail;
    forall i | 0 <= i < |tag| ensures tag[i] !in {' ', '>'} {
      assert tag[i] in tag;
    }
    SpanOfPrefix(tag, tail, {' ', '>'});
  }

  /** The text of an element is read up to the closing tag, which follows. */
  lemma ReadBodyOf(tag: string, e: string, rest: string, used: nat)
    requires '<' !in e
    ensures ReadBody(tag, e + (("</" + tag + ">") + rest), used)
         == Some((tag, e, used + |e| + |"</" + tag + ">"|))
  {
    var close := "</" + tag + ">";
    var body := e + (close + rest);
    forall i | 0 <= i < |e| ensures e[i] !in {'<'} {
      assert e[i] in e;
    }
    SpanOfPrefix(e, close + rest, {'<'});
    assert body[..|e|] == e;
    assert body[|e|..] == close + rest;
    assert StartsWith(close + rest, close) by {
      assert (close + rest)[..|close|] == close;
    }
  }

  lemma ReadEmptyElementOf(tag: string, rest: string)
    requires PlainTag(tag)
    ensures ReadElement(Element(tag, "") + rest) == Some((tag, "", |Element(tag, "")|))
  {
    var tail := " />" + rest;
    assert Element(tag, "") + rest == "<" + tag + tail;
    ReadOpenTag(tag, tail);
    assert StartsWith(tail, " />") by { assert tail[..3] == " />"; }
    assert |Element(tag, "")| == 1 + |tag| + 3;
  }

  lemma ReadOpenTag(tag: string, tail: string)
    requires PlainTag(tag) && tail != [] && tail[0] in {' ', '>'}
    ensures ReadElement("<" + tag + tail) == ReadAfterTag(tag, tail, 1 + |tag|)
  {
    ReadTag(tag, tail);
  }

  lemma ReadAfterOpen(tag: string, body: string, used: nat)
    ensures ReadAfterTag(tag, ">" + body, used) == ReadBody(tag, body, used + 1)
  {
    var tail := ">" + body;
    assert !StartsWith(tail, " />") by { assert tail[0] == '>'; }
    assert tail[1..] == body;
  }

  lemma ElementParts(tag: string, e: string, rest: string)
    ensures "<" + tag + ">" + e + "</" + tag + ">" + rest == "<" + tag + (">" + (e + (("</" + tag + ">") + rest)))
  {
  }

  lemma ReadTextOf(tag: string, e: string, rest: string, s: string)
    requires PlainTag(tag) && '<' !in e
    requires s == "<" + tag + ">" + e + "</" + tag + ">" + rest
    ensures ReadElement(s) == Some((tag, e, |s| - |rest|))
  {
    var body := e + (("</" + tag + ">") + rest);
    ElementParts(tag, e, rest);
    ReadOpenTag(tag, ">" + body);
    ReadAfterOpen(tag, body, 1 + |tag|);
    ReadBodyOf(tag, e, rest, 2 + |tag|);
  }

  /** A non-empty text is written between an opening and a closing tag. */
  lemma TextElement(tag: string, text: string, rest: string)
    requires text != ""
    ensures Element(tag, text) + rest == "<" + tag + ">" + Escape(text) + "</" + tag + ">" + rest
  {
  }

  lemma ReadTextElementOf(tag: string, text: string, rest: string)
    requires PlainTag(tag) && text != ""
    ensures ReadElement(Element(tag, text) + rest) == Some((tag, Escape(text), |Element(tag, text)|))
  {
    var s := Element(tag, text) + rest;
    TextElement(tag, text, rest);
    ReadTextOf(tag, Escape(text), rest, s);
    assert |s| - |rest| == |Element(tag, text)|;
  }

  lemma ReadElementOf(tag: string, text: string, rest: string)
    requires PlainTag(tag)
    ensures ReadElement(Element(tag, text) + rest) == Some((tag, Escape(text), |Element(tag, text)|))
  {
    if text == "" {
      ReadEmptyElementOf(tag, rest);
    } else {
      ReadTextElementOf(tag, text, rest);
    }
  }

  /** An element read at the front of `e + tail` is followed by `tail`. */
  lemma ReadElementsCons(e: string, tail: string, tag: string, text: string)
    requires e != [] && ReadElement(e + tail) == Some((tag, text, |e|))
    ensures ReadElements(e + tail) ==
            match ReadElements(tail) case None => None case Some(more) => Some([(tag, text)] + more)
  {
    assert (e + tail)[|e|..] == tail;
  }

  lemma AppendAssoc<T>(a: seq<T>, b: seq<T>, c: seq<T>)
    ensures (a + b) + c == a + (b + c)
  {
  }

  /** The written children are the first element followed by the others. */
  lemma ChildrenText(message: seq<(string, Value)>, rest: string)
    requires message != []
    ensures Concat(Children(message)) + rest
         == Element(message[0].0, Show(message[0].1)) + (Concat(Children(message[1..])) + rest)
  {
    var h := Element(message[0].0, Show(message[0].1));
    var others := Children(message[1..]);
    ChildrenCons(message);
    ConcatCons(h, others);
    AppendAssoc(h, Concat(others), rest);
  }

  lemma WrittenCons(message: seq<(string, Value)>, more: seq<(string, string)>)
    requires message != []
    ensures Written(message) + more == [(message[0].0, Escape(Show(message[0].1)))] + (Written(message[1..]) + more)
  {
    var h := [(message[0].0, Escape(Show(message[0].1)))];
    var others := Written(message[1..]);
    assert Written(message) == h + others;
    AppendAssoc(h, others, more);
  }

  lemma {:induction false} ReadChildren(message: seq<(string, Value)>, rest: string)
    requires forall i :: 0 <= i < |message| ==> PlainTag(message[i].0)
    ensures ReadElements(Concat(Children(message)) + rest) ==
            match ReadElements(rest) case None => None case Some(more) => Some(Written(message) + more)
    decreases |message|
  {
    if message == [] {
      assert Concat(Children(message)) + rest == rest;
      match ReadElements(rest)
      case None =>
      case Some(more) =>
        assert Written(message) + more == more;
    } else {
      var tag, text := message[0].0, Show(message[0].1);
      var e := Element(tag, text);
      var tail := Concat(Children(message[1..])) + rest;
      ChildrenText(message, rest);
      ReadElementOf(tag, text, tail);
      ReadElementsCons(e, tail, tag, Escape(text));
      ReadChildren(message[1..], rest);
      match ReadElements(rest)
      case None =>
      case Some(more) =>
        WrittenCons(message, more);
    }
  }

  lemma {:induction false} ChildrenCons(message: seq<(string, Value)>)
    requires message != []
    ensures Children(message) == [Element(message[0].0, Show(message[0].1))] + Children(message[1..])
    decreases |message|
  {
    if |message| > 1 {
      var init := message[..|message| - 1];
      ChildrenCons(init);
      assert init[1..] == message[1..][..|message[1..]| - 1];
      assert init[0] == message[0];
      assert message[1..][|message[1..]| - 1] == message[|message| - 1];
    } else {
      assert message[..0] == [] && message[1..] == [];
    }
  }

  lemma ConcatCons(head: string, tail: seq<string>)
    ensures Concat([head] + tail) == head + Concat(tail)
  {
    assert ([head] + tail)[1..] == tail;
  }

  lemma UnescapeWritten(message: seq<(string, Value)>)
    ensures UnescapeTexts(Written(message)) == Fields(message)
  {
    forall i | 0 <= i < |message| ensures Unescape(Escape(Show(message[i].1))) == Show(message[i].1) {
      UnescapeEscape(Show(message[i].1));
    }
  }

  /** The reader strips the root element and reads the children. */
  lemma ReadWrapped(body: string)
    ensures ReadDocument("<xml>" + body + "</xml>")
         == match ReadElements(body) case None => None case Some(raw) => Some(UnescapeTexts(raw))
  {
    var s := "<xml>" + body + "</xml>";
    assert |s| >= 11 && s[4] == '>';
    assert s[..5] == "<xml>" && s[|s| - 6..] == "</xml>";
    assert s[5..|s| - 6] == body;
  }

  /** Reading the written document back gives every key with its `str(value)`,
      in order, when the keys are plain tags. */
  lemma {:induction false} ReadDocumentOf(message: seq<(string, Value)>)
    requires forall i :: 0 <= i < |message| ==> PlainTag(message[i].0)
    ensures ReadDocument(Document(message)) == Some(Fields(message))
  {
    if message != [] {
      var body := Concat(Children(message));
      ReadWrapped(body);
      ReadChildren(message, "");
      assert body + "" == body;
      assert Written(message) + [] == Written(message);
      UnescapeWritten(message);
    }
  }
}
