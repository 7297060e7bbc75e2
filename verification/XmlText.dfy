/** Characters in XML documents: what the printer escapes, and what a reader makes of it according to
    sections 2.2, 2.4, 2.11, 3.3.3 and 4.6 of XML 1.0 (Fifth Edition). */
module XmlText {
  import opened Wrappers

  /** `<` and `>` are the only characters that are escaped. */
  function EscapeChar(c: char): (r: string)
    ensures '<' !in r && '>' !in r && |r| > 0
  {
    if c == '<' then "&lt;" else if c == '>' then "&gt;" else [c]
  }

  function Escape(s: string): (r: string) {
    if s == "" then "" else EscapeChar(s[0]) + Escape(s[1..])
  }

  /** The characters an XML document may contain. */
  predicate Legal(c: char) {
    c == '\t' || c == '\n' || c == '\r' || (' ' <= c && c as int != 0xFFFE && c as int != 0xFFFF)
  }

  /** The predefined entity that a text begins with, and its length. */
  function Entity(s: string): (r: Option<(char, nat)>)
    ensures r.Some? ==> 4 <= r.value.1 <= |s| && s[0] == '&' && Legal(r.value.0) && r.value.0 != '\r'
    ensures r.Some? ==> forall i :: 1 <= i < r.value.1 ==> s[i] != '&' && s[i] != '<' && s[i] != '>'
  {
    if "&lt;" <= s then Some(('<', 4))
    else if "&gt;" <= s then Some(('>', 4))
    else if "&amp;" <= s then Some(('&', 5))
    else if "&quot;" <= s then Some(('"', 6))
    else if "&apos;" <= s then Some(('\'', 6))
    else None
  }

  function Prepend(c: char, r: Option<string>): Option<string> {
    if r.Some? then Some([c] + r.value) else None
  }

  /** Expands entities, turns every line break into a newline and refuses illegal characters. */
  function Decode(s: string): (r: Option<string>)
    ensures r.Some? ==> '\r' !in r.value && forall c :: c in r.value ==> Legal(c)
  {
    if s == "" then
      Some("")
    else if s[0] == '&' then
      if Entity(s).Some? then Prepend(Entity(s).value.0, Decode(s[Entity(s).value.1..])) else None
    else if s[0] == '\r' then
      Prepend('\n', Decode(if |s| > 1 && s[1] == '\n' then s[2..] else s[1..]))
    else if Legal(s[0]) then
      Prepend(s[0], Decode(s[1..]))
    else
      None
  }

  /** In property values tabs and newlines become spaces. */
  function Blank(s: string): (r: string) {
    if s == "" then "" else [if s[0] == '\t' || s[0] == '\n' then ' ' else s[0]] + Blank(s[1..])
  }

  function DecodeProperty(s: string): Option<string> {
    match Decode(s)
    case None => None
    case Some(t) => Some(Blank(t))
  }

  /** Text that survives printing and reading. */
  predicate Plain(s: string) {
    forall c :: c in s ==> Legal(c) && c != '&' && c != '\r'
  }

  /** A property value that survives printing and reading. */
  predicate PlainProperty(s: string) {
    Plain(s) && s != "" && forall c :: c in s ==> c != '"' && c != '\t' && c != '\n'
  }

  lemma {:induction false} EscapedHasNoOpening(s: string)
    ensures '<' !in Escape(s) && '>' !in Escape(s)
    ensures s != "" ==> Escape(s) != ""
  {
    if s != "" {
      EscapedHasNoOpening(s[1..]);
    }
  }

  lemma {:induction false} EscapedHasNoQuote(s: string)
    requires '"' !in s
    ensures '"' !in Escape(s)
  {
    if s != "" {
      EscapedHasNoQuote(s[1..]);
    }
  }

  lemma DecodesHead(c: char, rest: string)
    requires Legal(c) && c != '&' && c != '\r'
    ensures Decode(EscapeChar(c) + rest) == Prepend(c, Decode(rest))
  {
    var e := EscapeChar(c) + rest;
    assert e[|EscapeChar(c)|..] == rest;
    if c == '<' {
      assert "&lt;" <= e;
    } else if c == '>' {
      assert "&gt;" <= e && e[1] != "&lt;"[1];
    }
  }

  lemma {:induction false} PlainIsDecoded(s: string)
    requires Plain(s)
    ensures Decode(Escape(s)) == Some(s)
  {
    if s != "" {
      assert s == [s[0]] + s[1..];
      assert s[0] in s && forall c :: c in s[1..] ==> c in s;
      PlainIsDecoded(s[1..]);
      DecodesHead(s[0], Escape(s[1..]));
    }
  }

  lemma {:induction false} BlankKeeps(s: string)
    requires forall c :: c in s ==> c != '\t' && c != '\n'
    ensures Blank(s) == s
  {
    if s != "" {
      assert s == [s[0]] + s[1..];
      assert s[0] in s && forall c :: c in s[1..] ==> c in s;
      BlankKeeps(s[1..]);
    }
  }

  /** What an escaped text begins with, as far as it has not been escaped, the text begins with too. */
  lemma {:induction false} UnescapedPrefix(s: string, n: nat)
    requires n <= |Escape(s)| && forall i :: 0 <= i < n ==> Escape(s)[i] != '&'
    ensures n <= |s| && Escape(s)[n..] == Escape(s[n..])
    decreases n
  {
    if n > 0 {
      assert EscapeChar(s[0]) == [s[0]] by {
        assert Escape(s)[0] == EscapeChar(s[0])[0];
      }
      assert Escape(s)[1..] == Escape(s[1..]);
      UnescapedPrefix(s[1..], n - 1);
    }
  }

  /** Reading shortens a text, and an ampersand always costs characters. */
  lemma {:induction false} DecodedIsShorter(s: string)
    requires Decode(Escape(s)).Some?
    ensures |Decode(Escape(s)).value| <= |s|
    ensures '&' in s ==> |Decode(Escape(s)).value| < |s|
    decreases |s|, 1
  {
    if s != "" {
      match s[0] {
        case '&' => EntityIsShorter(s);
        case '\r' => BreakIsShorter(s);
        case _ => CharIsNoLonger(s);
      }
    }
  }

  lemma {:induction false} EntityIsShorter(s: string)
    requires s != "" && s[0] == '&'
    ensures Decode(Escape(s)).Some? ==> |Decode(Escape(s)).value| < |s|
    decreases |s|, 0
  {
    var e := Escape(s);
    assert e[0] == '&';
    if Decode(e).Some? {
      var n := Entity(e).value.1;
      AfterEntity(s, n);
      DecodedIsShorter(s[1..][n - 1..]);
    }
  }

  /** An entity that is read has been an ampersand and unescaped characters before. */
  lemma AfterEntity(s: string, n: nat)
    requires s != "" && s[0] == '&' && 1 <= n <= |Escape(s)|
    requires forall i :: 1 <= i < n ==> Escape(s)[i] != '&'
    ensures n - 1 <= |s| - 1 && Escape(s)[n..] == Escape(s[1..][n - 1..])
  {
    var rest := Escape(s[1..]);
    assert Escape(s) == "&" + rest;
    forall i | 0 <= i < n - 1 ensures rest[i] != '&' {
      assert rest[i] == Escape(s)[i + 1];
    }
    UnescapedPrefix(s[1..], n - 1);
    assert Escape(s)[n..] == rest[n - 1..];
  }

  lemma {:induction false} BreakIsShorter(s: string)
    requires s != "" && s[0] == '\r' && Decode(Escape(s)).Some?
    ensures |Decode(Escape(s)).value| <= |s|
    ensures '&' in s ==> |Decode(Escape(s)).value| < |s|
    decreases |s|, 0
  {
    var e, rest := Escape(s), s[1..];
    assert e == "\r" + Escape(rest) && s == [s[0]] + rest;
    if |e| > 1 && e[1] == '\n' {
      assert Escape(rest)[0] == '\n';
      UnescapedPrefix(rest, 1);
      assert e[2..] == Escape(rest[1..]) && rest == [rest[0]] + rest[1..];
      assert rest[0] == '\n';
      DecodedIsShorter(rest[1..]);
    } else {
      DecodedIsShorter(rest);
    }
  }

  lemma {:induction false} CharIsNoLonger(s: string)
    requires s != "" && s[0] != '&' && s[0] != '\r' && Decode(Escape(s)).Some?
    ensures |Decode(Escape(s)).value| <= |s|
    ensures '&' in s ==> |Decode(Escape(s)).value| < |s|
    decreases |s|, 0
  {
    assert s == [s[0]] + s[1..];
    assert Legal(s[0]);
    DecodesHead(s[0], Escape(s[1..]));
    DecodedIsShorter(s[1..]);
  }

  /** A text is read back as it was printed exactly when it is plain. */
  lemma PlainExactlyWhenDecoded(s: string)
    ensures Decode(Escape(s)) == Some(s) <==> Plain(s)
  {
    if Plain(s) {
      PlainIsDecoded(s);
    } else if Decode(Escape(s)) == Some(s) {
      DecodedIsShorter(s);
      assert false;
    }
  }
}
