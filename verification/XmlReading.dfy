/** The reader is exact on what the printer emits: it returns the printed element with every text decoded. */
module XmlReading {
  import opened Wrappers
  import opened XmlText
  import opened XmlDocuments

  lemma {:induction false} NameLengthIs(name: string, rest: string)
    requires forall i :: 0 <= i < |name| ==> NameChar(name[i])
    requires rest != "" && !NameChar(rest[0])
    ensures NameLength(name + rest) == |name|
  {
    if name == "" {
      assert name + rest == rest;
    } else {
      NameLengthIs(name[1..], rest);
      assert (name + rest)[1..] == name[1..] + rest;
    }
  }

  lemma {:induction false} DataLengthIs(data: string, rest: string, inProperty: bool)
    requires '<' !in data && (inProperty ==> '"' !in data)
    requires rest != "" && (rest[0] == '<' || (inProperty && rest[0] == '"'))
    ensures DataLength(data + rest, inProperty) == |data|
  {
    if data == "" {
      assert data + rest == rest;
    } else {
      assert data == [data[0]] + data[1..];
      DataLengthIs(data[1..], rest, inProperty);
      assert (data + rest)[1..] == data[1..] + rest;
    }
  }

  // ----- concatenations, grouped as the printer appends them and as the reader takes them apart -----

  lemma Regroup(a: string, b: string, c: string)
    ensures (a + b) + c == a + (b + c)
  {}

  lemma Regroup4(a: string, b: string, c: string, d: string)
    ensures (a + (b + c)) + d == a + (b + (c + d))
  {
    Regroup(a, b + c, d);
    Regroup(b, c, d);
  }

  lemma Regroup6(a: string, b: string, c: string, d: string, e: string, f: string)
    ensures (a + (b + (c + (d + e)))) + f == a + (b + (c + (d + (e + f))))
  {
    Regroup4(a, b, c + (d + e), f);
    Regroup4(c, d, e, f);
  }

  // ----- properties -----

  /** What follows the name of a property. */
  function AfterPropertyName(value: string, rest: string): string {
    "=\"" + (value + ("\"" + rest))
  }

  lemma PrintedProperty(p: Property, rest: string)
    ensures PrintProperty(p) + rest == " " + (p.name + AfterPropertyName(Escape(p.value), rest))
  {
    Regroup6(" ", p.name, "=\"", Escape(p.value), "\"", rest);
  }

  lemma PrintedProperties(properties: seq<Property>, rest: string)
    requires properties != []
    ensures var p, more := properties[0], PrintProperties(properties[1..]) + rest;
            PrintProperties(properties) + rest == " " + (p.name + AfterPropertyName(Escape(p.value), more))
  {
    Regroup(PrintProperty(properties[0]), PrintProperties(properties[1..]), rest);
    PrintedProperty(properties[0], PrintProperties(properties[1..]) + rest);
  }

  lemma ValueParts(value: string, rest: string)
    requires '<' !in value && '"' !in value
    ensures var v := value + ("\"" + rest);
            DataLength(v, true) == |value| && v[..|value|] == value && v[|value|..] == "\"" + rest && v[|value| + 1..] == rest
  {
    DataLengthIs(value, "\"" + rest, true);
  }

  lemma ReadPropertyParts(s: string, n: nat, v: string, m: nat, decoded: string)
    requires 0 < n == NameLength(s) && NameStart(s[0]) && "=\"" <= s[n..] && v == s[n + 2..]
    requires m == DataLength(v, true) < |v| && v[m] == '"' && DecodeProperty(v[..m]) == Some(decoded)
    ensures ReadProperty(s) == Some((Property(s[..n], decoded), v[m + 1..]))
  {}

  lemma ReadPropertyFails(s: string, n: nat, v: string, m: nat)
    requires 0 < n == NameLength(s) && NameStart(s[0]) && "=\"" <= s[n..] && v == s[n + 2..]
    requires m == DataLength(v, true) < |v| && v[m] == '"' && DecodeProperty(v[..m]).None?
    ensures ReadProperty(s).None?
  {}

  lemma TailParts(name: string, value: string, rest: string)
    ensures var s := name + AfterPropertyName(value, rest);
            && s[..|name|] == name && s[|name|..] == AfterPropertyName(value, rest)
            && "=\"" <= s[|name|..] && s[|name| + 2..] == value + ("\"" + rest)
  {}

  lemma ReadPropertyStep(name: string, value: string, rest: string)
    requires IsName(name) && '<' !in value && '"' !in value
    ensures ReadProperty(name + AfterPropertyName(value, rest)) == With(NamedValue(name, DecodeProperty(value)), rest)
  {
    var s, n, v := name + AfterPropertyName(value, rest), |name|, value + ("\"" + rest);
    NameLengthIs(name, AfterPropertyName(value, rest));
    TailParts(name, value, rest);
    ValueParts(value, rest);
    if DecodeProperty(value).Some? {
      ReadPropertyParts(s, n, v, |value|, DecodeProperty(value).value);
    } else {
      ReadPropertyFails(s, n, v, |value|);
    }
  }

  /** A value without a quote is read as its decoded form, or refused. */
  lemma ReadsProperty(p: Property, rest: string)
    requires IsName(p.name) && '"' !in p.value
    ensures ReadProperty(p.name + AfterPropertyName(Escape(p.value), rest)) == With(ReceivedProperty(p), rest)
  {
    EscapedHasNoOpening(p.value);
    EscapedHasNoQuote(p.value);
    ReadPropertyStep(p.name, Escape(p.value), rest);
  }

  lemma ReadPropertiesStep(s: string, r: Option<(Property, string)>)
    requires s != "" && s[0] == ' ' && ReadProperty(s[1..]) == r
    ensures r.None? ==> ReadProperties(s).None?
    ensures r.Some? ==> ReadProperties(s) == AddFirst(r.value.0, ReadProperties(r.value.1))
  {}

  /** One more property in front, unless its name occurs again. */
  function AddFirst(p: Property, r: Option<(seq<Property>, string)>): Option<(seq<Property>, string)> {
    if r.None? || exists i :: 0 <= i < |r.value.0| && r.value.0[i].name == p.name then None
    else Some(([p] + r.value.0, r.value.1))
  }

  lemma ReadsFirstProperty(p: Property, more: string)
    requires IsName(p.name) && '"' !in p.value
    ensures ReadProperties(" " + (p.name + AfterPropertyName(Escape(p.value), more))) ==
              if ReceivedProperty(p).Some? then AddFirst(ReceivedProperty(p).value, ReadProperties(more)) else None
  {
    var s := p.name + AfterPropertyName(Escape(p.value), more);
    ReadsProperty(p, more);
    assert (" " + s)[1..] == s;
    ReadPropertiesStep(" " + s, ReadProperty(s));
  }

  lemma FirstIsAdded(properties: seq<Property>, rest: string)
    requires properties != [] && forall i :: 0 < i < |properties| ==> properties[i].name != properties[0].name
    ensures var first, others := ReceivedProperty(properties[0]), With(ReceivedProperties(properties[1..]), rest);
            With(ReceivedProperties(properties), rest) == if first.Some? then AddFirst(first.value, others) else None
  {
    assert forall i :: 0 <= i < |properties| - 1 ==> properties[1..][i] == properties[i + 1];
  }

  lemma {:induction false} ReadsProperties(properties: seq<Property>, rest: string)
    requires FineProperties(properties) && rest != "" && rest[0] != ' '
    ensures ReadProperties(PrintProperties(properties) + rest) == With(ReceivedProperties(properties), rest)
    decreases |properties|
  {
    if properties == [] {
      assert PrintProperties(properties) + rest == rest;
    } else {
      PrintedProperties(properties, rest);
      ReadsProperties(properties[1..], rest);
      ReadsFirstProperty(properties[0], PrintProperties(properties[1..]) + rest);
      FirstIsAdded(properties, rest);
    }
  }

  /** Properties whose values do not close themselves are read as their decoded forms, whatever follows the tag. */
  lemma FineIsDelimited(properties: seq<Property>)
    requires FineProperties(properties)
    ensures Delimited(properties) && ReceivedTag(properties) == ReceivedProperties(properties)
  {
    ReadsProperties(properties, ">");
    assert ">" + "" == ">";
    forall content ensures EndsWithTag(properties, content) {
      ReadsProperties(properties, ">" + content);
    }
  }

  // ----- elements -----

  lemma ReadElementStep(name: string, afterName: string, content: string, children: Option<seq<XmlNode>>, rest: string)
    requires IsName(name) && afterName != "" && !NameChar(afterName[0])
    requires var r := ReadProperties(afterName); r.Some? && ">" <= r.value.1 ==> r.value.1 == ">" + content
    requires ReadContent(content) == With(children, EndTag(name) + rest)
    ensures ReadElement("<" + (name + afterName)) ==
              With(Assembled(name, Closed(ReadProperties(afterName), content), children), rest)
  {
    var s, close := "<" + (name + afterName), EndTag(name);
    assert s[1..] == name + afterName;
    NameLengthIs(name, afterName);
    assert s[1..][..|name|] == name && s[1..][|name|..] == afterName;
    assert (">" + content)[1..] == content;
    assert close <= close + rest && (close + rest)[|close|..] == rest;
  }

  function AfterName(x: XmlNode, rest: string): string
    requires x.Element?
  {
    PrintProperties(x.properties) + (">" + (PrintAll(x.children) + (EndTag(x.name) + rest)))
  }

  lemma PrintedElement(x: XmlNode, rest: string)
    requires x.Element?
    ensures Print(x) + rest == "<" + (x.name + AfterName(x, rest))
  {
    var content, close := PrintAll(x.children), EndTag(x.name);
    Regroup4(StartTag(x.name, x.properties), content, close, rest);
    Regroup6("<", x.name, PrintProperties(x.properties), ">", "", content + (close + rest));
    assert ">" + "" == ">" && "" + (content + (close + rest)) == content + (close + rest);
  }

  lemma AfterNameStarts(x: XmlNode, rest: string)
    requires x.Element?
    ensures AfterName(x, rest) != "" && !NameChar(AfterName(x, rest)[0])
  {
    if x.properties != [] {
      assert PrintProperties(x.properties)[0] == ' ';
    }
  }

  /** An element is read when its start tag and its content are. */
  lemma ReadsElement(x: XmlNode, rest: string, children: Option<seq<XmlNode>>)
    requires x.Element? && IsName(x.name) && Delimited(x.properties)
    requires ReadContent(PrintAll(x.children) + (EndTag(x.name) + rest)) == With(children, EndTag(x.name) + rest)
    ensures ReadElement(Print(x) + rest) == With(Assembled(x.name, ReceivedTag(x.properties), children), rest)
  {
    var content := PrintAll(x.children) + (EndTag(x.name) + rest);
    PrintedElement(x, rest);
    AfterNameStarts(x, rest);
    TagIsRead(x.properties, content);
    ReadElementStep(x.name, AfterName(x, rest), content, children, rest);
  }

  lemma TagIsRead(properties: seq<Property>, content: string)
    requires Delimited(properties)
    ensures var r := ReadProperties(PrintProperties(properties) + (">" + content));
            Closed(r, content) == ReceivedTag(properties) && (r.Some? && ">" <= r.value.1 ==> r.value.1 == ">" + content)
  {
    assert EndsWithTag(properties, content);
  }

  /** The reader returns a printed element as it is received, and what follows it. */
  lemma {:induction false} ReadsBack(x: XmlNode, rest: string)
    requires x.Element? && Fine(x)
    ensures ReadElement(Print(x) + rest) == With(Received(x), rest)
    decreases x
  {
    assert "</" <= EndTag(x.name) + rest;
    ReadsContent(x.children, EndTag(x.name) + rest);
    ReadsElement(x, rest, ReceivedAll(x.children));
  }

  lemma ReadElementFirst(s: string, x: Option<XmlNode>, more: string, xs: Option<seq<XmlNode>>, rest: string)
    requires "<" <= s && !("</" <= s) && ReadElement(s) == With(x, more)
    requires x.Some? ==> ReadContent(more) == With(xs, rest)
    ensures ReadContent(s) == if x.Some? && xs.Some? then Some(([x.value] + xs.value, rest)) else None
  {}

  lemma ReadTextFirst(content: string, more: string, xs: Option<seq<XmlNode>>, rest: string)
    requires content != "" && more != "" && more[0] == '<'
    requires ReadContent(more) == With(xs, rest)
    ensures ReadContent(Escape(content) + more) ==
              if Decode(Escape(content)).Some? && xs.Some?
              then Some(([Text(Decode(Escape(content)).value)] + xs.value, rest)) else None
  {
    var s, data := Escape(content) + more, Escape(content);
    EscapedHasNoOpening(content);
    DataLengthIs(data, more, false);
    assert s[0] == data[0] && s[0] in data;
    assert s[..|data|] == data && s[|data|..] == more;
  }

  lemma {:induction false} ReadsContent(xs: seq<XmlNode>, rest: string)
    requires FineAll(xs) && "</" <= rest
    ensures ReadContent(PrintAll(xs) + rest) == With(ReceivedAll(xs), rest)
    decreases xs
  {
    if xs == [] {
      assert PrintAll(xs) + rest == rest;
    } else {
      var more := PrintAll(xs[1..]) + rest;
      Regroup(Print(xs[0]), PrintAll(xs[1..]), rest);
      ReadsContent(xs[1..], rest);
      match xs[0] {
        case Element(name, _, _) =>
          ElementStarts(xs[0], more);
          ReadsBack(xs[0], more);
          ReadElementFirst(Print(xs[0]) + more, Received(xs[0]), more, ReceivedAll(xs[1..]), rest);
        case Text(content) =>
          StartsWithTag(xs[1..], rest);
          ReadTextFirst(content, more, ReceivedAll(xs[1..]), rest);
      }
    }
  }

  lemma ElementStarts(x: XmlNode, rest: string)
    requires x.Element? && IsName(x.name)
    ensures "<" <= Print(x) + rest && !("</" <= Print(x) + rest)
  {
    PrintedElement(x, rest);
    assert (Print(x) + rest)[1] == x.name[0];
  }

  lemma StartsWithTag(xs: seq<XmlNode>, rest: string)
    requires (xs != [] ==> xs[0].Element?) && "</" <= rest
    ensures PrintAll(xs) + rest != "" && (PrintAll(xs) + rest)[0] == '<'
  {
  }

  /** The reader refuses a document or returns it as it is received. */
  lemma ReadsDocument(x: XmlNode)
    requires x.Element? && Fine(x)
    ensures ReadDocument(Print(x)) == Received(x)
  {
    ReadsBack(x, "");
    assert Print(x) + "" == Print(x);
  }
}
