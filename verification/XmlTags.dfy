/** Start tags whose first property may hold quotes: its value then ends early, and what follows is read as further
    properties or makes the reader refuse the tag. Either way the last property of the tag keeps its value. */
module XmlTags {
  import opened Wrappers
  import opened XmlText
  import opened XmlDocuments
  import opened XmlReading

  /** A property that can end a start tag: its value begins like a name. */
  ghost predicate Closing(p: Property) {
    IsName(p.name) && PlainProperty(p.value) && NameChar(p.value[0])
  }

  /** What follows the value of the property before the last one. */
  function Ending(last: Property, content: string): string {
    "\"" + (PrintProperty(last) + (">" + content))
  }

  lemma PlainIsReceived(p: Property)
    requires PlainProperty(p.value)
    ensures ReceivedProperty(p) == Some(p)
  {
    PlainIsDecoded(p.value);
    BlankKeeps(p.value);
  }

  lemma LastIsRead(last: Property, content: string)
    requires Closing(last)
    ensures ReadProperties(PrintProperty(last) + (">" + content)) == Some(([last], ">" + content))
  {
    PlainIsReceived(last);
    assert [last][1..] == [] && PrintProperties([last]) == PrintProperty(last);
    assert ReceivedProperties([]) == Some([]) && [last] + [] == [last];
    ReadsProperties([last], ">" + content);
  }

  /** One more property in front of those that have been received. */
  function Joined(p: Property, others: Option<seq<Property>>): Option<seq<Property>> {
    if others.None? || exists i :: 0 <= i < |others.value| && others.value[i].name == p.name then None
    else Some([p] + others.value)
  }

  /** The name and the value that a text begins with, and the rest of the text if the value ends within it. */
  datatype Piece = Piece(property: Property, rest: Option<string>)

  function FirstPiece(e: string): (r: Option<Piece>)
    ensures r.Some? && r.value.rest.Some? ==> |r.value.rest.value| < |e|
    ensures r.Some? && r.value.rest.Some? && '<' !in e && '>' !in e ==> '<' !in r.value.rest.value && '>' !in r.value.rest.value
  {
    var n := NameLength(e);
    if n == 0 || !NameStart(e[0]) || !("=\"" <= e[n..]) then None else
    var v := e[n + 2..];
    var m := DataLength(v, true);
    match DecodeProperty(v[..m])
    case None => None
    case Some(value) => Some(Piece(Property(e[..n], value), if m == |v| then None else Some(v[m + 1..])))
  }

  /** The properties that a text within a start tag, up to a quote, makes before the last one. */
  function Opened(e: string, last: Property): Option<seq<Property>>
    decreases |e|
  {
    if e == "" || e[0] != ' ' then None else
    match FirstPiece(e[1..])
    case None => None
    case Some(Piece(p, None)) => Joined(p, Some([last]))
    case Some(Piece(p, Some(rest))) => Joined(p, Opened(rest, last))
  }

  lemma {:induction false} NameEndsBefore(e: string, rest: string)
    requires rest != "" && !NameChar(rest[0])
    ensures NameLength(e + rest) == NameLength(e)
  {
    if e == "" {
      assert e + rest == rest;
    } else {
      NameEndsBefore(e[1..], rest);
      assert (e + rest)[1..] == e[1..] + rest;
    }
  }

  lemma {:induction false} DataEndsBefore(v: string, rest: string)
    requires '<' !in v && rest != "" && rest[0] == '"'
    ensures DataLength(v + rest, true) == DataLength(v, true)
    ensures DataLength(v, true) < |v| ==> v[DataLength(v, true)] == '"'
  {
    if v == "" {
      assert v + rest == rest;
    } else {
      assert v == [v[0]] + v[1..];
      DataEndsBefore(v[1..], rest);
      assert (v + rest)[1..] == v[1..] + rest;
    }
  }

  /** Where the value of the first property ends. */
  lemma ValueEndsBefore(v: string, rest: string)
    requires '<' !in v && rest != "" && rest[0] == '"'
    ensures var m := DataLength(v, true);
            && DataLength(v + rest, true) == m && m < |v + rest| && (v + rest)[m] == '"' && (v + rest)[..m] == v[..m]
            && (v + rest)[m + 1..] == if m == |v| then rest[1..] else v[m + 1..] + rest
  {
    DataEndsBefore(v, rest);
    var m := DataLength(v, true);
    if m == |v| {
      assert (v + rest)[m + 1..] == rest[1..];
    } else {
      assert (v + rest)[m + 1..] == v[m + 1..] + rest;
    }
  }

  /** What the reader makes of the first property, when its value is closed by the given text at the latest. */
  function Continued(r: Option<Piece>, rest: string): Option<(Property, string)>
    requires rest != ""
  {
    match r
    case None => None
    case Some(Piece(p, None)) => Some((p, rest[1..]))
    case Some(Piece(p, Some(more))) => Some((p, more + rest))
  }

  lemma FirstIsRead(e: string, rest: string)
    requires '<' !in e && rest != "" && rest[0] == '"' && e[NameLength(e)..] != "="
    ensures ReadProperty(e + rest) == Continued(FirstPiece(e), rest)
  {
    var n := NameLength(e);
    NameEndsBefore(e, rest);
    BeginsAsBefore(e, rest, n);
    if n > 0 && NameStart(e[0]) && "=\"" <= e[n..] {
      ValueEndsBefore(e[n + 2..], rest);
      FirstValueIsRead(e, rest, e[n + 2..]);
    } else {
      NoFirstName(e, rest, n);
    }
  }

  lemma BeginsAsBefore(e: string, rest: string, n: nat)
    requires n <= |e| && rest != "" && rest[0] == '"' && e[n..] != "="
    ensures (e + rest)[n..] == e[n..] + rest && (e + rest)[..n] == e[..n]
    ensures "=\"" <= (e + rest)[n..] <==> "=\"" <= e[n..]
    ensures "=\"" <= e[n..] ==> (e + rest)[n + 2..] == e[n + 2..] + rest
  {
    var t := e[n..];
    if |t| >= 2 {
      assert (t + rest)[..2] == t[..2];
    } else if |t| == 1 {
      assert t == [t[0]] && (t + rest)[0] == t[0];
    }
  }

  lemma NoFirstName(e: string, rest: string, n: nat)
    requires n == NameLength(e) == NameLength(e + rest)
    requires "=\"" <= (e + rest)[n..] <==> "=\"" <= e[n..]
    requires !(n > 0 && NameStart(e[0]) && "=\"" <= e[n..])
    ensures ReadProperty(e + rest).None? && FirstPiece(e).None?
  {}

  /** The name of the first property and the beginning of its value are not touched by what follows the text. */
  ghost predicate NameKept(e: string, rest: string, v: string) {
    var n := NameLength(e);
    && 0 < n == NameLength(e + rest) && NameStart(e[0]) && "=\"" <= e[n..] && v == e[n + 2..]
    && (e + rest)[n..] == e[n..] + rest && (e + rest)[..n] == e[..n] && (e + rest)[n + 2..] == v + rest
  }

  /** The value ends where it does without what follows, or at the beginning of that. */
  ghost predicate ValueKept(v: string, rest: string) {
    var m := DataLength(v, true);
    && DataLength(v + rest, true) == m && m < |v + rest| && (v + rest)[m] == '"' && (v + rest)[..m] == v[..m]
    && rest != "" && (v + rest)[m + 1..] == if m == |v| then rest[1..] else v[m + 1..] + rest
  }

  lemma FirstValueIsRead(e: string, rest: string, v: string)
    ensures NameKept(e, rest, v) && ValueKept(v, rest) ==> ReadProperty(e + rest) == Continued(FirstPiece(e), rest)
  {
    var n, m := NameLength(e), DataLength(v, true);
    if !(NameKept(e, rest, v) && ValueKept(v, rest)) {
    } else if DecodeProperty(v[..m]).Some? {
      ReadPropertyParts(e + rest, n, v + rest, m, DecodeProperty(v[..m]).value);
    } else {
      ReadPropertyFails(e + rest, n, v + rest, m);
    }
  }

  /** The start tag ends where it has to, or is refused. */
  ghost predicate Ends(r: Option<(seq<Property>, string)>, content: string) {
    r.Some? && ">" <= r.value.1 ==> r.value.1 == ">" + content
  }

  lemma AddedIsJoined(p: Property, r: Option<(seq<Property>, string)>, content: string)
    requires Ends(r, content)
    ensures Closed(AddFirst(p, r), content) == Joined(p, Closed(r, content)) && Ends(AddFirst(p, r), content)
  {}

  lemma NamesAreNoMarkup(name: string)
    requires IsName(name)
    ensures '<' !in name && '"' !in name && '>' !in name
  {}

  /** What follows the first quote of the ending, split at the next one. */
  lemma EndingParts(last: Property, content: string)
    ensures var value := Escape(last.value) + ("\"" + (">" + content));
            PrintProperty(last) + (">" + content) == (" " + (last.name + "=")) + ("\"" + value)
  {
    var rest := ">" + content;
    PrintedProperty(last, rest);
    Regroup4(" ", last.name, "=", "\"" + (Escape(last.value) + ("\"" + rest)));
    assert AfterPropertyName(Escape(last.value), rest) == "=" + ("\"" + (Escape(last.value) + ("\"" + rest)));
  }

  /** A text that ends with `=` takes the name of the last property for a value. */
  lemma NameIsSwallowed(e: string, last: Property, content: string)
    requires Closing(last) && e[NameLength(e)..] == "="
    ensures var r := ReadProperty(e + Ending(last, content));
            r.Some? ==> r.value.1 == Escape(last.value) + ("\"" + (">" + content))
  {
    var rest, n := Ending(last, content), NameLength(e);
    NameEndsBefore(e, rest);
    EndingParts(last, content);
    NamesAreNoMarkup(last.name);
    ValueParts(" " + (last.name + "="), Escape(last.value) + ("\"" + (">" + content)));
    assert (e + rest)[n + 2..] == PrintProperty(last) + (">" + content);
    NothingElseIsLeft(e + rest);
  }

  /** What is left after a property is what follows its value. */
  lemma NothingElseIsLeft(s: string)
    ensures ReadProperty(s).Some? ==>
              var n := NameLength(s);
              && n + 2 <= |s|
              && DataLength(s[n + 2..], true) < |s[n + 2..]|
              && ReadProperty(s).value.1 == s[n + 2..][DataLength(s[n + 2..], true) + 1..]
  {}

  /** The tag is then refused, because the value of the last property follows. */
  lemma Swallowed(e: string, last: Property, content: string)
    requires Closing(last) && e[NameLength(e)..] == "="
    ensures var r := ReadProperties(" " + (e + Ending(last, content)));
            r.Some? ==> r.value.1 != "" && NameChar(r.value.1[0])
  {
    var s := e + Ending(last, content);
    assert (" " + s)[1..] == s;
    NameIsSwallowed(e, last, content);
    LastValueIsLeft(last, content);
    ReadPropertiesStep(" " + s, ReadProperty(s));
  }

  lemma LastValueIsLeft(last: Property, content: string)
    requires Closing(last)
    ensures var after := Escape(last.value) + ("\"" + (">" + content));
            after != "" && NameChar(after[0]) && ReadProperties(after) == Some(([], after))
  {
    assert Escape(last.value)[0] == last.value[0];
  }

  /** The reader makes of a start tag just what its text says, whatever the content of the element. */
  lemma {:induction false} OpenedIs(e: string, last: Property, content: string)
    requires '<' !in e && '>' !in e && Closing(last)
    ensures Closed(ReadProperties(e + Ending(last, content)), content) == Opened(e, last)
    ensures Ends(ReadProperties(e + Ending(last, content)), content)
    decreases |e|
  {
    var rest := Ending(last, content);
    if e == "" {
      assert e + rest == rest && ReadProperties(rest) == Some(([], rest));
    } else if e[0] != ' ' {
      assert (e + rest)[0] == e[0] && ReadProperties(e + rest) == Some(([], e + rest));
    } else {
      assert e == " " + e[1..] && e + rest == " " + (e[1..] + rest);
      if e[1..][NameLength(e[1..])..] == "=" {
        Swallowed(e[1..], last, content);
        assert FirstPiece(e[1..]).None?;
      } else {
        FirstIsRead(e[1..], rest);
        OpenedFurther(e[1..], last, content);
      }
    }
  }

  lemma {:induction false} OpenedFurther(e: string, last: Property, content: string)
    requires '<' !in e && '>' !in e && Closing(last)
    requires ReadProperty(e + Ending(last, content)) == Continued(FirstPiece(e), Ending(last, content))
    ensures var r := ReadProperties(" " + (e + Ending(last, content)));
            Closed(r, content) == Opened(" " + e, last) && Ends(r, content)
    decreases |e|
  {
    var rest := Ending(last, content);
    var s := e + rest;
    assert (" " + s)[1..] == s && (" " + e)[1..] == e;
    ReadPropertiesStep(" " + s, ReadProperty(s));
    match FirstPiece(e) {
      case None =>
      case Some(Piece(p, None)) =>
        assert rest[1..] == PrintProperty(last) + (">" + content);
        LastIsRead(last, content);
        AddedIsJoined(p, ReadProperties(rest[1..]), content);
      case Some(Piece(p, Some(more))) =>
        OpenedIs(more, last, content);
        AddedIsJoined(p, ReadProperties(more + rest), content);
    }
  }

  // ----- start tags with a name and a type -----

  predicate DifferentNames(properties: seq<Property>)
    decreases |properties|
  {
    properties != [] ==>
      var last := |properties| - 1;
      && (forall i :: 0 <= i < last ==> properties[i].name != properties[last].name)
      && DifferentNames(properties[..last])
  }

  lemma OpenedParts(e: string, last: Property)
    requires Opened(e, last).Some?
    ensures FirstPiece(e[1..]).Some?
    ensures var piece := FirstPiece(e[1..]).value;
            var others := if piece.rest.Some? then Opened(piece.rest.value, last) else Some([last]);
            Opened(e, last) == Joined(piece.property, others) && others.Some?
  {}

  /** Properties with different names that begin and end with the given ones. */
  ghost predicate Spanning(properties: seq<Property>, first: Property, last: Property) {
    |properties| >= 2 && properties[0] == first && properties[|properties| - 1] == last && DifferentNames(properties)
  }

  /** What an opened text makes begins with its first property and ends with the last one of the tag. */
  lemma {:induction false} OpenedHolds(e: string, last: Property)
    requires Opened(e, last).Some?
    ensures FirstPiece(e[1..]).Some? && Spanning(Opened(e, last).value, FirstPiece(e[1..]).value.property, last)
    decreases |e|
  {
    OpenedParts(e, last);
    var piece := FirstPiece(e[1..]).value;
    if piece.rest.Some? {
      OpenedHolds(piece.rest.value, last);
      JoinedIsSpanning(piece.property, Opened(piece.rest.value, last).value, last);
    } else {
      assert [last][..0] == [] && DifferentNames([last]);
      JoinedIsSpanning(piece.property, [last], last);
    }
  }

  lemma JoinedIsSpanning(p: Property, others: seq<Property>, last: Property)
    requires others != [] && others[|others| - 1] == last && DifferentNames(others) && Joined(p, Some(others)).Some?
    ensures Spanning(Joined(p, Some(others)).value, p, last)
  {
    JoinedAreDifferent(p, others);
    assert ([p] + others)[|others|] == others[|others| - 1];
  }

  lemma {:induction false} JoinedAreDifferent(p: Property, others: seq<Property>)
    requires DifferentNames(others) && forall i :: 0 <= i < |others| ==> others[i].name != p.name
    ensures DifferentNames([p] + others)
    decreases |others|
  {
    var all, last := [p] + others, |others| - 1;
    if others == [] {
      assert all[..0] == [];
    } else {
      JoinedAreDifferent(p, others[..last]);
      assert all[..|all| - 1] == [p] + others[..last];
      assert forall i :: 0 < i < |all| - 1 ==> all[i] == others[i - 1];
    }
  }

  /** The text up to the first quote. */
  function Unquoted(s: string): (r: string)
    ensures |r| <= |s| && '"' !in r && ('"' in s ==> |r| < |s|) && ('"' !in s ==> r == s)
  {
    if s == "" || s[0] == '"' then "" else [s[0]] + Unquoted(s[1..])
  }

  /** What the reader takes a name for. */
  function ReceivedName(key: string): Option<string> {
    DecodeProperty(Escape(Unquoted(key)))
  }

  lemma {:induction false} DataLengthOver(data: string, rest: string)
    requires '<' !in data && '"' !in data
    ensures DataLength(data + rest, true) == |data| + DataLength(rest, true)
  {
    if data == "" {
      assert data + rest == rest;
    } else {
      assert data == [data[0]] + data[1..];
      DataLengthOver(data[1..], rest);
      assert (data + rest)[1..] == data[1..] + rest;
    }
  }

  lemma {:induction false} EscapedUpToQuote(key: string)
    ensures var e := Escape(key); e[..DataLength(e, true)] == Escape(Unquoted(key))
  {
    if key != "" && key[0] != '"' {
      var first, rest := EscapeChar(key[0]), Escape(key[1..]);
      EscapedUpToQuote(key[1..]);
      DataLengthOver(first, rest);
      var n := DataLength(rest, true);
      assert (first + rest)[..|first| + n] == first + rest[..n];
      assert Unquoted(key)[0] == key[0] && Unquoted(key)[1..] == Unquoted(key[1..]);
    }
  }

  /** The text of a start tag with two properties, up to the end of the value of the first. */
  function UpToValue(p: Property): string {
    " " + (p.name + ("=\"" + Escape(p.value)))
  }

  lemma PrintedTag(p: Property, last: Property, content: string)
    ensures PrintProperties([p, last]) + (">" + content) == UpToValue(p) + Ending(last, content)
  {
    var rest, value := PrintProperty(last) + (">" + content), Escape(p.value);
    assert [p, last][1..] == [last] && [last][1..] == [] && PrintProperties([last]) == PrintProperty(last);
    PrintedProperties([p, last], ">" + content);
    Regroup4(" ", p.name, "=\"" + value, "\"" + rest);
    Regroup("=\"", value, "\"" + rest);
  }

  lemma UpToValueHasNoMarkup(p: Property)
    requires IsName(p.name)
    ensures '<' !in UpToValue(p) && '>' !in UpToValue(p)
  {
    NamesAreNoMarkup(p.name);
    EscapedHasNoOpening(p.value);
  }

  /** A tag with any first value is delimited, and its first property is received under its name. */
  lemma TagIsDelimited(p: Property, last: Property)
    requires IsName(p.name) && Closing(last)
    ensures Delimited([p, last]) && ReceivedTag([p, last]) == Opened(UpToValue(p), last)
  {
    UpToValueHasNoMarkup(p);
    OpenedIs(UpToValue(p), last, "");
    PrintedTag(p, last, "");
    assert ">" + "" == ">";
    forall content ensures EndsWithTag([p, last], content) {
      OpenedIs(UpToValue(p), last, content);
      PrintedTag(p, last, content);
    }
  }

  lemma FirstPieceIs(p: Property)
    requires IsName(p.name)
    ensures var piece := FirstPiece(UpToValue(p)[1..]);
            if ReceivedName(p.value).Some? then piece.Some? && piece.value.property == Property(p.name, ReceivedName(p.value).value)
            else piece.None?
  {
    var value := Escape(p.value);
    var e := p.name + ("=\"" + value);
    assert UpToValue(p)[1..] == e;
    NameLengthIs(p.name, "=\"" + value);
    assert e[..|p.name|] == p.name && e[|p.name|..] == "=\"" + value && e[|p.name| + 2..] == value;
    EscapedUpToQuote(p.value);
  }

  /** The properties begin with the name as it is received and end with the type. */
  ghost predicate TypedAs(properties: seq<Property>, p: Property, last: Property) {
    ReceivedName(p.value).Some? && Spanning(properties, Property(p.name, ReceivedName(p.value).value), last)
  }

  /** What is received of a tag with a name and a type: the name as far as it goes, and the type. */
  lemma TagHolds(p: Property, last: Property)
    requires IsName(p.name) && Closing(last) && ReceivedTag([p, last]).Some?
    ensures TypedAs(ReceivedTag([p, last]).value, p, last)
  {
    assert ReceivedTag([p, last]) == Opened(UpToValue(p), last) by {
      TagIsDelimited(p, last);
    }
    OpenedTagHolds(p, last);
  }

  lemma OpenedTagHolds(p: Property, last: Property)
    requires IsName(p.name)
    ensures Opened(UpToValue(p), last).Some? ==> TypedAs(Opened(UpToValue(p), last).value, p, last)
  {
    if Opened(UpToValue(p), last).Some? {
      OpenedHolds(UpToValue(p), last);
      FirstPieceIs(p);
    }
  }

  // ----- names that are received as they are -----

  lemma {:induction false} BlankIsClean(s: string)
    requires forall c :: c in s ==> Legal(c) && c != '\r'
    ensures |Blank(s)| == |s| && forall c :: c in Blank(s) ==> Legal(c) && c != '\r' && c != '\t' && c != '\n'
  {
    if s != "" {
      assert s == [s[0]] + s[1..];
      BlankIsClean(s[1..]);
    }
  }

  /** A received name is clean and no longer than the name, and shorter when that has a quote or an ampersand. */
  lemma ReceivedNameIsShorter(key: string)
    requires ReceivedName(key).Some?
    ensures var r := ReceivedName(key).value;
            && |r| <= |key| && ('"' in key || '&' in key ==> |r| < |key|)
            && (forall c :: c in r ==> Legal(c) && c != '\r' && c != '\t' && c != '\n')
            && (r == "" <==> key == "" || key[0] == '"')
  {
    var s := Unquoted(key);
    DecodedIsShorter(s);
    BlankIsClean(Decode(Escape(s)).value);
    if s != "" {
      EscapedHasNoOpening(s);
      DecodedIsFilled(Escape(s));
    }
  }

  lemma DecodedIsFilled(s: string)
    requires s != "" && Decode(s).Some?
    ensures Decode(s).value != ""
  {}

  lemma PlainNameIsReceived(key: string)
    requires PlainProperty(key)
    ensures ReceivedName(key) == Some(key)
  {
    PlainIsReceived(Property("", key));
  }
}
