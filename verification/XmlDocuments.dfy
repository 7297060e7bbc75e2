/** XML elements, the text they are printed as, and a reader for the part of XML that the printer emits:
    elements with start and end tags and double-quoted properties (section 3.1 of XML 1.0, Fifth Edition),
    character data (section 2.4) and predefined entities (section 4.6). */
module XmlDocuments {
  import opened Wrappers
  import opened XmlText

  datatype Property = Property(name: string, value: string)

  datatype XmlNode =
    | Element(name: string, properties: seq<Property>, children: seq<XmlNode>)
    | Text(content: string)

  // ----- printed form -----

  function PrintProperty(property: Property): string {
    " " + (property.name + ("=\"" + (Escape(property.value) + "\"")))
  }

  function PrintProperties(properties: seq<Property>): string {
    if properties == [] then "" else PrintProperty(properties[0]) + PrintProperties(properties[1..])
  }

  function StartTag(name: string, properties: seq<Property>): string {
    "<" + (name + (PrintProperties(properties) + ">"))
  }

  function EndTag(name: string): string {
    "</" + (name + ">")
  }

  function Print(x: XmlNode): string
    decreases x
  {
    match x
    case Text(content) => Escape(content)
    case Element(name, properties, children) => StartTag(name, properties) + (PrintAll(children) + EndTag(name))
  }

  function PrintAll(xs: seq<XmlNode>): string
    decreases xs
  {
    if xs == [] then "" else Print(xs[0]) + PrintAll(xs[1..])
  }

  // ----- the reader -----

  predicate NameStart(c: char) {
    'a' <= c <= 'z' || 'A' <= c <= 'Z' || c == '_' || c == ':'
  }

  predicate NameChar(c: char) {
    NameStart(c) || '0' <= c <= '9' || c == '-' || c == '.'
  }

  /** Names, restricted to the ASCII characters among the name characters. */
  predicate IsName(s: string) {
    s != "" && NameStart(s[0]) && forall i :: 0 <= i < |s| ==> NameChar(s[i])
  }

  function NameLength(s: string): (n: nat)
    ensures n <= |s|
  {
    if s != "" && NameChar(s[0]) then 1 + NameLength(s[1..]) else 0
  }

  /** The number of characters before the first `<` or, in a property value, the closing quote. */
  function DataLength(s: string, inProperty: bool): (n: nat)
    ensures n <= |s|
  {
    if s != "" && s[0] != '<' && !(inProperty && s[0] == '"') then 1 + DataLength(s[1..], inProperty) else 0
  }

  function ReadProperty(s: string): (r: Option<(Property, string)>)
    ensures r.Some? ==> |r.value.1| < |s|
  {
    var n := NameLength(s);
    if n == 0 || !NameStart(s[0]) || !("=\"" <= s[n..]) then None else
    var v := s[n + 2..];
    var m := DataLength(v, true);
    if m == |v| || v[m] != '"' then None else
    match DecodeProperty(v[..m])
    case None => None
    case Some(value) => Some((Property(s[..n], value), v[m + 1..]))
  }

  /** Properties up to the end of the start tag; no name may occur twice. */
  function ReadProperties(s: string): (r: Option<(seq<Property>, string)>)
    ensures r.Some? ==> |r.value.1| <= |s|
    decreases |s|
  {
    if s == "" || s[0] != ' ' then Some(([], s)) else
    match ReadProperty(s[1..])
    case None => None
    case Some((property, rest)) =>
      match ReadProperties(rest)
      case None => None
      case Some((properties, end)) =>
        if exists i :: 0 <= i < |properties| && properties[i].name == property.name then None else
        Some(([property] + properties, end))
  }

  function ReadElement(s: string): (r: Option<(XmlNode, string)>)
    ensures r.Some? ==> |r.value.1| < |s|
    decreases |s|, 0
  {
    if !("<" <= s) then None else
    var n := NameLength(s[1..]);
    if n == 0 || !NameStart(s[1]) then None else
    match ReadProperties(s[1..][n..])
    case None => None
    case Some((properties, tagEnd)) =>
      if !(">" <= tagEnd) then None else
      match ReadContent(tagEnd[1..])
      case None => None
      case Some((children, end)) =>
        var close := EndTag(s[1..][..n]);
        if close <= end then Some((Element(s[1..][..n], properties, children), end[|close|..])) else None
  }

  /** Character data and elements up to the next end tag. */
  function ReadContent(s: string): (r: Option<(seq<XmlNode>, string)>)
    ensures r.Some? ==> |r.value.1| <= |s|
    decreases |s|, 1
  {
    if "</" <= s then
      Some(([], s))
    else if "<" <= s then
      match ReadElement(s)
      case None => None
      case Some((child, rest)) => Cons(child, ReadContent(rest))
    else
      var n := DataLength(s, false);
      if n == 0 then None else
      match Decode(s[..n])
      case None => None
      case Some(content) => Cons(Text(content), ReadContent(s[n..]))
  }

  function Cons(x: XmlNode, r: Option<(seq<XmlNode>, string)>): Option<(seq<XmlNode>, string)> {
    if r.Some? then Some(([x] + r.value.0, r.value.1)) else None
  }

  function ReadDocument(s: string): Option<XmlNode> {
    match ReadElement(s)
    case None => None
    case Some((root, rest)) => if rest == "" then Some(root) else None
  }

  // ----- what reading makes of a printed element -----

  /** Properties with proper, different names, and values that do not close themselves. */
  ghost predicate FineProperties(properties: seq<Property>) {
    properties != [] ==>
      && IsName(properties[0].name)
      && '"' !in properties[0].value
      && (forall i :: 0 < i < |properties| ==> properties[i].name != properties[0].name)
      && FineProperties(properties[1..])
  }

  function ReceivedProperty(p: Property): (r: Option<Property>)
    ensures r.Some? ==> r.value.name == p.name
  {
    NamedValue(p.name, DecodeProperty(Escape(p.value)))
  }

  function NamedValue(name: string, value: Option<string>): Option<Property> {
    if value.Some? then Some(Property(name, value.value)) else None
  }

  /** The properties with every value decoded. */
  function ReceivedProperties(properties: seq<Property>): (r: Option<seq<Property>>)
    ensures r.Some? ==> |r.value| == |properties| && forall i :: 0 <= i < |properties| ==> r.value[i].name == properties[i].name
  {
    if properties == [] then Some([]) else
    var first, rest := ReceivedProperty(properties[0]), ReceivedProperties(properties[1..]);
    if first.Some? && rest.Some? then Some([first.value] + rest.value) else None
  }

  /** The properties that have been read, if all that is left is the end of the start tag and the content. */
  function Closed(r: Option<(seq<Property>, string)>, content: string): Option<seq<Property>> {
    if r.Some? && r.value.1 == ">" + content then Some(r.value.0) else None
  }

  /** What the reader makes of the properties in a start tag. */
  function ReceivedTag(properties: seq<Property>): Option<seq<Property>> {
    Closed(ReadProperties(PrintProperties(properties) + ">"), "")
  }

  /** The reader finds the end of a start tag where the printer has put it, or none at all. */
  ghost predicate EndsWithTag(properties: seq<Property>, content: string) {
    var r := ReadProperties(PrintProperties(properties) + (">" + content));
    Closed(r, content) == ReceivedTag(properties) && (r.Some? && ">" <= r.value.1 ==> r.value.1 == ">" + content)
  }

  /** The properties are read independently of the content of the element. */
  ghost predicate Delimited(properties: seq<Property>) {
    forall content :: EndsWithTag(properties, content)
  }

  /** An element that can be told apart from its text: a proper name, delimited properties, and every text between
      two tags in one piece. The texts themselves may be anything. */
  ghost predicate Fine(x: XmlNode)
    decreases x
  {
    match x
    case Text(content) => content != ""
    case Element(name, properties, children) => IsName(name) && Delimited(properties) && FineAll(children)
  }

  ghost predicate FineAll(xs: seq<XmlNode>)
    decreases xs
  {
    xs != [] ==> Fine(xs[0]) && (xs[0].Text? && |xs| > 1 ==> xs[1].Element?) && FineAll(xs[1..])
  }

  /** The element as the reader takes it: its start tag as it reads, and every text decoded. */
  function Received(x: XmlNode): Option<XmlNode>
    decreases x
  {
    match x
    case Text(content) =>
      (match Decode(Escape(content))
       case None => None
       case Some(text) => Some(Text(text)))
    case Element(name, properties, children) =>
      Assembled(name, ReceivedTag(properties), ReceivedAll(children))
  }

  function Assembled(name: string, properties: Option<seq<Property>>, children: Option<seq<XmlNode>>): Option<XmlNode> {
    if properties.Some? && children.Some? then Some(Element(name, properties.value, children.value)) else None
  }

  function ReceivedAll(xs: seq<XmlNode>): Option<seq<XmlNode>>
    decreases xs
  {
    if xs == [] then Some([]) else
    match (Received(xs[0]), ReceivedAll(xs[1..]))
    case (Some(x), Some(rest)) => Some([x] + rest)
    case _ => None
  }

  function With<A>(r: Option<A>, rest: string): Option<(A, string)> {
    if r.Some? then Some((r.value, rest)) else None
  }
}
