/** The verbose XML printer: it writes to a stream, and what it has written is proved to be the printed form
    of an element that shows the tree. Attributes may come in any order. */
module NixXmlPrinting {
  import opened Wrappers
  import opened XmlText
  import opened XmlDocuments
  import opened XmlReading
  import opened NixXmlNodes

  /** The names of the elements and properties that the caller chooses. */
  datatype Markup = Markup(listElement: string, attrElement: string, nameProperty: string, typeProperty: string)

  class Stream {
    var contents: string

    constructor ()
      ensures contents == ""
    {
      contents := "";
    }

    method Write(s: string)
      modifies this
      ensures contents == old(contents) + s
    {
      contents := contents + s;
    }
  }

  function TypeName(node: Node): string {
    match node
    case Scalar(StringType, _) => "string"
    case Scalar(IntType, _) => "int"
    case Scalar(FloatType, _) => "float"
    case Scalar(BoolType, _) => "bool"
    case Scalar(PathType, _) => "path"
    case List(_) => "list"
    case Attrset(_) => "attrs"
  }

  function Indentation(level: int): string {
    if level <= 0 then "" else Indentation(level - 1) + "  "
  }

  /** Negative levels switch indentation off. */
  function Deeper(level: int): int {
    if level >= 0 then level + 1 else level
  }

  function Break(level: int): XmlNode {
    Text("\n" + Indentation(level))
  }

  // ----- the elements that show a tree -----

  /** Every element on a line of its own. */
  function Lines(shown: seq<XmlNode>, level: int): seq<XmlNode> {
    if shown == [] then [] else Lines(shown[..|shown| - 1], level) + [Break(level), shown[|shown| - 1]]
  }

  function Framed(shown: seq<XmlNode>, level: int): seq<XmlNode> {
    Lines(shown, Deeper(level)) + [Break(level)]
  }

  function Elements(xs: seq<XmlNode>): (r: seq<XmlNode>)
    ensures forall x :: x in r ==> x.Element?
  {
    if xs == [] then [] else
    Elements(xs[..|xs| - 1]) + (if xs[|xs| - 1].Element? then [xs[|xs| - 1]] else [])
  }

  /** The value of the first property, which names an attribute. */
  function KeyOf(x: XmlNode): string {
    if x.Element? && x.properties != [] then x.properties[0].value else ""
  }

  /** The content of an element that shows the tree: its text, or one element per list element or attribute. */
  ghost predicate Shows(xs: seq<XmlNode>, node: Node, markup: Markup, level: int)
    decreases node, 0
  {
    match node
    case Scalar(_, value) => xs == if value == "" then [] else [Text(value)]
    case List(elements) =>
      && xs == Framed(Elements(xs), level)
      && |Elements(xs)| == |elements|
      && (forall i :: 0 <= i < |elements| ==> ShownAs(Elements(xs)[i], markup.listElement, [], elements[i], markup, Deeper(level)))
    case Attrset(attributes) =>
      && xs == Framed(Elements(xs), level)
      && |Elements(xs)| == |attributes|
      && (forall i, j :: 0 <= i < j < |Elements(xs)| ==> KeyOf(Elements(xs)[i]) != KeyOf(Elements(xs)[j]))
      && (forall i :: 0 <= i < |Elements(xs)| ==>
            var key := KeyOf(Elements(xs)[i]);
            && key in attributes
            && ShownAs(Elements(xs)[i], markup.attrElement, [Property(markup.nameProperty, key)], attributes[key], markup, Deeper(level)))
  }

  /** An element with the given name and properties, and the type and content of the tree. */
  ghost predicate ShownAs(x: XmlNode, name: string, own: seq<Property>, node: Node, markup: Markup, level: int)
    decreases node, 1
  {
    && x.Element? && x.name == name
    && x.properties == own + [Property(markup.typeProperty, TypeName(node))]
    && Shows(x.children, node, markup, level)
  }

  // ----- strings -----

  lemma {:induction false} EscapeAppend(s: string, c: char)
    ensures Escape(s + [c]) == Escape(s) + EscapeChar(c)
  {
    if s == "" {
      assert s + [c] == [c] && [c][1..] == "";
    } else {
      var first, rest := EscapeChar(s[0]), Escape(s[1..]);
      EscapeAppend(s[1..], c);
      assert (s + [c])[0] == s[0] && (s + [c])[1..] == s[1..] + [c];
      Regroup(first, rest, EscapeChar(c));
    }
  }

  lemma {:induction false} NothingToEscape(s: string)
    requires '<' !in s && '>' !in s
    ensures Escape(s) == s
  {
    if s != "" {
      assert s == [s[0]] + s[1..];
      NothingToEscape(s[1..]);
    }
  }

  lemma {:induction false} IndentationIsBlank(level: int)
    ensures forall c :: c in Indentation(level) ==> c == ' '
  {
    if level > 0 {
      IndentationIsBlank(level - 1);
    }
  }

  lemma BreakIsPrintedAsIs(level: int)
    ensures Print(Break(level)) == "\n" + Indentation(level)
  {
    IndentationIsBlank(level);
    NothingToEscape("\n" + Indentation(level));
  }

  method PrintString(file: Stream, value: string)
    modifies file
    ensures file.contents == old(file.contents) + Escape(value)
  {
    var i := 0;
    assert value[..0] == "";
    while i < |value|
      invariant i <= |value| && file.contents == old(file.contents) + Escape(value[..i])
    {
      var c := value[i];
      EscapeAppend(value[..i], c);
      assert value[..i + 1] == value[..i] + [c];
      Regroup(old(file.contents), Escape(value[..i]), EscapeChar(c));
      match c {
        case '<' => file.Write("&lt;");
        case '>' => file.Write("&gt;");
        case _ => file.Write([c]);
      }
      i := i + 1;
    }
    assert value[..|value|] == value;
  }

  method PrintIndentation(file: Stream, level: int)
    modifies file
    ensures file.contents == old(file.contents) + Indentation(level)
  {
    if level >= 0 {
      for i := 0 to level
        invariant file.contents == old(file.contents) + Indentation(i)
      {
        file.Write("  ");
      }
    }
  }

  method PrintOpenRootTag(file: Stream, name: string)
    modifies file
    ensures file.contents == old(file.contents) + ("<" + name)
  {
    file.Write("<" + name);
  }

  method PrintCloseRootTag(file: Stream, name: string)
    modifies file
    ensures file.contents == old(file.contents) + EndTag(name)
  {
    file.Write("</" + (name + ">"));
  }

  method PrintOpenVerboseAttrTag(file: Stream, element: string, property: string, name: string)
    modifies file
    ensures file.contents == old(file.contents) + ("<" + (element + PrintProperty(Property(property, name))))
  {
    file.Write("<" + element);
    file.Write(" " + (property + "=\""));
    PrintString(file, name);
    file.Write("\"");
  }

  /** Completes a start tag, with the type if there is a property for it. */
  method PrintTypeSuffix(file: Stream, property: Option<string>, typeName: string)
    requires '<' !in typeName && '>' !in typeName
    modifies file
    ensures file.contents ==
              old(file.contents) + (if property.Some? then PrintProperty(Property(property.value, typeName)) + ">" else ">")
  {
    if property.Some? {
      NothingToEscape(typeName);
      file.Write(" " + (property.value + ("=\"" + (typeName + "\""))));
    }
    file.Write(">");
  }

  // ----- elements and their text -----

  lemma {:induction false} PrintAllConcat(a: seq<XmlNode>, b: seq<XmlNode>)
    ensures PrintAll(a + b) == PrintAll(a) + PrintAll(b)
  {
    if a == [] {
      assert a + b == b;
    } else {
      PrintAllConcat(a[1..], b);
      assert (a + b)[1..] == a[1..] + b;
      Regroup(Print(a[0]), PrintAll(a[1..]), PrintAll(b));
    }
  }

  lemma {:induction false} PrintPropertiesConcat(a: seq<Property>, b: Property)
    ensures PrintProperties(a + [b]) == PrintProperties(a) + PrintProperty(b)
  {
    if a == [] {
      assert a + [b] == [b] && [b][1..] == [];
    } else {
      PrintPropertiesConcat(a[1..], b);
      assert (a + [b])[1..] == a[1..] + [b];
      Regroup(PrintProperty(a[0]), PrintProperties(a[1..]), PrintProperty(b));
    }
  }

  lemma {:induction false} ElementsConcat(a: seq<XmlNode>, b: seq<XmlNode>)
    ensures Elements(a + b) == Elements(a) + Elements(b)
    decreases |b|
  {
    if b == [] {
      assert a + b == a;
    } else {
      var last := |b| - 1;
      assert (a + b)[..|a + b| - 1] == a + b[..last];
      ElementsConcat(a, b[..last]);
    }
  }

  predicate AllElements(xs: seq<XmlNode>) {
    forall i :: 0 <= i < |xs| ==> xs[i].Element?
  }

  lemma ElementsOfPair(level: int, x: XmlNode)
    requires x.Element?
    ensures Elements([Break(level), x]) == [x] && Elements([Break(level)]) == []
  {
    var pair, one := [Break(level), x], [Break(level)];
    assert pair[..|pair| - 1] == one && one[..|one| - 1] == [];
    assert Elements(one) == Elements([]) + [];
    assert Elements(pair) == Elements(one) + [x];
  }

  lemma {:induction false} ElementsOfLines(shown: seq<XmlNode>, level: int)
    requires AllElements(shown)
    ensures Elements(Lines(shown, level)) == shown
  {
    if shown != [] {
      var last := |shown| - 1;
      ElementsOfLines(shown[..last], level);
      ElementsConcat(Lines(shown[..last], level), [Break(level), shown[last]]);
      ElementsOfPair(level, shown[last]);
      assert shown == shown[..last] + [shown[last]];
    }
  }

  lemma ElementsOfFramed(shown: seq<XmlNode>, level: int)
    requires AllElements(shown)
    ensures Elements(Framed(shown, level)) == shown
  {
    ElementsOfLines(shown, Deeper(level));
    ElementsConcat(Lines(shown, Deeper(level)), [Break(level)]);
    assert [Break(level)][..0] == [];
  }

  lemma PrintOne(x: XmlNode)
    ensures PrintAll([x]) == Print(x)
  {
    assert [x][1..] == [];
  }

  lemma PrintPair(x: XmlNode, y: XmlNode)
    ensures PrintAll([x, y]) == Print(x) + Print(y)
  {
    assert [x, y][1..] == [y];
    PrintOne(y);
  }

  lemma PrintedLines(shown: seq<XmlNode>, level: int, x: XmlNode)
    ensures PrintAll(Lines(shown + [x], level)) == PrintAll(Lines(shown, level)) + (Print(Break(level)) + Print(x))
  {
    var longer := shown + [x];
    assert longer[..|longer| - 1] == shown;
    PrintAllConcat(Lines(shown, level), [Break(level), x]);
    PrintPair(Break(level), x);
  }

  lemma PrintedFramed(shown: seq<XmlNode>, level: int)
    ensures PrintAll(Framed(shown, level)) == PrintAll(Lines(shown, Deeper(level))) + ("\n" + Indentation(level))
  {
    PrintAllConcat(Lines(shown, Deeper(level)), [Break(level)]);
    PrintOne(Break(level));
    BreakIsPrintedAsIs(level);
  }

  // ----- expressions -----

  /** What follows the name and own properties of an element, up to its end tag. */
  function ExprText(typeProperty: string, typeName: string, xs: seq<XmlNode>): string {
    (PrintProperty(Property(typeProperty, typeName)) + ">") + PrintAll(xs)
  }

  lemma PrintedElementParts(name: string, own: seq<Property>, typeProperty: string, typeName: string, xs: seq<XmlNode>)
    ensures Print(Element(name, own + [Property(typeProperty, typeName)], xs)) ==
              ("<" + (name + PrintProperties(own))) + ExprText(typeProperty, typeName, xs) + EndTag(name)
  {
    var properties := PrintProperties(own);
    var suffix, content, close := PrintProperty(Property(typeProperty, typeName)) + ">", PrintAll(xs), EndTag(name);
    PrintPropertiesConcat(own, Property(typeProperty, typeName));
    Regroup(properties, PrintProperty(Property(typeProperty, typeName)), ">");
    Regroup("<" + (name + properties), suffix + content, close);
    Regroup(suffix, content, close);
    Regroup("<" + (name + properties), suffix, content + close);
    Regroup4("<", name, properties, suffix);
  }

  /** Prints the type and the content of a tree, after the name of its element. */
  method PrintExprVerboseXml(file: Stream, node: Node, level: int, markup: Markup) returns (ghost xs: seq<XmlNode>)
    modifies file
    ensures Shows(xs, node, markup, level)
    ensures file.contents == old(file.contents) + ExprText(markup.typeProperty, TypeName(node), xs)
    decreases node, 3
  {
    PrintTypeSuffix(file, Some(markup.typeProperty), TypeName(node));
    match node {
      case Scalar(_, value) =>
        PrintString(file, value);
        xs := if value == "" then [] else [Text(value)];
        if value != "" {
          PrintOne(Text(value));
        }
      case List(_) => xs := PrintList(file, node, level, markup);
      case Attrset(_) => xs := PrintVerboseAttrset(file, node, level, markup);
    }
    Regroup(old(file.contents), PrintProperty(Property(markup.typeProperty, TypeName(node))) + ">", PrintAll(xs));
  }

  method PrintList(file: Stream, node: Node, level: int, markup: Markup) returns (ghost xs: seq<XmlNode>)
    requires node.List?
    modifies file
    ensures Shows(xs, node, markup, level)
    ensures file.contents == old(file.contents) + PrintAll(xs)
    decreases node, 2
  {
    ghost var shown := PrintListElements(file, node, Deeper(level), markup);
    file.Write("\n");
    PrintIndentation(file, level);
    xs := Framed(shown, level);
    ElementsOfFramed(shown, level);
    PrintedFramed(shown, level);
    Regroup(old(file.contents), PrintAll(Lines(shown, Deeper(level))), "\n" + Indentation(level));
    Regroup(old(file.contents) + PrintAll(Lines(shown, Deeper(level))), "\n", Indentation(level));
  }

  method PrintVerboseAttrset(file: Stream, node: Node, level: int, markup: Markup) returns (ghost xs: seq<XmlNode>)
    requires node.Attrset?
    modifies file
    ensures Shows(xs, node, markup, level)
    ensures file.contents == old(file.contents) + PrintAll(xs)
    decreases node, 2
  {
    ghost var shown := PrintVerboseAttributes(file, node, Deeper(level), markup);
    file.Write("\n");
    PrintIndentation(file, level);
    xs := Framed(shown, level);
    ElementsOfFramed(shown, level);
    PrintedFramed(shown, level);
    Regroup(old(file.contents), PrintAll(Lines(shown, Deeper(level))), "\n" + Indentation(level));
    Regroup(old(file.contents) + PrintAll(Lines(shown, Deeper(level))), "\n", Indentation(level));
  }

  ghost predicate ShowsElements(shown: seq<XmlNode>, elements: seq<Node>, markup: Markup, level: int)
    requires |shown| <= |elements|
  {
    forall i :: 0 <= i < |shown| ==> ShownAs(shown[i], markup.listElement, [], elements[i], markup, level)
  }

  /** All elements, in order. */
  method PrintListElements(file: Stream, node: Node, level: int, markup: Markup) returns (ghost shown: seq<XmlNode>)
    requires node.List?
    modifies file
    ensures |shown| == |node.elements| && AllElements(shown) && ShowsElements(shown, node.elements, markup, level)
    ensures file.contents == old(file.contents) + PrintAll(Lines(shown, level))
    decreases node, 1
  {
    shown := [];
    for i := 0 to |node.elements|
      invariant |shown| == i && AllElements(shown) && ShowsElements(shown, node.elements, markup, level)
      invariant file.contents == old(file.contents) + PrintAll(Lines(shown, level))
    {
      ghost var x := PrintListElement(file, markup.listElement, node.elements[i], level, markup);
      PrintedLines(shown, level, x);
      Regroup(old(file.contents), PrintAll(Lines(shown, level)), Print(Break(level)) + Print(x));
      ShowsNextElement(shown, x, node.elements, markup, level);
      shown := shown + [x];
    }
  }

  lemma ShowsNextElement(shown: seq<XmlNode>, x: XmlNode, elements: seq<Node>, markup: Markup, level: int)
    requires |shown| < |elements| && AllElements(shown) && ShowsElements(shown, elements, markup, level)
    requires ShownAs(x, markup.listElement, [], elements[|shown|], markup, level)
    ensures AllElements(shown + [x]) && ShowsElements(shown + [x], elements, markup, level)
  {
    assert forall i :: 0 <= i < |shown| ==> (shown + [x])[i] == shown[i];
  }

  method PrintListElement(file: Stream, name: string, value: Node, level: int, markup: Markup)
    returns (ghost x: XmlNode)
    modifies file
    ensures ShownAs(x, name, [], value, markup, level)
    ensures file.contents == old(file.contents) + (Print(Break(level)) + Print(x))
    decreases value, 4
  {
    BreakIsPrintedAsIs(level);
    file.Write("\n");
    PrintIndentation(file, level);
    Regroup(old(file.contents), "\n", Indentation(level));
    ghost var start := file.contents;
    PrintOpenRootTag(file, name);
    ghost var xs := PrintExprVerboseXml(file, value, level, markup);
    PrintCloseRootTag(file, name);
    x := Element(name, [] + [Property(markup.typeProperty, TypeName(value))], xs);
    PrintedElementParts(name, [], markup.typeProperty, TypeName(value), xs);
    assert "<" + (name + PrintProperties([])) == "<" + name;
    AppendedElement(start, "<" + name, ExprText(markup.typeProperty, TypeName(value), xs), EndTag(name));
    Regroup(old(file.contents), Print(Break(level)), Print(x));
  }

  lemma AppendedElement(start: string, open: string, text: string, close: string)
    ensures start + open + text + close == start + (open + text + close)
  {
    Regroup(start, open, text);
    Regroup(start, open + text, close);
  }

  ghost predicate ShowsAttributes(shown: seq<XmlNode>, attributes: map<string, Node>, markup: Markup, level: int) {
    && (forall i, j :: 0 <= i < j < |shown| ==> KeyOf(shown[i]) != KeyOf(shown[j]))
    && (forall i :: 0 <= i < |shown| ==>
          var key := KeyOf(shown[i]);
          && key in attributes
          && ShownAs(shown[i], markup.attrElement, [Property(markup.nameProperty, key)], attributes[key], markup, level))
  }

  /** What has been shown is all but the attributes that are still to do. */
  ghost predicate ShowsAllBut(shown: seq<XmlNode>, attributes: map<string, Node>, todo: set<string>, markup: Markup, level: int) {
    && AllElements(shown) && ShowsAttributes(shown, attributes, markup, level)
    && (forall i :: 0 <= i < |shown| ==> KeyOf(shown[i]) !in todo)
  }

  lemma ShowsOneMore(shown: seq<XmlNode>, x: XmlNode, key: string, attributes: map<string, Node>, todo: set<string>,
                     markup: Markup, level: int)
    requires ShowsAllBut(shown, attributes, todo, markup, level) && key in todo && key in attributes
    requires ShownAs(x, markup.attrElement, [Property(markup.nameProperty, key)], attributes[key], markup, level)
    ensures ShowsAllBut(shown + [x], attributes, todo - {key}, markup, level)
  {
    assert KeyOf(x) == key;
    assert forall i :: 0 <= i < |shown| ==> (shown + [x])[i] == shown[i];
  }

  /** All attributes, in any order. */
  method PrintVerboseAttributes(file: Stream, node: Node, level: int, markup: Markup)
    returns (ghost shown: seq<XmlNode>)
    requires node.Attrset?
    modifies file
    ensures |shown| == |node.attributes| && AllElements(shown) && ShowsAttributes(shown, node.attributes, markup, level)
    ensures file.contents == old(file.contents) + PrintAll(Lines(shown, level))
    decreases node, 1
  {
    shown := [];
    var todo := node.attributes.Keys;
    while todo != {}
      invariant todo <= node.attributes.Keys && |shown| + |todo| == |node.attributes|
      invariant ShowsAllBut(shown, node.attributes, todo, markup, level)
      invariant file.contents == old(file.contents) + PrintAll(Lines(shown, level))
      decreases |todo|
    {
      var key :| key in todo;
      ghost var x := PrintVerboseAttribute(file, key, node.attributes[key], level, markup);
      PrintedLines(shown, level, x);
      Regroup(old(file.contents), PrintAll(Lines(shown, level)), Print(Break(level)) + Print(x));
      ShowsOneMore(shown, x, key, node.attributes, todo, markup, level);
      shown := shown + [x];
      todo := todo - {key};
    }
  }

  method PrintVerboseAttribute(file: Stream, key: string, value: Node, level: int, markup: Markup)
    returns (ghost x: XmlNode)
    modifies file
    ensures ShownAs(x, markup.attrElement, [Property(markup.nameProperty, key)], value, markup, level)
    ensures file.contents == old(file.contents) + (Print(Break(level)) + Print(x))
    decreases value, 4
  {
    ghost var own, name := Property(markup.nameProperty, key), markup.attrElement;
    BreakIsPrintedAsIs(level);
    file.Write("\n");
    PrintIndentation(file, level);
    Regroup(old(file.contents), "\n", Indentation(level));
    ghost var start := file.contents;
    PrintOpenVerboseAttrTag(file, markup.attrElement, markup.nameProperty, key);
    ghost var xs := PrintExprVerboseXml(file, value, level, markup);
    PrintCloseRootTag(file, markup.attrElement);
    x := Element(name, [own] + [Property(markup.typeProperty, TypeName(value))], xs);
    PrintedElementParts(name, [own], markup.typeProperty, TypeName(value), xs);
    assert [own][1..] == [] && PrintProperties([own]) == PrintProperty(own);
    AppendedElement(start, "<" + (name + PrintProperty(own)), ExprText(markup.typeProperty, TypeName(value), xs), EndTag(name));
    Regroup(old(file.contents), Print(Break(level)), Print(x));
  }

  /** Prints a tree as an element of its own. */
  method PrintGenericExprVerboseXml(file: Stream, node: Node, level: int, root: string, markup: Markup)
    returns (ghost x: XmlNode)
    modifies file
    ensures ShownAs(x, root, [], node, markup, level)
    ensures file.contents == old(file.contents) + Print(x)
  {
    PrintOpenRootTag(file, root);
    ghost var xs := PrintExprVerboseXml(file, node, level, markup);
    PrintCloseRootTag(file, root);
    x := Element(root, [] + [Property(markup.typeProperty, TypeName(node))], xs);
    PrintedElementParts(root, [], markup.typeProperty, TypeName(node), xs);
    assert "<" + (root + PrintProperties([])) == "<" + root;
    AppendedElement(old(file.contents), "<" + root, ExprText(markup.typeProperty, TypeName(node), xs), EndTag(root));
  }
}
