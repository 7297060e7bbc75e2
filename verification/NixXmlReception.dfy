/** What a reader and the parser make of an element that shows a tree: the element can be told apart from its text
    whatever the attribute names, and with plain names it is understood as the tree with its texts decoded. */
module NixXmlReception {
  import opened Wrappers
  import opened XmlText
  import opened XmlDocuments
  import opened XmlReading
  import opened XmlTags
  import opened NixXmlNodes
  import opened NixXmlPrinting
  import opened NixXmlParsing

  /** Every text in the tree is plain. */
  predicate AllPlain(node: Node)
    decreases node
  {
    match node
    case Scalar(_, value) => Plain(value)
    case List(elements) => forall i :: 0 <= i < |elements| ==> AllPlain(elements[i])
    case Attrset(attributes) => forall key :: key in attributes ==> AllPlain(attributes[key])
  }

  /** Every attribute name in the tree is a plain property value. */
  predicate PlainKeys(node: Node)
    decreases node
  {
    match node
    case Scalar(_, _) => true
    case List(elements) => forall i :: 0 <= i < |elements| ==> PlainKeys(elements[i])
    case Attrset(attributes) => forall key :: key in attributes ==> PlainProperty(key) && PlainKeys(attributes[key])
  }

  /** Proper names, and different ones for the two properties. */
  predicate FineMarkup(markup: Markup) {
    && IsName(markup.listElement) && IsName(markup.attrElement)
    && IsName(markup.nameProperty) && IsName(markup.typeProperty)
    && markup.nameProperty != markup.typeProperty
  }

  function NamesOf(markup: Markup): Names {
    Names(markup.nameProperty, markup.typeProperty)
  }

  /** The tree with every text decoded. */
  function Heard(node: Node): Option<Node>
    decreases node
  {
    match node
    case Scalar(kind, value) =>
      (match Decode(Escape(value))
       case None => None
       case Some(text) => Some(Scalar(kind, text)))
    case List(elements) =>
      if forall i :: 0 <= i < |elements| ==> Heard(elements[i]).Some? then
        Some(List(seq(|elements|, i requires 0 <= i < |elements| && Heard(elements[i]).Some? => Heard(elements[i]).value)))
      else
        None
    case Attrset(attributes) =>
      if forall key :: key in attributes ==> Heard(attributes[key]).Some? then
        Some(Attrset(map key | key in attributes :: Heard(attributes[key]).value))
      else
        None
  }

  lemma {:induction false} HeardExactlyWhenPlain(node: Node)
    ensures Heard(node) == Some(node) <==> AllPlain(node)
    decreases node
  {
    match node {
      case Scalar(_, value) => PlainExactlyWhenDecoded(value);
      case List(elements) =>
        forall i | 0 <= i < |elements| ensures Heard(elements[i]) == Some(elements[i]) <==> AllPlain(elements[i]) {
          HeardExactlyWhenPlain(elements[i]);
        }
        if Heard(node).Some? {
          var heard := Heard(node).value.elements;
          assert forall i :: 0 <= i < |elements| ==> Heard(elements[i]) == Some(heard[i]);
          assert AllPlain(node) ==> heard == elements;
        }
      case Attrset(attributes) =>
        forall key | key in attributes ensures Heard(attributes[key]) == Some(attributes[key]) <==> AllPlain(attributes[key]) {
          HeardExactlyWhenPlain(attributes[key]);
        }
        if Heard(node).Some? {
          var heard := Heard(node).value.attributes;
          assert forall key :: key in attributes ==> Heard(attributes[key]) == Some(heard[key]);
          assert AllPlain(node) ==> heard == attributes;
        }
    }
  }

  // ----- what is received of an element that shows a tree -----

  lemma {:induction false} ReceivedAllIs(xs: seq<XmlNode>)
    ensures ReceivedAll(xs).Some? <==> forall x :: x in xs ==> Received(x).Some?
    ensures ReceivedAll(xs).Some? ==>
              var ys := ReceivedAll(xs).value;
              |ys| == |xs| && forall i :: 0 <= i < |xs| ==> Received(xs[i]) == Some(ys[i])
    decreases |xs|
  {
    if xs != [] {
      assert xs == [xs[0]] + xs[1..];
      assert xs[0] in xs && forall x :: x in xs <==> x == xs[0] || x in xs[1..];
      ReceivedAllIs(xs[1..]);
    }
  }

  ghost predicate ReceivedAs(xs: seq<XmlNode>, ys: seq<XmlNode>) {
    |ys| == |xs| && forall i :: 0 <= i < |xs| ==> Received(xs[i]) == Some(ys[i])
  }

  lemma KindIsReceived(x: XmlNode, y: XmlNode)
    requires Received(x) == Some(y)
    ensures y.Element? <==> x.Element?
  {}

  /** Sequences of nodes of the same kinds. */
  predicate Alike(xs: seq<XmlNode>, ys: seq<XmlNode>) {
    |ys| == |xs| && forall i :: 0 <= i < |xs| ==> (ys[i].Element? <==> xs[i].Element?)
  }

  /** Each element of nodes of the same kinds comes from the same place. */
  lemma {:induction false} ElementsOfAlike(xs: seq<XmlNode>, ys: seq<XmlNode>, i: nat) returns (k: nat)
    requires Alike(xs, ys) && i < |Elements(xs)|
    ensures |Elements(ys)| == |Elements(xs)| && k < |xs| && Elements(xs)[i] == xs[k] && Elements(ys)[i] == ys[k]
    decreases |xs|
  {
    var last := |xs| - 1;
    SameCount(xs[..last], ys[..last]);
    if i < |Elements(xs[..last])| {
      k := ElementsOfAlike(xs[..last], ys[..last], i);
    } else {
      k := last;
    }
  }

  lemma {:induction false} SameCount(xs: seq<XmlNode>, ys: seq<XmlNode>)
    requires Alike(xs, ys)
    ensures |Elements(ys)| == |Elements(xs)|
    decreases |xs|
  {
    if xs != [] {
      SameCount(xs[..|xs| - 1], ys[..|ys| - 1]);
    }
  }

  lemma ReceivedElements(xs: seq<XmlNode>, ys: seq<XmlNode>)
    requires ReceivedAs(xs, ys)
    ensures ReceivedAs(Elements(xs), Elements(ys))
  {
    forall i | 0 <= i < |xs| ensures ys[i].Element? <==> xs[i].Element? {
      KindIsReceived(xs[i], ys[i]);
    }
    SameCount(xs, ys);
    forall i | 0 <= i < |Elements(xs)| ensures Received(Elements(xs)[i]) == Some(Elements(ys)[i]) {
      var k := ElementsOfAlike(xs, ys, i);
    }
  }

  lemma BreakIsReceived(level: int)
    ensures Received(Break(level)) == Some(Break(level))
  {
    IndentationIsBlank(level);
    PlainIsDecoded("\n" + Indentation(level));
  }

  lemma {:induction false} LinesHold(shown: seq<XmlNode>, level: int, x: XmlNode)
    ensures x in Lines(shown, level) <==> x in shown || (shown != [] && x == Break(level))
  {
    if shown != [] {
      LinesHold(shown[..|shown| - 1], level, x);
      assert shown == shown[..|shown| - 1] + [shown[|shown| - 1]];
    }
  }

  lemma FramedIsReceived(shown: seq<XmlNode>, level: int)
    ensures ReceivedAll(Framed(shown, level)).Some? <==> forall x :: x in shown ==> Received(x).Some?
  {
    var xs := Framed(shown, level);
    ReceivedAllIs(xs);
    BreakIsReceived(level);
    BreakIsReceived(Deeper(level));
    forall x ensures x in xs <==> x in shown || (shown != [] && x == Break(Deeper(level))) || x == Break(level) {
      LinesHold(shown, Deeper(level), x);
    }
  }

  // ----- what is parsed -----

  lemma {:induction false} ParsedListOfElements(xs: seq<XmlNode>, names: Names)
    ensures ParsedList(xs, names) == ParsedList(Elements(xs), names)
    decreases |xs|
  {
    if xs != [] {
      var last := |xs| - 1;
      ParsedListOfElements(xs[..last], names);
      if xs[last].Element? {
        assert Elements(xs)[..|Elements(xs)| - 1] == Elements(xs[..last]);
      } else {
        assert Elements(xs) == Elements(xs[..last]);
      }
    }
  }

  lemma {:induction false} ParsedListIs(xs: seq<XmlNode>, names: Names)
    requires forall i :: 0 <= i < |xs| ==> xs[i].Element? && ParsedExpr(xs[i], names).Some?
    ensures |ParsedList(xs, names)| == |xs|
    ensures forall i :: 0 <= i < |xs| ==> ParsedExpr(xs[i], names) == Some(ParsedList(xs, names)[i])
    decreases |xs|
  {
    if xs != [] {
      ParsedListIs(xs[..|xs| - 1], names);
    }
  }

  lemma {:induction false} ParsedAttrsetOfElements(xs: seq<XmlNode>, names: Names)
    ensures ParsedAttrset(xs, names) == ParsedAttrset(Elements(xs), names)
    decreases |xs|
  {
    if xs != [] {
      var last := |xs| - 1;
      ParsedAttrsetOfElements(xs[..last], names);
      if xs[last].Element? {
        assert Elements(xs)[..|Elements(xs)| - 1] == Elements(xs[..last]);
      } else {
        assert Elements(xs) == Elements(xs[..last]);
      }
    }
  }

  ghost predicate Keyed(xs: seq<XmlNode>, names: Names, keys: seq<string>, values: seq<Node>) {
    && |keys| == |values| == |xs|
    && (forall i :: 0 <= i < |xs| ==>
          xs[i].Element? && LastProperty(xs[i].properties, names.nameProperty) == Some(keys[i])
          && ParsedExpr(xs[i], names) == Some(values[i]))
  }

  predicate Different(keys: seq<string>) {
    forall i, j :: 0 <= i < j < |keys| ==> keys[i] != keys[j]
  }

  /** The table of the given keys and values. */
  predicate Tabled(table: map<string, Node>, keys: seq<string>, values: seq<Node>)
    requires |keys| == |values|
  {
    && (forall key :: key in table ==> key in keys)
    && (forall i :: 0 <= i < |keys| ==> keys[i] in table && table[keys[i]] == values[i])
  }

  lemma TabledNext(table: map<string, Node>, keys: seq<string>, values: seq<Node>)
    requires |keys| == |values| > 0 && Different(keys) && Tabled(table, keys[..|keys| - 1], values[..|keys| - 1])
    ensures Tabled(table[keys[|keys| - 1] := values[|keys| - 1]], keys, values)
  {
    var last := |keys| - 1;
    assert keys == keys[..last] + [keys[last]];
    assert forall i :: 0 <= i < last ==> keys[..last][i] == keys[i] && values[..last][i] == values[i];
  }

  lemma {:induction false} ParsedAttrsetIs(xs: seq<XmlNode>, names: Names, keys: seq<string>, values: seq<Node>)
    requires Keyed(xs, names, keys, values) && Different(keys)
    ensures Tabled(ParsedAttrset(xs, names), keys, values)
    decreases |xs|
  {
    if xs != [] {
      var last := |xs| - 1;
      ParsedAttrsetIs(xs[..last], names, keys[..last], values[..last]);
      TabledNext(ParsedAttrset(xs[..last], names), keys, values);
    }
  }

  /** As many different keys as a table has are all its keys. */
  lemma AllKeysListed(keys: seq<string>, attributes: map<string, Node>)
    requires |keys| == |attributes| && forall i :: 0 <= i < |keys| ==> keys[i] in attributes
    requires forall i, j :: 0 <= i < j < |keys| ==> keys[i] != keys[j]
    ensures forall key :: key in keys <==> key in attributes
  {
    var listed := set key | key in keys;
    DistinctSize(keys);
    assert listed <= attributes.Keys;
    assert attributes.Keys == listed + (attributes.Keys - listed);
    assert |attributes.Keys - listed| == 0;
    forall key ensures key in keys <==> key in attributes {
      assert key in listed <==> key in keys;
    }
  }

  lemma {:induction false} DistinctSize(keys: seq<string>)
    requires forall i, j :: 0 <= i < j < |keys| ==> keys[i] != keys[j]
    ensures |set key | key in keys| == |keys|
  {
    if keys != [] {
      var rest, last := keys[..|keys| - 1], keys[|keys| - 1];
      DistinctSize(rest);
      assert keys == rest + [last];
      assert (set key | key in keys) == (set key | key in rest) + {last};
    }
  }

  // ----- one element -----

  /** The properties an element has of its own: none, or its name. */
  ghost predicate OwnProperties(own: seq<Property>, markup: Markup) {
    own == [] || (|own| == 1 && own[0].name == markup.nameProperty)
  }

  predicate PlainValues(properties: seq<Property>) {
    forall i :: 0 <= i < |properties| ==> PlainProperty(properties[i].value)
  }

  lemma TypeNameIsPlain(node: Node)
    ensures PlainProperty(TypeName(node)) && NameChar(TypeName(node)[0])
  {}

  lemma {:induction false} PlainValuesAreReceived(properties: seq<Property>)
    requires PlainValues(properties)
    ensures ReceivedProperties(properties) == Some(properties)
  {
    if properties != [] {
      PlainIsReceived(properties[0]);
      PlainValuesAreReceived(properties[1..]);
      assert [properties[0]] + properties[1..] == properties;
    }
  }

  /** With a plain name, the properties of an element that shows a tree are received as they are. */
  lemma PlainTagIsReceived(own: seq<Property>, node: Node, markup: Markup)
    requires FineMarkup(markup) && OwnProperties(own, markup) && PlainValues(own)
    ensures var properties := own + [Property(markup.typeProperty, TypeName(node))];
            ReceivedTag(properties) == Some(properties)
  {
    var typed := [Property(markup.typeProperty, TypeName(node))];
    TypeNameIsPlain(node);
    PlainValuesAreReceived(own + typed);
    assert typed[1..] == [] && FineProperties(typed);
    if own == [] {
      assert own + typed == typed;
    } else {
      assert (own + typed)[1..] == typed;
    }
    FineIsDelimited(own + typed);
  }

  lemma TypeIsFound(own: seq<Property>, node: Node, markup: Markup)
    requires FineMarkup(markup) && OwnProperties(own, markup)
    ensures var properties := own + [Property(markup.typeProperty, TypeName(node))];
            && LastProperty(properties, markup.typeProperty) == Some(TypeName(node))
            && (own != [] ==> LastProperty(properties, markup.nameProperty) == Some(own[0].value))
  {
    var properties := own + [Property(markup.typeProperty, TypeName(node))];
    assert properties[..|properties| - 1] == own;
    assert own != [] ==> own[..|own| - 1] == [];
  }

  /** What has been proved of an element: it is received just when the tree is heard, and parsed as what is heard. */
  ghost predicate Understood(x: XmlNode, node: Node, names: Names) {
    && x.Element?
    && (Received(x).Some? <==> Heard(node).Some?)
    && (Received(x).Some? ==> Received(x).value.Element? && ParsedExpr(Received(x).value, names) == Heard(node))
  }

  lemma TypeNameIsKnown(kind: ScalarType, value: string)
    ensures var name := TypeName(Scalar(kind, value));
            ScalarOf(name) == Some(kind) && name != "list" && name != "attrs"
  {
    match kind {
      case StringType =>
        assert "string"[0] == 's' && "list"[0] == 'l' && "attrs"[0] == 'a';
      case IntType =>
        assert "int"[0] == 'i' && "list"[0] == 'l' && "attrs"[0] == 'a';
      case FloatType =>
        assert "float"[0] == 'f' && "list"[0] == 'l' && "attrs"[0] == 'a';
      case BoolType =>
        assert "bool"[0] == 'b' && "list"[0] == 'l' && "attrs"[0] == 'a';
      case PathType =>
        assert "path"[0] == 'p' && "list"[0] == 'l' && "attrs"[0] == 'a';
    }
  }

  lemma UnderstandsScalar(x: XmlNode, kind: ScalarType, value: string, names: Names)
    requires x.Element? && x.children == if value == "" then [] else [Text(value)]
    requires ReceivedTag(x.properties) == Some(x.properties)
    requires LastProperty(x.properties, names.typeProperty) == Some(TypeName(Scalar(kind, value)))
    ensures Understood(x, Scalar(kind, value), names)
  {
    TypeNameIsKnown(kind, value);
    assert ReceivedAll([]) == Some([]);
    if value != "" {
      assert [Text(value)][1..] == [];
      if Decode(Escape(value)).Some? {
        var text := Text(Decode(Escape(value)).value);
        assert [text] + [] == [text];
        assert ReceivedAll(x.children) == Some([text]);
      } else {
        assert Received(x.children[0]).None? && ReceivedAll(x.children).None?;
      }
    }
  }

  /** The received children of an element whose children are framed. */
  lemma ReceivedChildren(x: XmlNode, level: int)
    requires x.Element? && x.children == Framed(Elements(x.children), level) && ReceivedTag(x.properties).Some?
    ensures Received(x).Some? <==> forall c :: c in Elements(x.children) ==> Received(c).Some?
    ensures Received(x).Some? ==>
              Received(x).value.Element? && Received(x).value.properties == ReceivedTag(x.properties).value &&
              ReceivedAs(Elements(x.children), Elements(Received(x).value.children))
  {
    FramedIsReceived(Elements(x.children), level);
    ReceivedAllIs(x.children);
    if Received(x).Some? {
      ReceivedElements(x.children, Received(x).value.children);
    }
  }

  /** The element has been parsed as what is heard of the tree. */
  ghost predicate Matches(y: XmlNode, node: Node, names: Names) {
    y.Element? && Heard(node).Some? && ParsedExpr(y, names) == Heard(node)
  }

  lemma ListIsHeard(ys: seq<XmlNode>, elements: seq<Node>, names: Names)
    requires |Elements(ys)| == |elements|
    requires forall i :: 0 <= i < |elements| ==> Matches(Elements(ys)[i], elements[i], names)
    ensures Heard(List(elements)) == Some(List(ParsedList(ys, names)))
  {
    ParsedListOfElements(ys, names);
    ElementsMatch(Elements(ys), elements, names);
    ElementsAreHeard(elements, ParsedList(Elements(ys), names));
  }

  lemma ElementsMatch(got: seq<XmlNode>, elements: seq<Node>, names: Names)
    requires |got| == |elements| && forall i :: 0 <= i < |elements| ==> Matches(got[i], elements[i], names)
    ensures |ParsedList(got, names)| == |elements|
    ensures forall i :: 0 <= i < |elements| ==> Heard(elements[i]) == Some(ParsedList(got, names)[i])
  {
    ParsedListIs(got, names);
    forall i | 0 <= i < |elements| ensures Heard(elements[i]) == Some(ParsedList(got, names)[i]) {
      assert Matches(got[i], elements[i], names);
    }
  }

  lemma ElementsAreHeard(elements: seq<Node>, heard: seq<Node>)
    requires |heard| == |elements| && forall i :: 0 <= i < |elements| ==> Heard(elements[i]) == Some(heard[i])
    ensures Heard(List(elements)) == Some(List(heard))
  {
    assert heard == Heard(List(elements)).value.elements;
  }

  lemma UnderstoodMatches(x: XmlNode, y: XmlNode, node: Node, names: Names)
    requires Understood(x, node, names) && Received(x) == Some(y)
    ensures Matches(y, node, names)
  {}

  lemma UnderstandsList(x: XmlNode, elements: seq<Node>, level: int, names: Names)
    requires x.Element? && x.children == Framed(Elements(x.children), level) && |Elements(x.children)| == |elements|
    requires ReceivedTag(x.properties) == Some(x.properties)
    requires LastProperty(x.properties, names.typeProperty) == Some("list")
    requires forall i :: 0 <= i < |elements| ==> Understood(Elements(x.children)[i], elements[i], names)
    ensures Understood(x, List(elements), names)
  {
    var shown := Elements(x.children);
    ReceivedChildren(x, level);
    if Received(x).Some? {
      ReceivedListMatches(shown, Received(x).value.children, elements, names);
    } else {
      UnreceivedElement(shown, elements, names);
    }
  }

  lemma ReceivedListMatches(shown: seq<XmlNode>, ys: seq<XmlNode>, elements: seq<Node>, names: Names)
    requires |shown| == |elements| && ReceivedAs(shown, Elements(ys))
    requires forall i :: 0 <= i < |elements| ==> Understood(shown[i], elements[i], names)
    ensures Heard(List(elements)) == Some(List(ParsedList(ys, names)))
  {
    forall i | 0 <= i < |elements| ensures Matches(Elements(ys)[i], elements[i], names) {
      UnderstoodMatches(shown[i], Elements(ys)[i], elements[i], names);
    }
    ListIsHeard(ys, elements, names);
  }

  lemma UnreceivedElement(shown: seq<XmlNode>, elements: seq<Node>, names: Names)
    requires |shown| == |elements| && exists c :: c in shown && Received(c).None?
    requires forall i :: 0 <= i < |elements| ==> Understood(shown[i], elements[i], names)
    ensures Heard(List(elements)).None?
  {
    var c :| c in shown && Received(c).None?;
    var i :| 0 <= i < |shown| && shown[i] == c;
    assert Heard(elements[i]).None?;
  }

  function KeysOf(xs: seq<XmlNode>): (r: seq<string>)
    ensures |r| == |xs| && forall i :: 0 <= i < |xs| ==> r[i] == KeyOf(xs[i])
  {
    seq(|xs|, i requires 0 <= i < |xs| => KeyOf(xs[i]))
  }

  ghost predicate Attributed(shown: seq<XmlNode>, keys: seq<string>, attributes: map<string, Node>, names: Names) {
    && |keys| == |shown|
    && (forall key :: key in keys <==> key in attributes)
    && (forall i, j :: 0 <= i < j < |keys| ==> keys[i] != keys[j])
    && (forall i :: 0 <= i < |shown| ==>
          shown[i].Element? && LastProperty(shown[i].properties, names.nameProperty) == Some(keys[i]))
  }

  lemma AttrsetIsHeard(ys: seq<XmlNode>, keys: seq<string>, attributes: map<string, Node>, names: Names)
    requires Attributed(Elements(ys), keys, attributes, names)
    requires forall i :: 0 <= i < |keys| ==> keys[i] in attributes && Matches(Elements(ys)[i], attributes[keys[i]], names)
    ensures Heard(Attrset(attributes)) == Some(Attrset(ParsedAttrset(ys, names)))
  {
    var values := seq(|keys|, i requires 0 <= i < |keys| && keys[i] in attributes && Heard(attributes[keys[i]]).Some? =>
                                Heard(attributes[keys[i]]).value);
    assert forall i :: 0 <= i < |keys| ==> Matches(Elements(ys)[i], attributes[keys[i]], names);
    ParsedAttrsetOfElements(ys, names);
    ParsedAttrsetIs(Elements(ys), names, keys, values);
    forall key | key in attributes
      ensures key in ParsedAttrset(ys, names) && Heard(attributes[key]) == Some(ParsedAttrset(ys, names)[key])
    {
      var i :| 0 <= i < |keys| && keys[i] == key;
    }
    TableIsHeard(ParsedAttrset(ys, names), attributes);
  }

  lemma TableIsHeard(table: map<string, Node>, attributes: map<string, Node>)
    requires forall key :: key in table <==> key in attributes
    requires forall key :: key in attributes ==> Heard(attributes[key]) == Some(table[key])
    ensures Heard(Attrset(attributes)) == Some(Attrset(table))
  {
    var heard := Heard(Attrset(attributes));
    assert heard.Some?;
    assert table == heard.value.attributes;
  }

  lemma UnderstandsAttrset(x: XmlNode, keys: seq<string>, attributes: map<string, Node>, level: int, names: Names)
    requires x.Element? && x.children == Framed(Elements(x.children), level)
    requires ReceivedTag(x.properties) == Some(x.properties)
    requires LastProperty(x.properties, names.typeProperty) == Some("attrs")
    requires Attributed(Elements(x.children), keys, attributes, names)
    requires forall i :: 0 <= i < |keys| ==>
               keys[i] in attributes && Understood(Elements(x.children)[i], attributes[keys[i]], names)
    requires TagsKept(Elements(x.children))
    ensures Understood(x, Attrset(attributes), names)
  {
    var shown := Elements(x.children);
    ReceivedChildren(x, level);
    if Received(x).Some? {
      ReceivedAttrsetMatches(shown, Received(x).value.children, keys, attributes, names);
    } else {
      UnreceivedAttribute(shown, keys, attributes, names);
    }
  }

  lemma UnreceivedAttribute(shown: seq<XmlNode>, keys: seq<string>, attributes: map<string, Node>, names: Names)
    requires |keys| == |shown| && exists c :: c in shown && Received(c).None?
    requires forall i :: 0 <= i < |keys| ==> keys[i] in attributes && Understood(shown[i], attributes[keys[i]], names)
    ensures Heard(Attrset(attributes)).None?
  {
    var c :| c in shown && Received(c).None?;
    var i :| 0 <= i < |shown| && shown[i] == c;
    UnheardAttribute(attributes, keys[i]);
  }

  lemma UnheardAttribute(attributes: map<string, Node>, key: string)
    requires key in attributes && Heard(attributes[key]).None?
    ensures Heard(Attrset(attributes)).None?
  {}

  lemma ReceivedAttrsetMatches(shown: seq<XmlNode>, ys: seq<XmlNode>, keys: seq<string>, attributes: map<string, Node>,
                               names: Names)
    requires Attributed(shown, keys, attributes, names) && ReceivedAs(shown, Elements(ys)) && TagsKept(shown)
    requires forall i :: 0 <= i < |keys| ==> keys[i] in attributes && Understood(shown[i], attributes[keys[i]], names)
    ensures Heard(Attrset(attributes)) == Some(Attrset(ParsedAttrset(ys, names)))
  {
    SameProperties(shown, Elements(ys));
    forall i | 0 <= i < |keys| ensures keys[i] in attributes && Matches(Elements(ys)[i], attributes[keys[i]], names) {
      UnderstoodMatches(shown[i], Elements(ys)[i], attributes[keys[i]], names);
    }
    AttrsetIsHeard(ys, keys, attributes, names);
  }

  /** The properties of all elements are received as they are. */
  ghost predicate TagsKept(xs: seq<XmlNode>) {
    forall i :: 0 <= i < |xs| ==> xs[i].Element? && ReceivedTag(xs[i].properties) == Some(xs[i].properties)
  }

  lemma SameProperties(xs: seq<XmlNode>, ys: seq<XmlNode>)
    requires ReceivedAs(xs, ys) && TagsKept(xs)
    ensures forall i :: 0 <= i < |xs| ==> ys[i].Element? && ys[i].properties == xs[i].properties
  {
    forall i | 0 <= i < |xs| ensures ys[i].Element? && ys[i].properties == xs[i].properties {
      assert Received(xs[i]) == Some(ys[i]);
    }
  }

  /** An element that shows a tree is understood as the tree with its texts decoded. */
  lemma {:induction false} ShownIsUnderstood(x: XmlNode, name: string, own: seq<Property>, node: Node, markup: Markup,
                                             level: int)
    requires ShownAs(x, name, own, node, markup, level)
    requires FineMarkup(markup) && OwnProperties(own, markup) && PlainValues(own) && PlainKeys(node)
    ensures Understood(x, node, NamesOf(markup))
    decreases node, 1
  {
    TypeIsFound(own, node, markup);
    PlainTagIsReceived(own, node, markup);
    match node {
      case Scalar(kind, value) => UnderstandsScalar(x, kind, value, NamesOf(markup));
      case List(_) =>
        ElementsAreUnderstood(Elements(x.children), node, markup, Deeper(level));
        UnderstandsList(x, node.elements, level, NamesOf(markup));
      case Attrset(_) =>
        AttributesAreUnderstood(Elements(x.children), node, markup, Deeper(level));
        UnderstandsAttrset(x, KeysOf(Elements(x.children)), node.attributes, level, NamesOf(markup));
    }
  }

  lemma {:induction false} ElementsAreUnderstood(shown: seq<XmlNode>, node: Node, markup: Markup, level: int)
    requires node.List? && FineMarkup(markup) && PlainKeys(node)
    requires |shown| == |node.elements| && ShowsElements(shown, node.elements, markup, level)
    ensures forall i :: 0 <= i < |shown| ==> Understood(shown[i], node.elements[i], NamesOf(markup))
    decreases node, 0
  {
    forall i | 0 <= i < |shown| ensures Understood(shown[i], node.elements[i], NamesOf(markup)) {
      ShownIsUnderstood(shown[i], markup.listElement, [], node.elements[i], markup, level);
    }
  }

  lemma {:induction false} AttributesAreUnderstood(shown: seq<XmlNode>, node: Node, markup: Markup, level: int)
    requires node.Attrset? && FineMarkup(markup) && PlainKeys(node)
    requires |shown| == |node.attributes| && AllElements(shown) && ShowsAttributes(shown, node.attributes, markup, level)
    ensures Attributed(shown, KeysOf(shown), node.attributes, NamesOf(markup)) && TagsKept(shown)
    ensures forall i :: 0 <= i < |shown| ==>
              KeysOf(shown)[i] in node.attributes && Understood(shown[i], node.attributes[KeysOf(shown)[i]], NamesOf(markup))
    decreases node, 0
  {
    AttributesAreNamed(shown, node.attributes, markup, level);
    forall i | 0 <= i < |shown|
      ensures KeysOf(shown)[i] in node.attributes && Understood(shown[i], node.attributes[KeysOf(shown)[i]], NamesOf(markup))
    {
      AttributeIsUnderstood(shown[i], KeyOf(shown[i]), node.attributes[KeyOf(shown[i])], markup, level);
    }
  }

  lemma {:induction false} AttributeIsUnderstood(x: XmlNode, key: string, value: Node, markup: Markup, level: int)
    requires FineMarkup(markup) && PlainProperty(key) && PlainKeys(value)
    requires ShownAs(x, markup.attrElement, [Property(markup.nameProperty, key)], value, markup, level)
    ensures Understood(x, value, NamesOf(markup))
    decreases value, 2
  {
    ShownIsUnderstood(x, markup.attrElement, [Property(markup.nameProperty, key)], value, markup, level);
  }

  lemma AttributesAreNamed(shown: seq<XmlNode>, attributes: map<string, Node>, markup: Markup, level: int)
    requires FineMarkup(markup) && forall key :: key in attributes ==> PlainProperty(key)
    requires |shown| == |attributes| && AllElements(shown) && ShowsAttributes(shown, attributes, markup, level)
    ensures Attributed(shown, KeysOf(shown), attributes, NamesOf(markup)) && TagsKept(shown)
  {
    AllKeysListed(KeysOf(shown), attributes);
    forall i | 0 <= i < |shown|
      ensures LastProperty(shown[i].properties, markup.nameProperty) == Some(KeyOf(shown[i]))
      ensures ReceivedTag(shown[i].properties) == Some(shown[i].properties)
    {
      AttributeIsNamed(shown[i], KeyOf(shown[i]), attributes[KeyOf(shown[i])], markup, level);
    }
  }

  lemma AttributeIsNamed(x: XmlNode, key: string, value: Node, markup: Markup, level: int)
    requires FineMarkup(markup) && PlainProperty(key)
    requires ShownAs(x, markup.attrElement, [Property(markup.nameProperty, key)], value, markup, level)
    ensures LastProperty(x.properties, markup.nameProperty) == Some(key) && ReceivedTag(x.properties) == Some(x.properties)
  {
    TypeIsFound([Property(markup.nameProperty, key)], value, markup);
    PlainTagIsReceived([Property(markup.nameProperty, key)], value, markup);
  }

  // ----- the document can be read -----

  lemma OwnPropertiesAreDelimited(own: seq<Property>, node: Node, markup: Markup)
    requires FineMarkup(markup) && OwnProperties(own, markup)
    ensures Delimited(own + [Property(markup.typeProperty, TypeName(node))])
  {
    var last := Property(markup.typeProperty, TypeName(node));
    TypeNameIsPlain(node);
    if own == [] {
      assert own + [last] == [last];
      OneIsDelimited(last);
    } else {
      assert own + [last] == [own[0], last];
      TagIsDelimited(own[0], last);
    }
  }

  lemma OneIsDelimited(p: Property)
    requires IsName(p.name) && '"' !in p.value
    ensures Delimited([p])
  {
    assert [p][1..] == [] && FineProperties([p]);
    FineIsDelimited([p]);
  }

  lemma {:induction false} FineAllConcat(a: seq<XmlNode>, b: seq<XmlNode>)
    requires FineAll(a) && FineAll(b) && (a != [] && b != [] ==> a[|a| - 1].Element? || b[0].Element?)
    ensures FineAll(a + b)
    decreases |a|
  {
    if a == [] {
      assert a + b == b;
    } else {
      FineAllConcat(a[1..], b);
      assert (a + b)[1..] == a[1..] + b;
    }
  }

  lemma PairIsFine(level: int, x: XmlNode)
    requires x.Element? && Fine(x)
    ensures FineAll([Break(level), x]) && FineAll([Break(level)])
  {
    assert [Break(level), x][1..] == [x] && [x][1..] == [] && [Break(level)][1..] == [];
  }

  lemma {:induction false} LinesAreFine(shown: seq<XmlNode>, level: int)
    requires forall i :: 0 <= i < |shown| ==> shown[i].Element? && Fine(shown[i])
    ensures FineAll(Lines(shown, level)) && (shown != [] ==> Lines(shown, level)[|Lines(shown, level)| - 1].Element?)
  {
    if shown != [] {
      var last := |shown| - 1;
      LinesAreFine(shown[..last], level);
      PairIsFine(level, shown[last]);
      FineAllConcat(Lines(shown[..last], level), [Break(level), shown[last]]);
    }
  }

  lemma FramedIsFine(shown: seq<XmlNode>, level: int)
    requires forall i :: 0 <= i < |shown| ==> shown[i].Element? && Fine(shown[i])
    ensures FineAll(Framed(shown, level))
  {
    LinesAreFine(shown, Deeper(level));
    assert [Break(level)][1..] == [];
    assert shown == [] ==> Lines(shown, Deeper(level)) == [];
    FineAllConcat(Lines(shown, Deeper(level)), [Break(level)]);
  }

  lemma ScalarContentIsFine(value: string)
    ensures FineAll(if value == "" then [] else [Text(value)])
  {
    assert value != "" ==> [Text(value)][1..] == [];
  }

  /** An element that shows a tree can be told apart from its text. */
  lemma {:induction false} ShownIsFine(x: XmlNode, name: string, own: seq<Property>, node: Node, markup: Markup,
                                       level: int)
    requires ShownAs(x, name, own, node, markup, level) && IsName(name)
    requires FineMarkup(markup) && OwnProperties(own, markup)
    ensures Fine(x)
    decreases node
  {
    OwnPropertiesAreDelimited(own, node, markup);
    var shown := Elements(x.children);
    match node {
      case Scalar(_, value) => ScalarContentIsFine(value);
      case List(elements) =>
        forall i | 0 <= i < |shown| ensures shown[i].Element? && Fine(shown[i]) {
          ShownIsFine(shown[i], markup.listElement, [], elements[i], markup, Deeper(level));
        }
        FramedIsFine(shown, level);
      case Attrset(attributes) =>
        forall i | 0 <= i < |shown| ensures shown[i].Element? && Fine(shown[i]) {
          var key := KeyOf(shown[i]);
          ShownIsFine(shown[i], markup.attrElement, [Property(markup.nameProperty, key)], attributes[key], markup, Deeper(level));
        }
        FramedIsFine(shown, level);
    }
  }
}
