/** Printing a tree as verbose XML, reading the document and parsing it gives the tree back, for every tree,
    indentation and order of attributes, exactly when every text and every attribute name in it is plain. */
module NixXmlRoundTrip {
  import opened Wrappers
  import opened XmlDocuments
  import opened XmlReading
  import opened XmlTags
  import opened NixXmlNodes
  import opened NixXmlPrinting
  import opened NixXmlParsing
  import opened NixXmlReception
  import opened NixXmlNames

  /** Reading a document and parsing its root: nothing when the document is refused or the parser meets an empty property. */
  function Recovered(text: string, names: Names): Option<Node> {
    match ReadDocument(text)
    case None => None
    case Some(root) => if root.Element? && Filled(root, names) then ParsedExpr(root, names) else None
  }

  /** Whatever the tree, the indentation and the order of its attributes: the printed document gives the tree back
      exactly when all its texts and attribute names are plain. */
  lemma RoundTrip(x: XmlNode, root: string, node: Node, markup: Markup, level: int)
    requires ShownAs(x, root, [], node, markup, level)
    requires IsName(root) && FineMarkup(markup)
    ensures Recovered(Print(x), NamesOf(markup)) == Some(node) <==> AllPlain(node) && PlainKeys(node)
  {
    ShownIsFine(x, root, [], node, markup, level);
    ReadsDocument(x);
    if PlainKeys(node) {
      RecoveredIsHeard(x, root, node, markup, level);
      HeardExactlyWhenPlain(node);
    } else if Recovered(Print(x), NamesOf(markup)) == Some(node) {
      ReturnedIsPlain(x, root, [], node, markup, level, Received(x).value);
      assert false;
    }
  }

  /** With plain attribute names, what comes back is the tree with its texts decoded. */
  lemma RecoveredIsHeard(x: XmlNode, root: string, node: Node, markup: Markup, level: int)
    requires ShownAs(x, root, [], node, markup, level)
    requires IsName(root) && FineMarkup(markup) && PlainKeys(node)
    ensures Recovered(Print(x), NamesOf(markup)) == Heard(node)
  {
    ShownIsFine(x, root, [], node, markup, level);
    ReadsDocument(x);
    ShownIsUnderstood(x, root, [], node, markup, level);
    if Received(x).Some? {
      PlainIsNamed(node);
      FilledExactlyWhenNamed(x, root, [], node, markup, level, Received(x).value);
    }
  }

  lemma {:induction false} PlainIsNamed(node: Node)
    requires PlainKeys(node)
    ensures Named(node)
    decreases node
  {
    match node {
      case Scalar(_, _) =>
      case List(elements) =>
        forall i | 0 <= i < |elements| ensures Named(elements[i]) {
          PlainIsNamed(elements[i]);
        }
      case Attrset(attributes) =>
        forall key | key in attributes ensures key != "" && key[0] != '"' && Named(attributes[key]) {
          PlainIsNamed(attributes[key]);
          assert key[0] in key;
        }
    }
  }

  /** A document that is read stops the parser at an empty property exactly when some attribute name in the tree is
      empty or begins with a quote. */
  lemma StopsExactlyWhenUnnamed(x: XmlNode, root: string, node: Node, markup: Markup, level: int)
    requires ShownAs(x, root, [], node, markup, level)
    requires IsName(root) && FineMarkup(markup)
    ensures ReadDocument(Print(x)).Some? ==> (Filled(ReadDocument(Print(x)).value, NamesOf(markup)) <==> Named(node))
  {
    ShownIsFine(x, root, [], node, markup, level);
    ReadsDocument(x);
    if Received(x).Some? {
      FilledExactlyWhenNamed(x, root, [], node, markup, level, Received(x).value);
    }
  }

  /** One attribute with an empty name: the document is read, and the parser stops at the empty property. */
  lemma EmptyName(x: XmlNode, root: string, markup: Markup, level: int)
    requires ShownAs(x, root, [], Attrset(map["" := Scalar(StringType, "")]), markup, level)
    requires IsName(root) && FineMarkup(markup)
    ensures ReadDocument(Print(x)).Some? && !Filled(ReadDocument(Print(x)).value, NamesOf(markup))
  {
    var node := Attrset(map["" := Scalar(StringType, "")]);
    ShownIsFine(x, root, [], node, markup, level);
    ReadsDocument(x);
    EmptyNameIsReceived(x, root, markup, level);
    assert "" in node.attributes;
    StopsExactlyWhenUnnamed(x, root, node, markup, level);
  }

  lemma EmptyNameIsReceived(x: XmlNode, root: string, markup: Markup, level: int)
    requires ShownAs(x, root, [], Attrset(map["" := Scalar(StringType, "")]), markup, level) && FineMarkup(markup)
    ensures Received(x).Some?
  {
    var node, value := Attrset(map["" := Scalar(StringType, "")]), Scalar(StringType, "");
    var shown, own := Elements(x.children), [Property(markup.nameProperty, "")];
    PlainTagIsReceived([], node, markup);
    assert x.properties == [] + [Property(markup.typeProperty, TypeName(node))];
    assert |node.attributes| == 1 && KeyOf(shown[0]) == "";
    ReceivedChildren(x, level);
    forall c | c in shown ensures Received(c).Some? {
      assert c == shown[0] && ShownAs(c, markup.attrElement, own, value, markup, Deeper(level));
      EmptyTagIsReceived(c, markup, Deeper(level));
    }
  }

  lemma EmptyTagIsReceived(x: XmlNode, markup: Markup, level: int)
    requires ShownAs(x, markup.attrElement, [Property(markup.nameProperty, "")], Scalar(StringType, ""), markup, level)
    requires FineMarkup(markup)
    ensures Received(x).Some?
  {
    var p, last := Property(markup.nameProperty, ""), Property(markup.typeProperty, "string");
    assert x.properties == [p, last] && x.children == [];
    assert [p, last][1..] == [last] && [last][1..] == [];
    TypeNameIsPlain(Scalar(StringType, ""));
    PlainIsReceived(last);
    assert ReceivedProperty(p).Some? && ReceivedProperties([last]).Some?;
    assert FineProperties([last]);
    FineIsDelimited([p, last]);
  }
}
