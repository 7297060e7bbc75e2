/** Attribute names that do not survive: the reader shortens them or changes their blanks, so a table can only come
    back when all its names are plain; and an empty name stops the parser. */
module NixXmlNames {
  import opened Wrappers
  import opened XmlText
  import opened XmlDocuments
  import opened XmlTags
  import opened NixXmlNodes
  import opened NixXmlPrinting
  import opened NixXmlParsing
  import opened NixXmlReception

  // ----- sequences of different names -----

  function TotalLength(keys: seq<string>): nat {
    if keys == [] then 0 else TotalLength(keys[..|keys| - 1]) + |keys[|keys| - 1]|
  }

  lemma {:induction false} TotalWithout(keys: seq<string>, i: nat)
    requires i < |keys|
    ensures TotalLength(keys) == TotalLength(keys[..i] + keys[i + 1..]) + |keys[i]|
    decreases |keys|
  {
    var last := |keys| - 1;
    if i == last {
      assert keys[..i] + keys[i + 1..] == keys[..last];
    } else {
      var less := keys[..i] + keys[i + 1..];
      TotalWithout(keys[..last], i);
      assert keys[..last][..i] + keys[..last][i + 1..] == less[..|less| - 1];
      assert less[|less| - 1] == keys[last];
    }
  }

  lemma DifferentWithout(keys: seq<string>, i: nat)
    requires Different(keys) && i < |keys|
    ensures var less := keys[..i] + keys[i + 1..];
            Different(less) && forall key :: key in less <==> key in keys && key != keys[i]
  {
    var less := keys[..i] + keys[i + 1..];
    assert keys == keys[..i] + [keys[i]] + keys[i + 1..];
    assert forall j :: 0 <= j < |less| ==> less[j] == keys[if j < i then j else j + 1];
  }

  /** The same names in another order. */
  lemma {:induction false} SameTotal(a: seq<string>, b: seq<string>)
    requires |a| == |b| && Different(a) && Different(b) && forall key :: key in a <==> key in b
    ensures TotalLength(a) == TotalLength(b)
    decreases |a|
  {
    if a != [] {
      var last := |a| - 1;
      assert a[last] in b;
      var j :| 0 <= j < |b| && b[j] == a[last];
      DifferentWithout(a, last);
      assert a[..last] + a[last + 1..] == a[..last];
      DifferentWithout(b, j);
      SameTotal(a[..last], b[..j] + b[j + 1..]);
      TotalWithout(b, j);
    }
  }

  /** Names that are no longer than others but as long in total are as long each. */
  lemma {:induction false} SameLengths(a: seq<string>, b: seq<string>)
    requires |a| == |b| && forall i :: 0 <= i < |a| ==> |a[i]| <= |b[i]|
    ensures TotalLength(a) <= TotalLength(b)
    ensures TotalLength(a) == TotalLength(b) ==> forall i :: 0 <= i < |a| ==> |a[i]| == |b[i]|
    decreases |a|
  {
    if a != [] {
      SameLengths(a[..|a| - 1], b[..|b| - 1]);
    }
  }

  function KeySet(keys: seq<string>): set<string> {
    set key | key in keys
  }

  lemma {:induction false} FullSizeIsDifferent(keys: seq<string>)
    ensures |KeySet(keys)| <= |keys|
    ensures |KeySet(keys)| == |keys| ==> Different(keys)
  {
    if keys != [] {
      var rest, last := keys[..|keys| - 1], keys[|keys| - 1];
      assert keys == rest + [last];
      FullSizeIsDifferent(rest);
      assert KeySet(keys) == KeySet(rest) + {last};
      if last in rest {
        assert KeySet(keys) == KeySet(rest);
      }
    }
  }

  lemma {:induction false} ParsedKeys(xs: seq<XmlNode>, names: Names, keys: seq<string>, values: seq<Node>)
    requires Keyed(xs, names, keys, values)
    ensures forall key :: key in ParsedAttrset(xs, names) <==> key in keys
    decreases |xs|
  {
    if xs != [] {
      var last := |xs| - 1;
      ParsedKeys(xs[..last], names, keys[..last], values[..last]);
      assert keys == keys[..last] + [keys[last]];
    }
  }

  // ----- names that return -----

  /** The names as the reader takes them. */
  ghost predicate ReceivedNames(keys: seq<string>, got: seq<string>) {
    |got| == |keys| && forall i :: 0 <= i < |keys| ==> ReceivedName(keys[i]) == Some(got[i])
  }

  /** When the received names are the same names again, each is plain and has been received as it is. */
  lemma ReturnedNamesArePlain(keys: seq<string>, got: seq<string>)
    requires ReceivedNames(keys, got) && Different(keys) && Different(got) && (forall key :: key in keys <==> key in got)
    requires "" !in got
    ensures got == keys && forall i :: 0 <= i < |keys| ==> PlainProperty(keys[i])
  {
    forall i | 0 <= i < |keys| ensures |got[i]| <= |keys[i]| {
      ReceivedNameIsShorter(keys[i]);
    }
    SameTotal(got, keys);
    SameLengths(got, keys);
    forall i | 0 <= i < |keys| ensures PlainProperty(keys[i]) && got[i] == keys[i] {
      ReceivedNameIsShorter(keys[i]);
      assert keys[i] in got;
      var j :| 0 <= j < |got| && got[j] == keys[i];
      ReceivedNameIsShorter(keys[j]);
      PlainNameIsReceived(keys[i]);
    }
  }

  /** A table that comes back has plain names only, and its values come back under them. */
  lemma ReturnedTableIsPlain(xs: seq<XmlNode>, names: Names, keys: seq<string>, got: seq<string>, values: seq<Node>,
                             attributes: map<string, Node>)
    requires Keyed(xs, names, got, values) && ReceivedNames(keys, got) && "" !in got
    requires Different(keys) && |keys| == |attributes| && forall i :: 0 <= i < |keys| ==> keys[i] in attributes
    requires ParsedAttrset(xs, names) == attributes
    ensures forall i :: 0 <= i < |keys| ==> PlainProperty(keys[i]) && values[i] == attributes[keys[i]]
    ensures forall key :: key in attributes <==> key in keys
  {
    ParsedKeys(xs, names, got, values);
    ReturnedKeysArePlain(keys, got, attributes);
    ParsedAttrsetIs(xs, names, got, values);
  }

  lemma ReturnedKeysArePlain(keys: seq<string>, got: seq<string>, attributes: map<string, Node>)
    requires "" !in got && Different(keys) && |keys| == |attributes|
    requires forall i :: 0 <= i < |keys| ==> keys[i] in attributes
    ensures ReceivedNames(keys, got) && (forall key :: key in attributes <==> key in got) ==>
              got == keys && forall i :: 0 <= i < |keys| ==> PlainProperty(keys[i])
  {
    if ReceivedNames(keys, got) && forall key :: key in attributes <==> key in got {
      AllKeysListed(keys, attributes);
      ListedKeysAreDifferent(got, attributes);
      ReturnedNamesArePlain(keys, got);
    }
  }

  lemma ListedKeysAreDifferent(keys: seq<string>, attributes: map<string, Node>)
    requires |keys| == |attributes| && forall key :: key in attributes <==> key in keys
    ensures Different(keys)
  {
    forall key ensures key in KeySet(keys) <==> key in attributes.Keys {}
    assert KeySet(keys) == attributes.Keys;
    FullSizeIsDifferent(keys);
  }

  // ----- what is received of an element -----

  lemma {:induction false} LastOfDifferent(properties: seq<Property>, i: nat)
    requires DifferentNames(properties) && i < |properties|
    ensures LastProperty(properties, properties[i].name) == Some(properties[i].value)
    decreases |properties|
  {
    if i < |properties| - 1 {
      LastOfDifferent(properties[..|properties| - 1], i);
    }
  }

  lemma {:induction false} LastIsAmong(properties: seq<Property>, name: string)
    ensures match LastProperty(properties, name)
            case None => forall i :: 0 <= i < |properties| ==> properties[i].name != name
            case Some(value) => exists i :: 0 <= i < |properties| && properties[i] == Property(name, value)
    decreases |properties|
  {
    if properties != [] && properties[|properties| - 1].name != name {
      LastIsAmong(properties[..|properties| - 1], name);
    }
  }

  lemma FilledForIs(properties: seq<Property>, name: string)
    requires DifferentNames(properties)
    ensures FilledFor(properties, name) <==> LastProperty(properties, name) != Some("")
  {
    LastIsAmong(properties, name);
    forall i | 0 <= i < |properties| && properties[i].name == name
      ensures LastProperty(properties, name) == Some(properties[i].value)
    {
      LastOfDifferent(properties, i);
    }
  }

  /** The element with the type of the tree, and with its name as it is received. */
  ghost predicate Typed(y: XmlNode, own: seq<Property>, node: Node, markup: Markup) {
    && y.Element? && DifferentNames(y.properties)
    && LastProperty(y.properties, markup.typeProperty) == Some(TypeName(node))
    && (own != [] ==> ReceivedName(own[0].value).Some?
                      && LastProperty(y.properties, markup.nameProperty) == Some(ReceivedName(own[0].value).value))
  }

  lemma ReceivedIsTyped(x: XmlNode, name: string, own: seq<Property>, node: Node, markup: Markup, level: int, y: XmlNode)
    requires ShownAs(x, name, own, node, markup, level) && FineMarkup(markup) && OwnProperties(own, markup)
    requires Received(x) == Some(y)
    ensures Typed(y, own, node, markup)
    ensures !node.Scalar? ==> ReceivedAs(Elements(x.children), Elements(y.children))
  {
    var last := Property(markup.typeProperty, TypeName(node));
    TypeNameIsPlain(node);
    if own == [] {
      PlainTagIsReceived(own, node, markup);
      assert own + [last] == [last];
    } else {
      assert own + [last] == [own[0], last];
      TagHolds(own[0], last);
      LastOfDifferent(y.properties, 0);
    }
    LastOfDifferent(y.properties, |y.properties| - 1);
    if !node.Scalar? {
      ReceivedChildren(x, level);
    }
  }

  /** An element with a known type is parsed. */
  lemma TypedIsParsed(y: XmlNode, own: seq<Property>, node: Node, markup: Markup)
    requires Typed(y, own, node, markup)
    ensures ParsedExpr(y, NamesOf(markup)).Some?
    ensures node.List? ==> ParsedExpr(y, NamesOf(markup)) == Some(List(ParsedList(y.children, NamesOf(markup))))
    ensures node.Attrset? ==> ParsedExpr(y, NamesOf(markup)) == Some(Attrset(ParsedAttrset(y.children, NamesOf(markup))))
  {
    if node.Scalar? {
      TypeNameIsKnown(node.kind, node.value);
    }
  }

  /** What the parser demands of the received elements or attributes of a tree. */
  predicate FilledParts(got: seq<XmlNode>, node: Node, names: Names) {
    (node.List? ==> FilledList(got, names)) && (node.Attrset? ==> FilledTable(got, names))
  }

  /** Only the elements among the children count. */
  lemma {:induction false} FilledAmongElements(xs: seq<XmlNode>, names: Names)
    ensures FilledList(xs, names) <==> FilledList(Elements(xs), names)
    ensures FilledTable(xs, names) <==> FilledTable(Elements(xs), names)
    decreases |xs|
  {
    if xs != [] {
      var last := |xs| - 1;
      FilledAmongElements(xs[..last], names);
      if xs[last].Element? {
        assert Elements(xs)[..|Elements(xs)| - 1] == Elements(xs[..last]);
      } else {
        assert Elements(xs) == Elements(xs[..last]);
      }
    }
  }

  /** Where a list or a table is parsed, only the elements among the children have to be filled. */
  lemma FilledElements(y: XmlNode, own: seq<Property>, node: Node, markup: Markup)
    requires Typed(y, own, node, markup)
    ensures Filled(y, NamesOf(markup)) <==> FilledParts(Elements(y.children), node, NamesOf(markup))
  {
    FilledForIs(y.properties, markup.typeProperty);
    TypeNameIsPlain(node);
    FilledAmongElements(y.children, NamesOf(markup));
    KindOfTypeName(node);
    assert FilledFor(y.properties, markup.typeProperty);
  }

  /** The names of the types of lists and tables are no other's. */
  lemma KindOfTypeName(node: Node)
    ensures TypeName(node) == "list" <==> node.List?
    ensures TypeName(node) == "attrs" <==> node.Attrset?
  {
    assert "list"[0] == 'l' && "attrs"[0] == 'a';
    if node.Scalar? {
      TypeNameIsKnown(node.kind, node.value);
    }
  }

  // ----- trees -----

  /** No attribute name in the tree is empty or begins with a quote, which closes it at once. */
  predicate Named(node: Node)
    decreases node
  {
    match node
    case Scalar(_, _) => true
    case List(elements) => forall i :: 0 <= i < |elements| ==> Named(elements[i])
    case Attrset(attributes) => forall key :: key in attributes ==> key != "" && key[0] != '"' && Named(attributes[key])
  }

  /** The parser meets no empty property exactly when all attribute names in the tree are received as filled ones. */
  lemma {:induction false} FilledExactlyWhenNamed(x: XmlNode, name: string, own: seq<Property>, node: Node, markup: Markup,
                                                  level: int, y: XmlNode)
    requires ShownAs(x, name, own, node, markup, level) && FineMarkup(markup) && OwnProperties(own, markup)
    requires Received(x) == Some(y)
    ensures Filled(y, NamesOf(markup)) <==> Named(node)
    decreases node, 1
  {
    ReceivedIsTyped(x, name, own, node, markup, level, y);
    FilledElements(y, own, node, markup);
    var shown, got := Elements(x.children), Elements(y.children);
    match node {
      case Scalar(_, _) => ScalarIsNamed(got, node, NamesOf(markup));
      case List(_) => FilledListWhenNamed(shown, node, markup, Deeper(level), got);
      case Attrset(_) => FilledTableWhenNamed(shown, node, markup, Deeper(level), got);
    }
  }

  lemma ScalarIsNamed(got: seq<XmlNode>, node: Node, names: Names)
    requires node.Scalar?
    ensures FilledParts(got, node, names) && Named(node)
  {}

  lemma {:induction false} FilledListWhenNamed(shown: seq<XmlNode>, node: Node, markup: Markup, level: int, got: seq<XmlNode>)
    requires node.List? && FineMarkup(markup) && ReceivedAs(shown, got)
    requires |shown| == |node.elements| && ShowsElements(shown, node.elements, markup, level)
    ensures FilledParts(got, node, NamesOf(markup)) <==> Named(node)
    decreases node, 0
  {
    forall i | 0 <= i < |got| ensures Filled(got[i], NamesOf(markup)) <==> Named(node.elements[i]) {
      FilledExactlyWhenNamed(shown[i], markup.listElement, [], node.elements[i], markup, level, got[i]);
    }
    NamedByElements(node.elements, got, NamesOf(markup));
  }

  lemma NamedByElements(elements: seq<Node>, got: seq<XmlNode>, names: Names)
    requires |elements| == |got| && forall i :: 0 <= i < |got| ==> (Filled(got[i], names) <==> Named(elements[i]))
    ensures FilledList(got, names) <==> Named(List(elements))
  {
    if FilledList(got, names) {
      forall i | 0 <= i < |elements| ensures Named(elements[i]) {
        FilledListHolds(got, names, i);
      }
    }
    if Named(List(elements)) {
      FilledListFrom(got, names);
    }
  }

  lemma {:induction false} FilledTableWhenNamed(shown: seq<XmlNode>, node: Node, markup: Markup, level: int, got: seq<XmlNode>)
    requires node.Attrset? && FineMarkup(markup) && ReceivedAs(shown, got)
    requires |shown| == |node.attributes| && ShowsAttributes(shown, node.attributes, markup, level)
    ensures FilledParts(got, node, NamesOf(markup)) <==> Named(node)
    decreases node, 0
  {
    var attributes := node.attributes;
    forall i | 0 <= i < |shown|
      ensures var key := KeyOf(shown[i]);
              && key in attributes
              && (FilledAttribute(got[i], NamesOf(markup)) <==> key != "" && key[0] != '"' && Named(attributes[key]))
    {
      FilledAttributeWhenNamed(shown[i], KeyOf(shown[i]), attributes[KeyOf(shown[i])], markup, level, got[i]);
    }
    NamedByKeys(KeysOf(shown), got, attributes, NamesOf(markup));
  }

  lemma {:induction false} FilledAttributeWhenNamed(x: XmlNode, key: string, value: Node, markup: Markup, level: int, y: XmlNode)
    requires ShownAs(x, markup.attrElement, [Property(markup.nameProperty, key)], value, markup, level)
    requires FineMarkup(markup) && Received(x) == Some(y)
    ensures FilledAttribute(y, NamesOf(markup)) <==> key != "" && key[0] != '"' && Named(value)
    decreases value, 2
  {
    var own := [Property(markup.nameProperty, key)];
    FilledExactlyWhenNamed(x, markup.attrElement, own, value, markup, level, y);
    ReceivedIsTyped(x, markup.attrElement, own, value, markup, level, y);
    FilledForIs(y.properties, markup.nameProperty);
    ReceivedNameIsShorter(key);
  }

  lemma NamedByKeys(keys: seq<string>, got: seq<XmlNode>, attributes: map<string, Node>, names: Names)
    requires |keys| == |got| == |attributes| && Different(keys)
    requires forall i :: 0 <= i < |keys| ==>
               keys[i] in attributes &&
               (FilledAttribute(got[i], names) <==> keys[i] != "" && keys[i][0] != '"' && Named(attributes[keys[i]]))
    ensures FilledTable(got, names) <==> Named(Attrset(attributes))
  {
    AllKeysListed(keys, attributes);
    if FilledTable(got, names) {
      forall key | key in attributes ensures key != "" && key[0] != '"' && Named(attributes[key]) {
        var i :| 0 <= i < |keys| && keys[i] == key;
        FilledTableHolds(got, names, i);
      }
    }
    if Named(Attrset(attributes)) {
      FilledTableFrom(got, names);
    }
  }

  /** A tree that comes back has plain attribute names only. */
  lemma {:induction false} ReturnedIsPlain(x: XmlNode, name: string, own: seq<Property>, node: Node, markup: Markup,
                                           level: int, y: XmlNode)
    requires ShownAs(x, name, own, node, markup, level) && FineMarkup(markup) && OwnProperties(own, markup)
    requires Received(x) == Some(y) && ParsedExpr(y, NamesOf(markup)) == Some(node) && Filled(y, NamesOf(markup))
    ensures PlainKeys(node)
    decreases node, 1
  {
    ReceivedIsTyped(x, name, own, node, markup, level, y);
    TypedIsParsed(y, own, node, markup);
    FilledElements(y, own, node, markup);
    match node {
      case Scalar(_, _) =>
      case List(elements) =>
        ParsedListOfElements(y.children, NamesOf(markup));
        ReturnedListIsPlain(Elements(x.children), node, markup, Deeper(level), Elements(y.children));
      case Attrset(attributes) =>
        ParsedAttrsetOfElements(y.children, NamesOf(markup));
        ReturnedAttrsetIsPlain(Elements(x.children), node, markup, Deeper(level), Elements(y.children));
    }
  }

  lemma {:induction false} ReturnedListIsPlain(shown: seq<XmlNode>, node: Node, markup: Markup, level: int, got: seq<XmlNode>)
    requires node.List? && FineMarkup(markup) && ReceivedAs(shown, got)
    requires |shown| == |node.elements| && ShowsElements(shown, node.elements, markup, level)
    requires FilledList(got, NamesOf(markup))
    requires ParsedList(got, NamesOf(markup)) == node.elements
    ensures PlainKeys(node)
    decreases node, 0
  {
    ParsedElements(shown, node.elements, markup, level, got);
    forall i | 0 <= i < |got| ensures PlainKeys(node.elements[i]) {
      FilledListHolds(got, NamesOf(markup), i);
      ReturnedIsPlain(shown[i], markup.listElement, [], node.elements[i], markup, level, got[i]);
    }
  }

  lemma ParsedElements(shown: seq<XmlNode>, elements: seq<Node>, markup: Markup, level: int, got: seq<XmlNode>)
    requires FineMarkup(markup) && ReceivedAs(shown, got)
    requires |shown| == |elements| && ShowsElements(shown, elements, markup, level)
    requires ParsedList(got, NamesOf(markup)) == elements
    ensures forall i :: 0 <= i < |got| ==> got[i].Element? && ParsedExpr(got[i], NamesOf(markup)) == Some(elements[i])
  {
    forall i | 0 <= i < |elements| ensures got[i].Element? && ParsedExpr(got[i], NamesOf(markup)).Some? {
      ReceivedIsTyped(shown[i], markup.listElement, [], elements[i], markup, level, got[i]);
      TypedIsParsed(got[i], [], elements[i], markup);
    }
    ParsedListIs(got, NamesOf(markup));
  }

  lemma {:induction false} ReturnedAttrsetIsPlain(shown: seq<XmlNode>, node: Node, markup: Markup, level: int, got: seq<XmlNode>)
    requires node.Attrset? && FineMarkup(markup) && ReceivedAs(shown, got)
    requires |shown| == |node.attributes| && ShowsAttributes(shown, node.attributes, markup, level)
    requires FilledTable(got, NamesOf(markup))
    requires ParsedAttrset(got, NamesOf(markup)) == node.attributes
    ensures PlainKeys(node)
    decreases node, 0
  {
    ParsedAttributes(shown, node.attributes, markup, level, got);
    forall key | key in node.attributes ensures PlainProperty(key) && PlainKeys(node.attributes[key]) {
      var i := IndexOfKey(shown, node.attributes, key);
      assert ReturnedAs(got[i], KeysOf(shown)[i], NamesOf(markup));
      ReturnedIsPlain(shown[i], markup.attrElement, [Property(markup.nameProperty, key)], node.attributes[key], markup, level, got[i]);
    }
  }

  lemma IndexOfKey(shown: seq<XmlNode>, attributes: map<string, Node>, key: string) returns (i: nat)
    requires |shown| == |attributes| && Different(KeysOf(shown)) && forall i :: 0 <= i < |shown| ==> KeyOf(shown[i]) in attributes
    requires key in attributes
    ensures i < |shown| && KeyOf(shown[i]) == key == KeysOf(shown)[i]
  {
    AllKeysListed(KeysOf(shown), attributes);
    i :| 0 <= i < |shown| && KeysOf(shown)[i] == key;
  }

  lemma ParsedAttributes(shown: seq<XmlNode>, attributes: map<string, Node>, markup: Markup, level: int, got: seq<XmlNode>)
    requires FineMarkup(markup) && ReceivedAs(shown, got)
    requires |shown| == |attributes| && ShowsAttributes(shown, attributes, markup, level)
    requires FilledTable(got, NamesOf(markup))
    requires ParsedAttrset(got, NamesOf(markup)) == attributes
    ensures forall i :: 0 <= i < |got| ==> ReturnedAs(got[i], KeysOf(shown)[i], NamesOf(markup))
    ensures PlainParts(KeysOf(shown), attributes, NamesOf(markup), got)
  {
    ReturnedAttributes(shown, got, attributes, markup, level);
    ParsedAttributesAre(KeysOf(shown), attributes, NamesOf(markup), got);
  }

  /** The elements are parsed as the attributes with the given names, all of which are plain. */
  ghost predicate PlainParts(keys: seq<string>, attributes: map<string, Node>, names: Names, got: seq<XmlNode>) {
    && |got| == |keys|
    && (forall i :: 0 <= i < |keys| ==> keys[i] in attributes && PlainProperty(keys[i]))
    && (forall i :: 0 <= i < |keys| ==> got[i].Element? && ParsedExpr(got[i], names) == Some(attributes[keys[i]]))
  }

  lemma ParsedAttributesAre(keys: seq<string>, attributes: map<string, Node>, names: Names, got: seq<XmlNode>)
    requires |got| == |keys| == |attributes| && Different(keys) && forall i :: 0 <= i < |keys| ==> keys[i] in attributes
    requires forall i :: 0 <= i < |got| ==> ReturnedAs(got[i], keys[i], names)
    requires ParsedAttrset(got, names) == attributes
    ensures PlainParts(keys, attributes, names, got)
  {
    ReturnedAreKeyed(got, keys, names);
    ReturnedTableIsPlain(got, names, keys, ReceivedKeys(keys), ValuesOf(got, names), attributes);
  }

  function ReceivedKey(key: string): string {
    if ReceivedName(key).Some? then ReceivedName(key).value else ""
  }

  /** The names of the attributes as the reader takes them. */
  function ReceivedKeys(keys: seq<string>): (r: seq<string>)
    ensures |r| == |keys| && forall i :: 0 <= i < |r| ==> r[i] == ReceivedKey(keys[i])
  {
    seq(|keys|, i requires 0 <= i < |keys| => ReceivedKey(keys[i]))
  }

  function ValueOf(y: XmlNode, names: Names): Node {
    if y.Element? && ParsedExpr(y, names).Some? then ParsedExpr(y, names).value else List([])
  }

  function ValuesOf(got: seq<XmlNode>, names: Names): (r: seq<Node>)
    ensures |r| == |got| && forall i :: 0 <= i < |r| ==> r[i] == ValueOf(got[i], names)
  {
    seq(|got|, i requires 0 <= i < |got| => ValueOf(got[i], names))
  }

  /** The element has the name as it is received, and can be parsed. */
  predicate ReturnedAs(y: XmlNode, key: string, names: Names) {
    var r := ReceivedName(key);
    && r.Some? && r.value != ""
    && y.Element? && LastProperty(y.properties, names.nameProperty) == r && ParsedExpr(y, names).Some? && Filled(y, names)
  }

  lemma ReturnedAttribute(x: XmlNode, key: string, value: Node, markup: Markup, level: int, y: XmlNode)
    requires ShownAs(x, markup.attrElement, [Property(markup.nameProperty, key)], value, markup, level)
    requires FineMarkup(markup) && Received(x) == Some(y) && FilledAttribute(y, NamesOf(markup))
    ensures ReturnedAs(y, key, NamesOf(markup))
  {
    var own := [Property(markup.nameProperty, key)];
    ReceivedIsTyped(x, markup.attrElement, own, value, markup, level, y);
    TypedIsParsed(y, own, value, markup);
    FilledForIs(y.properties, markup.nameProperty);
  }

  /** The attributes as they are received: under their received names, with values that can be parsed. */
  lemma ReturnedAttributes(shown: seq<XmlNode>, got: seq<XmlNode>, attributes: map<string, Node>, markup: Markup, level: int)
    requires FineMarkup(markup) && ReceivedAs(shown, got) && ShowsAttributes(shown, attributes, markup, level)
    requires FilledTable(got, NamesOf(markup))
    ensures forall i :: 0 <= i < |got| ==> ReturnedAs(got[i], KeysOf(shown)[i], NamesOf(markup))
  {
    forall i | 0 <= i < |got| ensures ReturnedAs(got[i], KeysOf(shown)[i], NamesOf(markup)) {
      FilledTableHolds(got, NamesOf(markup), i);
      ReturnedAttribute(shown[i], KeyOf(shown[i]), attributes[KeyOf(shown[i])], markup, level, got[i]);
    }
  }

  lemma ReturnedAreKeyed(got: seq<XmlNode>, keys: seq<string>, names: Names)
    requires |keys| == |got| && forall i :: 0 <= i < |got| ==> ReturnedAs(got[i], keys[i], names)
    ensures Keyed(got, names, ReceivedKeys(keys), ValuesOf(got, names))
    ensures ReceivedNames(keys, ReceivedKeys(keys)) && "" !in ReceivedKeys(keys)
  {
    forall i | 0 <= i < |got|
      ensures got[i].Element? && LastProperty(got[i].properties, names.nameProperty) == Some(ReceivedKeys(keys)[i])
      ensures ParsedExpr(got[i], names) == Some(ValuesOf(got, names)[i])
      ensures ReceivedName(keys[i]) == Some(ReceivedKeys(keys)[i]) && ReceivedKeys(keys)[i] != ""
    {
      assert ReturnedAs(got[i], keys[i], names);
    }
  }
}
