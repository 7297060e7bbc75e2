/** The parser of verbose XML: it walks an element by its properties and children and builds the tree. */
module NixXmlParsing {
  import opened Wrappers
  import opened XmlDocuments
  import opened NixXmlNodes

  datatype Names = Names(nameProperty: string, typeProperty: string)

  /** The value of the last property with the given name. */
  function LastProperty(properties: seq<Property>, name: string): Option<string> {
    if properties == [] then None
    else if properties[|properties| - 1].name == name then Some(properties[|properties| - 1].value)
    else LastProperty(properties[..|properties| - 1], name)
  }

  function ScalarOf(typeName: string): Option<ScalarType> {
    if typeName == "string" then Some(StringType)
    else if typeName == "path" then Some(PathType)
    else if typeName == "int" then Some(IntType)
    else if typeName == "float" then Some(FloatType)
    else if typeName == "bool" then Some(BoolType)
    else None
  }

  /** The text of an element that begins with a text, else the empty string. */
  function ParsedValue(children: seq<XmlNode>): string {
    if children != [] && children[0].Text? then children[0].content else ""
  }

  /** The tree of an element; nothing without a type or with an unknown one. */
  function ParsedExpr(x: XmlNode, names: Names): Option<Node>
    requires x.Element?
    decreases x
  {
    match LastProperty(x.properties, names.typeProperty)
    case None => None
    case Some(typeName) =>
      if typeName == "list" then Some(List(ParsedList(x.children, names)))
      else if typeName == "attrs" then Some(Attrset(ParsedAttrset(x.children, names)))
      else if ScalarOf(typeName).Some? then Some(Scalar(ScalarOf(typeName).value, ParsedValue(x.children)))
      else None
  }

  /** The trees of the child elements that have one. */
  function ParsedList(children: seq<XmlNode>, names: Names): seq<Node>
    decreases children
  {
    if children == [] then [] else
    var last := children[|children| - 1];
    ParsedList(children[..|children| - 1], names) +
      (if last.Element? && ParsedExpr(last, names).Some? then [ParsedExpr(last, names).value] else [])
  }

  /** The trees of the child elements that have a name and a tree; a later one replaces an earlier one. */
  function ParsedAttrset(children: seq<XmlNode>, names: Names): map<string, Node>
    decreases children
  {
    if children == [] then map[] else
    var last, rest := children[|children| - 1], ParsedAttrset(children[..|children| - 1], names);
    if last.Element? && LastProperty(last.properties, names.nameProperty).Some? && ParsedExpr(last, names).Some? then
      rest[LastProperty(last.properties, names.nameProperty).value := ParsedExpr(last, names).value]
    else
      rest
  }

  // ----- what the trees are -----

  /** The last property with the given name. */
  ghost predicate LastAt(properties: seq<Property>, name: string, i: nat) {
    && i < |properties| && properties[i].name == name
    && forall j :: i < j < |properties| ==> properties[j].name != name
  }

  lemma {:induction false} LastPropertyIsLast(properties: seq<Property>, name: string)
    ensures LastProperty(properties, name).Some? <==> exists i: nat :: LastAt(properties, name, i)
    ensures forall i: nat :: LastAt(properties, name, i) ==> LastProperty(properties, name) == Some(properties[i].value)
  {
    if properties != [] {
      var rest, last := properties[..|properties| - 1], |properties| - 1;
      if properties[last].name == name {
        assert LastAt(properties, name, last);
      } else {
        LastPropertyIsLast(rest, name);
        forall i: nat ensures LastAt(properties, name, i) <==> LastAt(rest, name, i) {
          if LastAt(rest, name, i) {
            forall j | i < j < |properties| ensures properties[j].name != name {
              assert j < last ==> rest[j].name != name;
            }
          }
          if LastAt(properties, name, i) {
            forall j | i < j < |rest| ensures rest[j].name != name {
              assert properties[j].name != name;
            }
          }
        }
      }
    }
  }

  predicate KnownType(typeName: string) {
    typeName in ["list", "attrs", "string", "path", "int", "float", "bool"]
  }

  /** A scalar of the given type with the text that the element begins with. */
  predicate ScalarOfText(node: Node, kind: ScalarType, children: seq<XmlNode>) {
    && node.Scalar? && node.kind == kind
    && (children != [] && children[0].Text? ==> node.value == children[0].content)
    && (children == [] || !children[0].Text? ==> node.value == "")
  }

  /** The kind of tree that each type stands for. */
  predicate OfType(typeName: string, node: Node, children: seq<XmlNode>) {
    && (typeName == "list" ==> node.List?)
    && (typeName == "attrs" ==> node.Attrset?)
    && (typeName == "string" ==> ScalarOfText(node, StringType, children))
    && (typeName == "path" ==> ScalarOfText(node, PathType, children))
    && (typeName == "int" ==> ScalarOfText(node, IntType, children))
    && (typeName == "float" ==> ScalarOfText(node, FloatType, children))
    && (typeName == "bool" ==> ScalarOfText(node, BoolType, children))
  }

  /** There is a tree exactly when the last type property names a known type, and it is of that type. */
  ghost predicate Understood(x: XmlNode, names: Names, result: Option<Node>)
    requires x.Element?
  {
    && (result.Some? <==> exists i: nat :: LastAt(x.properties, names.typeProperty, i) && KnownType(x.properties[i].value))
    && (forall i: nat :: LastAt(x.properties, names.typeProperty, i) && result.Some? ==>
          OfType(x.properties[i].value, result.value, x.children))
  }

  lemma ParsedIsUnderstood(x: XmlNode, names: Names)
    requires x.Element?
    ensures Understood(x, names, ParsedExpr(x, names))
  {
    LastPropertyIsLast(x.properties, names.typeProperty);
  }

  /** The child at the index is an element that has a tree. */
  predicate TreeAt(children: seq<XmlNode>, names: Names, i: nat) {
    i < |children| && children[i].Element? && ParsedExpr(children[i], names).Some?
  }

  /** The elements are the trees of the children at the given places, which are, in order, all that have one. */
  ghost predicate ListedAt(children: seq<XmlNode>, names: Names, elements: seq<Node>, places: seq<nat>) {
    && |places| == |elements|
    && (forall i, j :: 0 <= i < j < |places| ==> places[i] < places[j])
    && (forall i: nat :: i in places <==> TreeAt(children, names, i))
    && (forall k :: 0 <= k < |places| && TreeAt(children, names, places[k]) ==>
          ParsedExpr(children[places[k]], names) == Some(elements[k]))
  }

  /** One more child, with a tree or without. */
  lemma ListedNext(children: seq<XmlNode>, names: Names, elements: seq<Node>, places: seq<nat>, more: seq<Node>, next: seq<nat>)
    requires children != [] && ListedAt(children[..|children| - 1], names, elements, places)
    requires TreeAt(children, names, |children| - 1) ==>
               && more == elements + [ParsedExpr(children[|children| - 1], names).value]
               && next == places + [|children| - 1]
    requires !TreeAt(children, names, |children| - 1) ==> more == elements && next == places
    ensures ListedAt(children, names, more, next)
  {
    var rest, last := children[..|children| - 1], |children| - 1;
    forall i: nat | i != last ensures TreeAt(children, names, i) <==> TreeAt(rest, names, i) {
      assert i < last ==> children[i] == rest[i];
    }
    forall k | 0 <= k < |places| ensures places[k] < last {
      assert places[k] in places && TreeAt(rest, names, places[k]);
    }
    forall k | 0 <= k < |next| && TreeAt(children, names, next[k])
      ensures ParsedExpr(children[next[k]], names) == Some(more[k])
    {
      if k < |places| {
        assert next[k] == places[k] && more[k] == elements[k] && children[places[k]] == rest[places[k]];
      }
    }
  }

  lemma {:induction false} ListHoldsTrees(children: seq<XmlNode>, names: Names) returns (places: seq<nat>)
    ensures ListedAt(children, names, ParsedList(children, names), places)
    decreases |children|
  {
    places := [];
    if children != [] {
      var rest, last := children[..|children| - 1], |children| - 1;
      var before := ListHoldsTrees(rest, names);
      places := if TreeAt(children, names, last) then before + [last] else before;
      ListedNext(children, names, ParsedList(rest, names), before, ParsedList(children, names), places);
    }
  }

  /** The child at the index is an element that has the name and a tree. */
  ghost predicate NamedAt(children: seq<XmlNode>, names: Names, key: string, i: nat) {
    TreeAt(children, names, i) && LastProperty(children[i].properties, names.nameProperty) == Some(key)
  }

  /** Each name has the tree of the last child with that name that has one. */
  ghost predicate TabledAt(children: seq<XmlNode>, names: Names, table: map<string, Node>) {
    && (forall key :: key in table <==> exists i: nat :: NamedAt(children, names, key, i))
    && (forall key, i: nat :: NamedAt(children, names, key, i) && (forall j: nat :: NamedAt(children, names, key, j) ==> j <= i) ==>
          ParsedExpr(children[i], names) == Some(table[key]))
  }

  lemma NamedEarlier(children: seq<XmlNode>, names: Names, key: string, i: nat)
    requires children != []
    ensures NamedAt(children, names, key, i) <==>
              NamedAt(children[..|children| - 1], names, key, i) || (i == |children| - 1 && NamedAt(children, names, key, i))
  {}

  lemma {:induction false} TableHoldsTrees(children: seq<XmlNode>, names: Names)
    ensures TabledAt(children, names, ParsedAttrset(children, names))
    decreases |children|
  {
    var table := ParsedAttrset(children, names);
    if children != [] {
      var rest, last := children[..|children| - 1], |children| - 1;
      var before := ParsedAttrset(rest, names);
      TableHoldsTrees(rest, names);
      forall key ensures key in table <==> exists i: nat :: NamedAt(children, names, key, i) {
        if i: nat :| NamedAt(children, names, key, i) {
          NamedEarlier(children, names, key, i);
        }
        if key in before {
          var i: nat :| NamedAt(rest, names, key, i);
          NamedEarlier(children, names, key, i);
        }
        if NamedAt(children, names, key, last) {
          assert key in table;
        }
        assert key in table && key !in before ==> NamedAt(children, names, key, last);
      }
      forall key, i: nat | NamedAt(children, names, key, i) && (forall j: nat :: NamedAt(children, names, key, j) ==> j <= i)
        ensures ParsedExpr(children[i], names) == Some(table[key])
      {
        NamedEarlier(children, names, key, i);
        if i < last {
          assert !NamedAt(children, names, key, last);
          forall j: nat | NamedAt(rest, names, key, j) ensures j <= i {
            NamedEarlier(children, names, key, j);
          }
        }
      }
    }
  }

  /** No property of that name is empty: the parser follows a pointer to its content, which an empty one does not have. */
  predicate FilledFor(properties: seq<Property>, name: string) {
    forall i :: 0 <= i < |properties| && properties[i].name == name ==> properties[i].value != ""
  }

  /** Where the parser looks for the type of an element, or for the name of an attribute, it finds no empty property. */
  predicate Filled(x: XmlNode, names: Names)
    decreases x, 0
  {
    x.Element? ==>
      && FilledFor(x.properties, names.typeProperty)
      && (LastProperty(x.properties, names.typeProperty) == Some("list") ==> FilledList(x.children, names))
      && (LastProperty(x.properties, names.typeProperty) == Some("attrs") ==> FilledTable(x.children, names))
  }

  predicate FilledAttribute(x: XmlNode, names: Names)
    decreases x, 1
  {
    x.Element? ==>
      && FilledFor(x.properties, names.nameProperty)
      && (LastProperty(x.properties, names.nameProperty).Some? ==> Filled(x, names))
  }

  predicate FilledList(children: seq<XmlNode>, names: Names)
    decreases children, 0
  {
    children != [] ==> FilledList(children[..|children| - 1], names) && Filled(children[|children| - 1], names)
  }

  predicate FilledTable(children: seq<XmlNode>, names: Names)
    decreases children, 0
  {
    children != [] ==> FilledTable(children[..|children| - 1], names) && FilledAttribute(children[|children| - 1], names)
  }

  lemma {:induction false} FilledListHolds(children: seq<XmlNode>, names: Names, i: nat)
    requires FilledList(children, names) && i < |children|
    ensures Filled(children[i], names)
    decreases |children|
  {
    if i < |children| - 1 {
      FilledListHolds(children[..|children| - 1], names, i);
    }
  }

  lemma {:induction false} FilledTableHolds(children: seq<XmlNode>, names: Names, i: nat)
    requires FilledTable(children, names) && i < |children|
    ensures FilledAttribute(children[i], names)
    decreases |children|
  {
    if i < |children| - 1 {
      FilledTableHolds(children[..|children| - 1], names, i);
    }
  }

  lemma {:induction false} FilledListFrom(children: seq<XmlNode>, names: Names)
    requires forall i :: 0 <= i < |children| ==> Filled(children[i], names)
    ensures FilledList(children, names)
    decreases |children|
  {
    if children != [] {
      FilledListFrom(children[..|children| - 1], names);
    }
  }

  lemma {:induction false} FilledTableFrom(children: seq<XmlNode>, names: Names)
    requires forall i :: 0 <= i < |children| ==> FilledAttribute(children[i], names)
    ensures FilledTable(children, names)
    decreases |children|
  {
    if children != [] {
      FilledTableFrom(children[..|children| - 1], names);
    }
  }

  method FindProperty(x: XmlNode, name: string) returns (result: Option<string>)
    requires x.Element? && FilledFor(x.properties, name)
    ensures result == LastProperty(x.properties, name)
    ensures result.Some? <==> exists i :: 0 <= i < |x.properties| && x.properties[i].name == name
    ensures result.Some? ==> result.value != ""
    ensures forall i: nat :: LastAt(x.properties, name, i) ==> result == Some(x.properties[i].value)
  {
    LastPropertyIsLast(x.properties, name);
    result := None;
    for i := 0 to |x.properties|
      invariant result == LastProperty(x.properties[..i], name)
      invariant result.Some? <==> exists j :: 0 <= j < i && x.properties[j].name == name
      invariant result.Some? ==> result.value != ""
    {
      assert x.properties[..i + 1][..i] == x.properties[..i];
      if x.properties[i].name == name {
        result := Some(x.properties[i].value);
      }
    }
    assert x.properties[..|x.properties|] == x.properties;
  }

  method ParseExpr(x: XmlNode, names: Names) returns (result: Option<Node>)
    requires x.Element? && Filled(x, names)
    ensures result == ParsedExpr(x, names) && Understood(x, names, result)
    decreases x, 1
  {
    ParsedIsUnderstood(x, names);
    var typeName := FindProperty(x, names.typeProperty);
    if typeName.None? {
      return None;
    }
    match typeName.value {
      case "list" =>
        var elements := ParseList(x, names);
        result := Some(List(elements));
      case "attrs" =>
        var attributes := ParseVerboseAttrset(x, names);
        result := Some(Attrset(attributes));
      case other =>
        var kind := ScalarOf(other);
        result := if kind.Some? then Some(Scalar(kind.value, ParsedValue(x.children))) else None;
    }
  }

  method ParseList(x: XmlNode, names: Names) returns (elements: seq<Node>)
    requires x.Element? && FilledList(x.children, names)
    ensures elements == ParsedList(x.children, names)
    ensures exists places :: ListedAt(x.children, names, elements, places)
    decreases x, 0
  {
    ghost var places := ListHoldsTrees(x.children, names);
    elements := [];
    for i := 0 to |x.children|
      invariant elements == ParsedList(x.children[..i], names)
    {
      var child := x.children[i];
      assert x.children[..i + 1][..i] == x.children[..i];
      if child.Element? {
        FilledListHolds(x.children, names, i);
        var value := ParseExpr(child, names);
        if value.Some? {
          elements := elements + [value.value];
        }
      }
    }
    assert x.children[..|x.children|] == x.children;
  }

  method ParseVerboseAttrset(x: XmlNode, names: Names) returns (table: map<string, Node>)
    requires x.Element? && FilledTable(x.children, names)
    ensures table == ParsedAttrset(x.children, names) && TabledAt(x.children, names, table)
    decreases x, 0
  {
    TableHoldsTrees(x.children, names);
    table := map[];
    for i := 0 to |x.children|
      invariant table == ParsedAttrset(x.children[..i], names)
    {
      var child := x.children[i];
      assert x.children[..i + 1][..i] == x.children[..i];
      if child.Element? {
        FilledTableHolds(x.children, names, i);
        var key := FindProperty(child, names.nameProperty);
        if key.Some? {
          var value := ParseExpr(child, names);
          if value.Some? {
            table := table[key.value := value.value];
          }
        }
      }
    }
    assert x.children[..|x.children|] == x.children;
  }
}
