/** Generic expression trees and their deep structural comparison. */
module NixXmlNodes {
  datatype ScalarType = StringType | IntType | FloatType | BoolType | PathType

  /** A value with its type, an array of nodes, or a table from names to nodes. */
  datatype Node =
    | Scalar(kind: ScalarType, value: string)
    | List(elements: seq<Node>)
    | Attrset(attributes: map<string, Node>)

  /** Two trees are compared by type, then by text, by position or by name. */
  method CompareNodes(left: Node, right: Node) returns (equal: bool)
    ensures equal <==> left == right
    decreases left, 1
  {
    match (left, right) {
      case (Scalar(leftKind, leftValue), Scalar(rightKind, rightValue)) =>
        equal := leftKind == rightKind && leftValue == rightValue;
      case (List(_), List(_)) => equal := ComparePtrArrays(left, right);
      case (Attrset(_), Attrset(_)) => equal := CompareHashTables(left, right);
      case _ => equal := false;
    }
  }

  /** Equal length, and equal elements at every index. */
  method ComparePtrArrays(left: Node, right: Node) returns (equal: bool)
    requires left.List? && right.List?
    ensures equal <==> left == right
    decreases left, 0
  {
    if |left.elements| != |right.elements| {
      return false;
    }
    for i := 0 to |left.elements|
      invariant left.elements[..i] == right.elements[..i]
    {
      var same := CompareNodes(left.elements[i], right.elements[i]);
      if !same {
        return false;
      }
    }
    assert left.elements[..|left.elements|] == left.elements && right.elements[..|right.elements|] == right.elements;
    equal := true;
  }

  /** Equal size, and every name of the left table is found in the right one with an equal value. */
  method CompareHashTables(left: Node, right: Node) returns (equal: bool)
    requires left.Attrset? && right.Attrset?
    ensures equal <==> left == right
    decreases left, 0
  {
    var l, r := left.attributes, right.attributes;
    if |l| != |r| {
      return false;
    }
    var todo := l.Keys;
    while todo != {}
      invariant todo <= l.Keys
      invariant forall key :: key in l && key !in todo ==> key in r && l[key] == r[key]
      decreases |todo|
    {
      var key :| key in todo;
      if key !in r {
        return false;
      }
      var same := CompareNodes(l[key], r[key]);
      if !same {
        return false;
      }
      todo := todo - {key};
    }
    IncludedTableOfEqualSize(l, r);
    equal := true;
  }

  /** The pigeonhole step behind the one-sided lookup. */
  lemma IncludedTableOfEqualSize<K, V>(l: map<K, V>, r: map<K, V>)
    requires |l| == |r| && forall key :: key in l ==> key in r && l[key] == r[key]
    ensures l == r
  {
    assert |l.Keys| == |r.Keys| && l.Keys <= r.Keys;
    assert r.Keys == l.Keys + (r.Keys - l.Keys);
    assert |r.Keys - l.Keys| == 0;
    assert l.Keys == r.Keys;
  }
}
