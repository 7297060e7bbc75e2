/** The total order on mapping keys that every mapping array is sorted and searched by,
    and the binary search over a sorted array of keys. */
module InterDependencyMappings {
  import opened Wrappers

  /** A reference to a service deployed to a container on a machine. */
  datatype MappingKey = MappingKey(service: string, container: string, target: string)

  /** Compares two strings as `xmlStrcmp` does: the first difference decides, a proper prefix comes first. */
  function CompareStrings(l: string, r: string): int {
    if l == [] || r == [] then
      |l| - |r|
    else if l[0] == r[0] then
      CompareStrings(l[1..], r[1..])
    else
      l[0] as int - r[0] as int
  }

  /** Machine first, then container, then service. */
  function CompareKeys(l: MappingKey, r: MappingKey): int {
    var byTarget := CompareStrings(l.target, r.target);
    if byTarget != 0 then
      byTarget
    else
      var byContainer := CompareStrings(l.container, r.container);
      if byContainer != 0 then byContainer else CompareStrings(l.service, r.service)
  }

  lemma {:induction false} CompareStringsIdentity(l: string, r: string)
    ensures CompareStrings(l, r) == 0 <==> l == r
  {
    if l != [] && r != [] && l[0] == r[0] {
      CompareStringsIdentity(l[1..], r[1..]);
      assert l == [l[0]] + l[1..] && r == [r[0]] + r[1..];
    }
  }

  lemma {:induction false} CompareStringsAntisymmetric(l: string, r: string)
    ensures CompareStrings(l, r) == -CompareStrings(r, l)
  {
    if l != [] && r != [] && l[0] == r[0] {
      CompareStringsAntisymmetric(l[1..], r[1..]);
    }
  }

  lemma {:induction false} CompareStringsTransitive(a: string, b: string, c: string)
    requires CompareStrings(a, b) < 0 && CompareStrings(b, c) < 0
    ensures CompareStrings(a, c) < 0
  {
    if a != [] && b != [] && c != [] && a[0] == b[0] == c[0] {
      CompareStringsTransitive(a[1..], b[1..], c[1..]);
    }
  }

  /** The key order is a strict total order: equal only on equal keys, antisymmetric and transitive. */
  lemma CompareKeysTotalOrder(a: MappingKey, b: MappingKey, c: MappingKey)
    ensures CompareKeys(a, b) == 0 <==> a == b
    ensures CompareKeys(a, b) == -CompareKeys(b, a)
    ensures CompareKeys(a, b) < 0 && CompareKeys(b, c) < 0 ==> CompareKeys(a, c) < 0
  {
    CompareStringsIdentity(a.target, b.target);
    CompareStringsIdentity(b.target, c.target);
    CompareStringsIdentity(a.container, b.container);
    CompareStringsIdentity(b.container, c.container);
    CompareStringsIdentity(a.service, b.service);
    CompareStringsAntisymmetric(a.target, b.target);
    CompareStringsAntisymmetric(a.container, b.container);
    CompareStringsAntisymmetric(a.service, b.service);
    if CompareStrings(a.target, b.target) < 0 && CompareStrings(b.target, c.target) < 0 {
      CompareStringsTransitive(a.target, b.target, c.target);
    }
    if CompareStrings(a.container, b.container) < 0 && CompareStrings(b.container, c.container) < 0 {
      CompareStringsTransitive(a.container, b.container, c.container);
    }
    if CompareStrings(a.service, b.service) < 0 && CompareStrings(b.service, c.service) < 0 {
      CompareStringsTransitive(a.service, b.service, c.service);
    }
  }

  /** The strings agree up to an index, where the first ends or has the smaller character. */
  ghost predicate Precedes(l: string, r: string) {
    exists k: nat :: DiffersAt(l, r, k)
  }

  predicate DiffersAt(l: string, r: string, k: nat) {
    && k <= |l| && k < |r| && l[..k] == r[..k]
    && (k == |l| || l[k] < r[k])
  }

  lemma DiffersLater(l: string, r: string, k: nat)
    requires l != [] && r != [] && l[0] == r[0]
    ensures DiffersAt(l, r, k + 1) <==> DiffersAt(l[1..], r[1..], k)
    ensures !DiffersAt(l, r, 0)
  {
    if k < |l| && k < |r| {
      assert l[..k + 1] == [l[0]] + l[1..][..k] && r[..k + 1] == [r[0]] + r[1..][..k];
      assert l[..k + 1][1..] == l[1..][..k] && r[..k + 1][1..] == r[1..][..k];
    }
  }

  lemma DiffersFirst(l: string, r: string, k: nat)
    requires l == [] || r == [] || l[0] != r[0]
    ensures DiffersAt(l, r, k) ==> k == 0
  {
    if 0 < k <= |l| && k < |r| {
      assert l[..k][0] == l[0] && r[..k][0] == r[0];
    }
  }

  /** The first difference decides, and a proper prefix comes first. */
  lemma {:induction false} CompareStringsIsFirstDifference(l: string, r: string)
    ensures CompareStrings(l, r) < 0 <==> Precedes(l, r)
  {
    if l != [] && r != [] && l[0] == r[0] {
      CompareStringsIsFirstDifference(l[1..], r[1..]);
      if k: nat :| DiffersAt(l[1..], r[1..], k) {
        DiffersLater(l, r, k);
      }
      if k: nat :| DiffersAt(l, r, k) {
        DiffersLater(l, r, if k > 0 then k - 1 else 0);
      }
    } else {
      if CompareStrings(l, r) < 0 {
        assert DiffersAt(l, r, 0);
      }
      if k: nat :| DiffersAt(l, r, k) {
        DiffersFirst(l, r, k);
      }
    }
  }

  /** A difference in the machines decides alone, then one in the containers, and last one in the services. */
  lemma MachineThenContainerThenService(l: MappingKey, r: MappingKey)
    ensures l.target != r.target ==> (CompareKeys(l, r) < 0 <==> Precedes(l.target, r.target))
    ensures l.target == r.target && l.container != r.container ==>
              (CompareKeys(l, r) < 0 <==> Precedes(l.container, r.container))
    ensures l.target == r.target && l.container == r.container ==>
              (CompareKeys(l, r) < 0 <==> Precedes(l.service, r.service))
  {
    CompareStringsIdentity(l.target, r.target);
    CompareStringsIdentity(l.container, r.container);
    CompareStringsIsFirstDifference(l.target, r.target);
    CompareStringsIsFirstDifference(l.container, r.container);
    CompareStringsIsFirstDifference(l.service, r.service);
  }

  /** Strictly increasing: sorted and without duplicates. */
  predicate Sorted(keys: seq<MappingKey>) {
    forall i, j :: 0 <= i < j < |keys| ==> CompareKeys(keys[i], keys[j]) < 0
  }

  lemma SortedIsDistinct(keys: seq<MappingKey>, i: nat, j: nat)
    requires Sorted(keys) && i < |keys| && j < |keys| && keys[i] == keys[j]
    ensures i == j
  {
    CompareKeysTotalOrder(keys[i], keys[j], keys[i]);
  }

  /** `bsearch`: halves the interval that can still hold the key. */
  method BinarySearch(keys: seq<MappingKey>, key: MappingKey) returns (found: Option<nat>)
    requires Sorted(keys)
    ensures found.None? ==> key !in keys
    ensures found.Some? ==> found.value < |keys| && keys[found.value] == key
  {
    var low, high := 0, |keys|;
    while low < high
      invariant 0 <= low <= high <= |keys|
      invariant forall i :: 0 <= i < low ==> CompareKeys(keys[i], key) < 0
      invariant forall i :: high <= i < |keys| ==> CompareKeys(keys[i], key) > 0
    {
      var middle := (low + high) / 2;
      var order := CompareKeys(key, keys[middle]);
      CompareKeysTotalOrder(key, keys[middle], key);
      if order < 0 {
        forall i | middle <= i < |keys| ensures CompareKeys(keys[i], key) > 0 {
          CompareKeysTotalOrder(key, keys[middle], keys[i]);
          CompareKeysTotalOrder(key, keys[i], key);
        }
        high := middle;
      } else if order > 0 {
        forall i | 0 <= i <= middle ensures CompareKeys(keys[i], key) < 0 {
          CompareKeysTotalOrder(keys[i], keys[middle], key);
        }
        low := middle + 1;
      } else {
        return Some(middle);
      }
    }
    found := None;
    CompareKeysTotalOrder(key, key, key);
  }

  /** Equal length, and every left key is found on the right by binary search. */
  method CompareInterdependencyMappingArrays(left: seq<MappingKey>, right: seq<MappingKey>) returns (equal: bool)
    requires Sorted(left) && Sorted(right)
    ensures equal <==> left == right
    ensures equal <==> SameKeys(left, right)
  {
    if |left| == |right| {
      for i := 0 to |left|
        invariant forall j :: 0 <= j < i ==> left[j] in right
      {
        var found := BinarySearch(right, left[i]);
        if found.None? {
          return false;
        }
      }
      EqualSizeSubsetIsEqual(left, right);
      return true;
    } else {
      if SameKeys(left, right) {
        SameKeysSameArray(left, right);
      }
      return false;
    }
  }

  ghost predicate SameKeys(left: seq<MappingKey>, right: seq<MappingKey>) {
    forall key :: key in left <==> key in right
  }

  function KeySet(keys: seq<MappingKey>): (r: set<MappingKey>) {
    set key | key in keys
  }

  lemma {:induction false} SortedSize(keys: seq<MappingKey>)
    requires Sorted(keys)
    ensures |KeySet(keys)| == |keys|
  {
    if keys != [] {
      var rest, last := keys[..|keys| - 1], keys[|keys| - 1];
      SortedSize(rest);
      LastIsOutside(keys);
      KeySetAppend(keys);
      assert last !in KeySet(rest);
    }
  }

  lemma KeySetAppend(keys: seq<MappingKey>)
    requires keys != []
    ensures KeySet(keys) == KeySet(keys[..|keys| - 1]) + {keys[|keys| - 1]}
  {
    assert keys == keys[..|keys| - 1] + [keys[|keys| - 1]];
  }

  /** Two sorted arrays with the same keys are the same sequence. */
  lemma {:induction false} SameKeysSameArray(left: seq<MappingKey>, right: seq<MappingKey>)
    requires Sorted(left) && Sorted(right)
    requires SameKeys(left, right)
    ensures left == right
  {
    assert (left == [] || left[0] in left) && (right == [] || right[0] in right);
    if left != [] && right != [] {
      SameLast(left, right);
      SameRest(left, right);
      SameKeysSameArray(left[..|left| - 1], right[..|right| - 1]);
      assert left == left[..|left| - 1] + [left[|left| - 1]];
      assert right == right[..|right| - 1] + [right[|right| - 1]];
    }
  }

  lemma SameRest(left: seq<MappingKey>, right: seq<MappingKey>)
    requires Sorted(left) && Sorted(right) && left != [] && right != []
    requires left[|left| - 1] == right[|right| - 1]
    requires SameKeys(left, right)
    ensures SameKeys(left[..|left| - 1], right[..|right| - 1])
  {
    LastIsOutside(left);
    LastIsOutside(right);
    assert left == left[..|left| - 1] + [left[|left| - 1]];
    assert right == right[..|right| - 1] + [right[|right| - 1]];
    var leftRest, rightRest := left[..|left| - 1], right[..|right| - 1];
    forall key ensures key in leftRest <==> key in rightRest {
      assert key in left <==> key in right;
    }
  }

  lemma SameLast(left: seq<MappingKey>, right: seq<MappingKey>)
    requires Sorted(left) && Sorted(right) && left != [] && right != []
    requires SameKeys(left, right)
    ensures left[|left| - 1] == right[|right| - 1]
  {
    var l, r := left[|left| - 1], right[|right| - 1];
    assert l in left && r in right;
    var i :| 0 <= i < |right| && right[i] == l;
    var j :| 0 <= j < |left| && left[j] == r;
    CompareKeysTotalOrder(l, r, l);
  }

  lemma LastIsOutside(keys: seq<MappingKey>)
    requires Sorted(keys) && keys != []
    ensures keys[|keys| - 1] !in keys[..|keys| - 1]
  {
    var rest := keys[..|keys| - 1];
    if keys[|keys| - 1] in rest {
      var i :| 0 <= i < |rest| && rest[i] == keys[|keys| - 1];
      SortedIsDistinct(keys, i, |keys| - 1);
    }
  }

  /** The pigeonhole step behind the one-sided comparison. */
  lemma EqualSizeSubsetIsEqual(left: seq<MappingKey>, right: seq<MappingKey>)
    requires Sorted(left) && Sorted(right) && |left| == |right|
    requires forall j :: 0 <= j < |left| ==> left[j] in right
    ensures left == right
  {
    SortedSize(left);
    SortedSize(right);
    assert KeySet(left) <= KeySet(right);
    SubsetOfEqualSize(KeySet(left), KeySet(right));
    forall key ensures key in left <==> key in right {
      assert key in KeySet(left) <==> key in KeySet(right);
    }
    SameKeysSameArray(left, right);
  }

  lemma SubsetIsSmaller<T>(small: set<T>, large: set<T>)
    requires small <= large
    ensures |small| <= |large|
  {
    assert large == small + (large - small);
  }

  lemma SubsetOfEqualSize<T>(small: set<T>, large: set<T>)
    requires small <= large && |small| == |large|
    ensures small == large
  {
    assert large == small + (large - small);
    assert |large - small| == 0;
  }
}
