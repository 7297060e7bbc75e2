/** Service mappings as mutable objects, and the set algebra on sorted arrays of them. */
module ServiceMappings {
  import opened Wrappers
  import opened InterDependencyMappings
  import opened Protocol

  class ServiceMapping {
    const service: string
    const container: string
    const target: string
    var status: ServiceMappingStatus

    constructor (service: string, container: string, target: string)
      ensures Key() == MappingKey(service, container, target) && status == Deactivated
    {
      this.service := service;
      this.container := container;
      this.target := target;
      this.status := Deactivated;
    }

    function Key(): MappingKey {
      MappingKey(service, container, target)
    }
  }

  function Keys(mappings: seq<ServiceMapping>): (r: seq<MappingKey>)
    ensures |r| == |mappings| && forall i :: 0 <= i < |mappings| ==> r[i] == mappings[i].Key()
  {
    seq(|mappings|, i requires 0 <= i < |mappings| => mappings[i].Key())
  }

  lemma KeysHold(mappings: seq<ServiceMapping>, key: MappingKey)
    ensures key in Keys(mappings) <==> exists m :: m in mappings && m.Key() == key
  {
    if key in Keys(mappings) {
      var i :| 0 <= i < |mappings| && Keys(mappings)[i] == key;
      assert mappings[i] in mappings;
    }
    forall m | m in mappings && m.Key() == key ensures key in Keys(mappings) {
      var i :| 0 <= i < |mappings| && mappings[i] == m;
      assert Keys(mappings)[i] == key;
    }
  }

  lemma SameKeyIsSame(mappings: seq<ServiceMapping>, l: ServiceMapping, r: ServiceMapping)
    requires Sorted(Keys(mappings)) && l in mappings && r in mappings && l.Key() == r.Key()
    ensures l == r
  {
    var i :| 0 <= i < |mappings| && mappings[i] == l;
    var j :| 0 <= j < |mappings| && mappings[j] == r;
    SortedIsDistinct(Keys(mappings), i, j);
  }

  method FindServiceMapping(mappings: seq<ServiceMapping>, key: MappingKey) returns (found: Option<ServiceMapping>)
    requires Sorted(Keys(mappings))
    ensures found.None? <==> key !in Keys(mappings)
    ensures found.Some? ==> found.value in mappings && found.value.Key() == key
  {
    var index := BinarySearch(Keys(mappings), key);
    if index.None? {
      return None;
    } else {
      return Some(mappings[index.value]);
    }
  }

  /** Equal length, and every left mapping is found on the right: exactly the same keys. */
  method CompareServiceMappingArrays(left: seq<ServiceMapping>, right: seq<ServiceMapping>) returns (equal: bool)
    requires Sorted(Keys(left)) && Sorted(Keys(right))
    ensures equal <==> SameKeys(Keys(left), Keys(right))
    ensures equal <==> Keys(left) == Keys(right)
  {
    if |left| == |right| {
      for i := 0 to |left|
        invariant forall j :: 0 <= j < i ==> Keys(left)[j] in Keys(right)
      {
        var found := FindServiceMapping(right, left[i].Key());
        if found.None? {
          assert Keys(left)[i] in Keys(left);
          return false;
        }
      }
      EqualSizeSubsetIsEqual(Keys(left), Keys(right));
      return true;
    } else {
      if SameKeys(Keys(left), Keys(right)) {
        SameKeysSameArray(Keys(left), Keys(right));
      }
      return false;
    }
  }

  // ----- selecting from a sorted array -----

  /** A sorted selection from the first `i` mappings of an array: those whose keys are, or are not, among others. */
  ghost predicate Selected(from: seq<ServiceMapping>, i: nat, keys: seq<MappingKey>, wanted: bool,
                           r: seq<ServiceMapping>)
    requires i <= |from|
  {
    && Sorted(Keys(r))
    && (forall m :: m in r ==> m in from[..i] && ((m.Key() in keys) == wanted))
    && (forall m :: m in from[..i] && ((m.Key() in keys) == wanted) ==> m in r)
  }

  lemma SelectedNext(from: seq<ServiceMapping>, i: nat, keys: seq<MappingKey>, wanted: bool, r: seq<ServiceMapping>)
    requires Sorted(Keys(from)) && i < |from| && Selected(from, i, keys, wanted, r)
    ensures (from[i].Key() in keys) == wanted ==> Selected(from, i + 1, keys, wanted, r + [from[i]])
    ensures (from[i].Key() in keys) != wanted ==> Selected(from, i + 1, keys, wanted, r)
  {
    assert from[..i + 1] == from[..i] + [from[i]];
    forall j | 0 <= j < |r| ensures CompareKeys(Keys(r)[j], from[i].Key()) < 0 {
      assert r[j] in from[..i];
      var k :| 0 <= k < i && from[k] == r[j];
      assert CompareKeys(Keys(from)[k], Keys(from)[i]) < 0;
    }
    assert Keys(r + [from[i]]) == Keys(r) + [from[i].Key()];
  }

  /** The mappings present in both arrays, taken from the shorter one. */
  method IntersectServiceMappingArrays(left: seq<ServiceMapping>, right: seq<ServiceMapping>)
    returns (r: seq<ServiceMapping>)
    requires Sorted(Keys(left)) && Sorted(Keys(right))
    ensures Sorted(Keys(r))
    ensures forall key :: key in Keys(r) <==> key in Keys(left) && key in Keys(right)
    ensures forall m :: m in r ==> m in (if |left| < |right| then left else right)
  {
    r := [];
    if |left| < |right| {
      for i := 0 to |left|
        invariant Selected(left, i, Keys(right), true, r)
      {
        SelectedNext(left, i, Keys(right), true, r);
        var found := FindServiceMapping(right, left[i].Key());
        if found.Some? {
          r := r + [left[i]];
        }
      }
      SelectedKeys(left, Keys(right), true, r);
    } else {
      for i := 0 to |right|
        invariant Selected(right, i, Keys(left), true, r)
      {
        SelectedNext(right, i, Keys(left), true, r);
        var found := FindServiceMapping(left, right[i].Key());
        if found.Some? {
          r := r + [right[i]];
        }
      }
      SelectedKeys(right, Keys(left), true, r);
    }
  }

  lemma SelectedKeys(from: seq<ServiceMapping>, keys: seq<MappingKey>, wanted: bool, r: seq<ServiceMapping>)
    requires Selected(from, |from|, keys, wanted, r)
    ensures forall m :: m in r <==> m in from && ((m.Key() in keys) == wanted)
    ensures forall key :: key in Keys(r) <==> key in Keys(from) && ((key in keys) == wanted)
  {
    assert from[..|from|] == from;
    forall key ensures key in Keys(r) <==> key in Keys(from) && ((key in keys) == wanted) {
      KeysHold(r, key);
      KeysHold(from, key);
    }
  }

  /** The left mappings that are not in the right array. */
  method SubstractServiceMappingArrays(left: seq<ServiceMapping>, right: seq<ServiceMapping>)
    returns (r: seq<ServiceMapping>)
    requires Sorted(Keys(left)) && Sorted(Keys(right))
    ensures Sorted(Keys(r))
    ensures forall m :: m in r <==> m in left && m.Key() !in Keys(right)
    ensures forall key :: key in Keys(r) <==> key in Keys(left) && key !in Keys(right)
  {
    r := [];
    for i := 0 to |left|
      invariant Selected(left, i, Keys(right), false, r)
    {
      SelectedNext(left, i, Keys(right), false, r);
      var found := FindServiceMapping(right, left[i].Key());
      if found.None? {
        r := r + [left[i]];
      }
    }
    SelectedKeys(left, Keys(right), false, r);
  }

  // ----- sorting -----

  ghost predicate DistinctKeys(mappings: seq<ServiceMapping>) {
    forall i, j :: 0 <= i < j < |mappings| ==> mappings[i].Key() != mappings[j].Key()
  }

  /** Inserts a mapping with a new key into a sorted array. */
  method InsertSorted(sorted: seq<ServiceMapping>, m: ServiceMapping) returns (r: seq<ServiceMapping>)
    requires Sorted(Keys(sorted)) && m.Key() !in Keys(sorted)
    ensures Sorted(Keys(r)) && multiset(r) == multiset(sorted) + multiset{m}
  {
    var i := 0;
    while i < |sorted| && CompareKeys(sorted[i].Key(), m.Key()) < 0
      invariant i <= |sorted|
      invariant forall j :: 0 <= j < i ==> CompareKeys(Keys(sorted)[j], m.Key()) < 0
    {
      i := i + 1;
    }
    assert i < |sorted| ==> Keys(sorted)[i] in Keys(sorted);
    InsertedKeepsSorted(Keys(sorted), i, m.Key());
    r := sorted[..i] + [m] + sorted[i..];
    assert Keys(r) == Keys(sorted)[..i] + [m.Key()] + Keys(sorted)[i..];
    InsertedPermutes(sorted, i, m);
  }

  lemma InsertedKeepsSorted(keys: seq<MappingKey>, i: nat, key: MappingKey)
    requires Sorted(keys) && i <= |keys|
    requires forall j :: 0 <= j < i ==> CompareKeys(keys[j], key) < 0
    requires i < |keys| ==> keys[i] != key && CompareKeys(keys[i], key) >= 0
    ensures Sorted(keys[..i] + [key] + keys[i..])
  {
    forall j | i <= j < |keys| ensures CompareKeys(key, keys[j]) < 0 {
      CompareKeysTotalOrder(key, keys[i], keys[j]);
    }
    var r := keys[..i] + [key] + keys[i..];
    assert forall j :: 0 <= j < |r| ==> r[j] == if j < i then keys[j] else if j == i then key else keys[j - 1];
  }

  lemma InsertedPermutes<T>(s: seq<T>, i: nat, x: T)
    requires i <= |s|
    ensures multiset(s[..i] + [x] + s[i..]) == multiset(s) + multiset{x}
  {
    assert s == s[..i] + s[i..];
  }

  /** The result of `g_ptr_array_sort`: a sorted permutation. */
  method SortServiceMappings(mappings: seq<ServiceMapping>) returns (r: seq<ServiceMapping>)
    requires DistinctKeys(mappings)
    ensures Sorted(Keys(r)) && multiset(r) == multiset(mappings)
  {
    r := [];
    for i := 0 to |mappings|
      invariant Sorted(Keys(r)) && multiset(r) == multiset(mappings[..i])
    {
      assert mappings[..i + 1] == mappings[..i] + [mappings[i]];
      NewKey(mappings, i, r);
      r := InsertSorted(r, mappings[i]);
    }
    assert mappings[..|mappings|] == mappings;
  }

  lemma NewKey(mappings: seq<ServiceMapping>, i: nat, r: seq<ServiceMapping>)
    requires DistinctKeys(mappings) && i < |mappings| && multiset(r) == multiset(mappings[..i])
    ensures mappings[i].Key() !in Keys(r)
  {
    KeysHold(r, mappings[i].Key());
    forall m | m in r ensures m.Key() != mappings[i].Key() {
      assert m in multiset(r);
      assert m in mappings[..i];
    }
  }

  // ----- union -----

  /** Marks all mappings of the previous configuration as activated and appends them. */
  method AppendActivated(left: seq<ServiceMapping>) returns (r: seq<ServiceMapping>)
    modifies left`status
    ensures r == left && forall m :: m in left ==> m.status.Activated?
  {
    r := [];
    for i := 0 to |left|
      invariant r == left[..i]
      invariant forall j :: 0 <= j < i ==> left[j].status.Activated?
    {
      left[i].status := Activated;
      r := r + [left[i]];
    }
  }

  /** Marks a mapping of the new configuration as deactivated and appends it if it is not in the intersection. */
  method AppendIfNew(m: ServiceMapping, intersection: seq<ServiceMapping>, before: seq<ServiceMapping>)
    returns (r: seq<ServiceMapping>)
    requires Sorted(Keys(intersection))
    modifies m`status
    ensures m.status.Deactivated? && r == if m.Key() in Keys(intersection) then before else before + [m]
  {
    m.status := Deactivated;
    var found := FindServiceMapping(intersection, m.Key());
    r := if found.None? then before + [m] else before;
  }

  /** Those of the first `i` mappings that are not in the intersection. */
  function Added(right: seq<ServiceMapping>, i: nat, keys: seq<MappingKey>): seq<ServiceMapping>
    requires i <= |right|
  {
    if i == 0 then []
    else if right[i - 1].Key() in keys then Added(right, i - 1, keys)
    else Added(right, i - 1, keys) + [right[i - 1]]
  }

  lemma {:induction false} AddedIs(right: seq<ServiceMapping>, i: nat, keys: seq<MappingKey>)
    requires Sorted(Keys(right)) && i <= |right|
    ensures Selected(right, i, keys, false, Added(right, i, keys))
    ensures |Added(right, i, keys)| == i - Count(Keys(right)[..i], keys)
  {
    if i > 0 {
      AddedIs(right, i - 1, keys);
      AddedNext(right, i - 1, keys, Added(right, i - 1, keys));
    }
  }

  lemma AddedNext(right: seq<ServiceMapping>, i: nat, keys: seq<MappingKey>, r: seq<ServiceMapping>)
    requires Sorted(Keys(right)) && i < |right| && Selected(right, i, keys, false, r)
    requires |r| == i - Count(Keys(right)[..i], keys)
    ensures var next := if right[i].Key() in keys then r else r + [right[i]];
            Selected(right, i + 1, keys, false, next) && |next| == i + 1 - Count(Keys(right)[..i + 1], keys)
  {
    SelectedNext(right, i, keys, false, r);
    CountNext(Keys(right), i, keys);
  }

  /** What is appended of a sorted array: exactly the mappings outside the intersection, in order. */
  lemma AddedHolds(right: seq<ServiceMapping>, keys: seq<MappingKey>)
    requires Sorted(Keys(right))
    ensures var r := Added(right, |right|, keys);
            && Sorted(Keys(r)) && |r| == |right| - Count(Keys(right), keys)
            && (forall m :: m in r <==> m in right && m.Key() !in keys)
  {
    AddedIs(right, |right|, keys);
    SelectedKeys(right, keys, false, Added(right, |right|, keys));
    assert Keys(right)[..|right|] == Keys(right);
  }

  /** Marks all mappings of the new configuration as deactivated and appends those that are not in the intersection. */
  method AppendAdded(right: seq<ServiceMapping>, intersection: seq<ServiceMapping>) returns (r: seq<ServiceMapping>)
    requires Sorted(Keys(intersection))
    modifies right`status
    ensures forall m :: m in right ==> m.status.Deactivated?
    ensures r == Added(right, |right|, Keys(intersection))
  {
    r := [];
    for i := 0 to |right|
      invariant r == Added(right, i, Keys(intersection))
      invariant forall j :: 0 <= j < i ==> right[j].status.Deactivated?
    {
      r := AppendIfNew(right[i], intersection, r);
    }
  }

  /** The previous mappings, marked activated, and the new ones that were not there before, marked deactivated. */
  method UnifyServiceMappingArrays(left: seq<ServiceMapping>, right: seq<ServiceMapping>,
                                   intersection: seq<ServiceMapping>)
    returns (r: seq<ServiceMapping>)
    requires Sorted(Keys(left)) && Sorted(Keys(right)) && Sorted(Keys(intersection))
    requires forall m :: m in left ==> m !in right
    requires forall key :: key in Keys(intersection) <==> key in Keys(left) && key in Keys(right)
    modifies left`status, right`status
    ensures Sorted(Keys(r))
    ensures forall m :: m in r <==> m in left || (m in right && m.Key() !in Keys(left))
    ensures |r| == |left| + |right| - |intersection|
    ensures forall m :: m in left ==> m.status.Activated?
    ensures forall m :: m in right ==> m.status.Deactivated?
  {
    var appended := AppendActivated(left);
    var added := AppendAdded(right, intersection);
    AddedHolds(right, Keys(intersection));
    CountOfPart(Keys(right), Keys(intersection));
    forall m | m in right ensures m.Key() in Keys(right) {
      KeysHold(right, m.Key());
    }
    DistinctUnion(left, added);
    r := SortServiceMappings(appended + added);
    SamePermuted(left + added, r);
  }

  lemma DistinctUnion(left: seq<ServiceMapping>, added: seq<ServiceMapping>)
    requires Sorted(Keys(left)) && Sorted(Keys(added))
    requires forall m :: m in added ==> m.Key() !in Keys(left)
    ensures DistinctKeys(left + added)
  {
    var both := left + added;
    forall i, j | 0 <= i < j < |both| ensures both[i].Key() != both[j].Key() {
      if j < |left| {
        if both[i].Key() == both[j].Key() { SortedIsDistinct(Keys(left), i, j); }
      } else if i < |left| {
        assert Keys(left)[i] in Keys(left) && both[j] in added;
      } else {
        if both[i].Key() == both[j].Key() { SortedIsDistinct(Keys(added), i - |left|, j - |left|); }
      }
    }
  }

  lemma SamePermuted<T>(a: seq<T>, b: seq<T>)
    requires multiset(a) == multiset(b)
    ensures |a| == |b| && forall x :: x in a <==> x in b
  {
    assert |a| == |multiset(a)| && |b| == |multiset(b)|;
    forall x ensures x in a <==> x in b {
      assert x in a <==> x in multiset(a);
      assert x in b <==> x in multiset(b);
    }
  }

  function Count(keys: seq<MappingKey>, among: seq<MappingKey>): nat {
    if keys == [] then 0 else
    Count(keys[..|keys| - 1], among) + (if keys[|keys| - 1] in among then 1 else 0)
  }

  lemma CountNext(keys: seq<MappingKey>, i: nat, among: seq<MappingKey>)
    requires i < |keys|
    ensures Count(keys[..i + 1], among) == Count(keys[..i], among) + (if keys[i] in among then 1 else 0)
  {
    assert keys[..i + 1][..i] == keys[..i];
  }

  function Among(keys: seq<MappingKey>, among: seq<MappingKey>): set<MappingKey> {
    set key | key in keys && key in among
  }

  lemma {:induction false} CountIsSize(keys: seq<MappingKey>, among: seq<MappingKey>)
    requires Sorted(keys)
    ensures Count(keys, among) == |Among(keys, among)|
  {
    if keys != [] {
      var rest, last := keys[..|keys| - 1], keys[|keys| - 1];
      CountIsSize(rest, among);
      LastIsOutside(keys);
      AmongAppend(rest, last, among);
      assert keys == rest + [last];
    }
  }

  lemma AmongAppend(rest: seq<MappingKey>, last: MappingKey, among: seq<MappingKey>)
    requires last !in rest
    ensures |Among(rest + [last], among)| == |Among(rest, among)| + (if last in among then 1 else 0)
  {
    if last in among {
      assert Among(rest + [last], among) == Among(rest, among) + {last};
    } else {
      assert Among(rest + [last], among) == Among(rest, among);
    }
  }

  /** A sorted array counts every member of a sorted part of it once. */
  lemma CountOfPart(keys: seq<MappingKey>, part: seq<MappingKey>)
    requires Sorted(keys) && Sorted(part) && forall key :: key in part ==> key in keys
    ensures Count(keys, part) == |part|
  {
    CountIsSize(keys, part);
    SortedSize(part);
    assert Among(keys, part) == KeySet(part);
  }
}
