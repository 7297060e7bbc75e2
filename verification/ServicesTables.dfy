/** The union of two services tables, as maps from service keys to services. */
module ServicesTables {
  import opened InterDependencyMappings
  import opened Protocol

  /** Inserts everything from the left table, then what the right table has in addition. */
  method GenerateUnionServicesTable(left: map<string, ManifestService>, right: map<string, ManifestService>)
    returns (r: map<string, ManifestService>)
    ensures r == right + left
  {
    r := map[];
    var todo := left.Keys;
    while todo != {}
      invariant todo <= left.Keys
      invariant forall key :: key in r <==> key in left && key !in todo
      invariant forall key :: key in r ==> r[key] == left[key]
      decreases |todo|
    {
      var key :| key in todo;
      r := r[key := left[key]];
      todo := todo - {key};
    }
    todo := right.Keys;
    while todo != {}
      invariant todo <= right.Keys
      invariant forall key :: key in r <==> key in left || (key in right && key !in todo)
      invariant forall key :: key in r ==> r[key] == if key in left then left[key] else right[key]
      decreases |todo|
    {
      var key :| key in todo;
      if key !in left {
        r := r[key := right[key]];
      }
      todo := todo - {key};
    }
    MergedIsUnion(left, right, r);
  }

  lemma MergedIsUnion(left: map<string, ManifestService>, right: map<string, ManifestService>, r: map<string,
                      ManifestService>)
    requires forall key :: key in r <==> key in left || key in right
    requires forall key :: key in r ==> r[key] == if key in left then left[key] else right[key]
    ensures r == right + left
  {}

  /** The tables agree on the services they share, as they do when keys are hash codes of services. */
  ghost predicate Agree(left: map<string, ManifestService>, right: map<string, ManifestService>) {
    forall key :: key in left && key in right ==> left[key] == right[key]
  }

  /** The union is left-biased, so it is symmetric exactly when the tables agree; then it serves both alike. */
  lemma UnionIsSymmetricExactlyWhenAgreed(left: map<string, ManifestService>, right: map<string, ManifestService>)
    ensures right + left == left + right <==> Agree(left, right)
    ensures Agree(left, right) ==>
              forall key: MappingKey :: key.service in right ==>
                Dependencies(right + left, key) == Dependencies(right, key)
  {
    if right + left == left + right {
      forall key | key in left && key in right ensures left[key] == right[key] {
        assert (right + left)[key] == (left + right)[key];
      }
    }
  }
}
