/** The feature store an image attribute lives in: features with an id and named attribute
    values (null values are `None`), the fid filter, and the attribute update the store
    applies to every feature a filter selects (GeoTools FeatureSource / FeatureStore). */
module Features {
  import opened Wrappers

  datatype Feature = Feature(id: string, attributes: map<string, Option<string>>)

  /** The features an fid filter selects, in store order; a null fid selects none. */
  function Select(features: seq<Feature>, fid: Option<string>): (matches: seq<Feature>)
    ensures |matches| <= |features|
    ensures forall f :: f in matches ==> f in features && fid == Some(f.id)
    ensures forall f :: f in features && fid == Some(f.id) ==> f in matches
  {
    if features == [] then []
    else if fid == Some(features[0].id) then [features[0]] + Select(features[1..], fid)
    else Select(features[1..], fid)
  }

  /** The filter keeps each feature carrying the fid as many times as the store holds it,
      and no other feature. */
  lemma {:induction false} SelectMultiplicity(features: seq<Feature>, fid: Option<string>, f: Feature)
    ensures multiset(Select(features, fid))[f] == if fid == Some(f.id) then multiset(features)[f] else 0
  {
    if features != [] {
      var rest := features[1..];
      SelectMultiplicity(rest, fid, f);
      assert features == [features[0]] + rest;
      assert multiset(features) == multiset{features[0]} + multiset(rest);
      if fid == Some(features[0].id) {
        assert Select(features, fid) == [features[0]] + Select(rest, fid);
        assert multiset(Select(features, fid)) == multiset{features[0]} + multiset(Select(rest, fid));
      } else {
        assert Select(features, fid) == Select(rest, fid);
      }
    }
  }

  /** Feature `i` is the one and only feature carrying its id. */
  ghost predicate OnlyWithId(features: seq<Feature>, i: int) {
    0 <= i < |features| && forall j :: 0 <= j < |features| && features[j].id == features[i].id ==> j == i
  }

  /** Exactly one feature carries `id`. */
  ghost predicate UniqueId(features: seq<Feature>, id: string) {
    exists i :: OnlyWithId(features, i) && features[i].id == id
  }

  /** The filter for `id` selects nothing exactly when no feature carries that id. */
  lemma SelectNone(features: seq<Feature>, id: string)
    ensures Select(features, Some(id)) == [] <==> forall j :: 0 <= j < |features| ==> features[j].id != id
  {
    if Select(features, Some(id)) != [] {
      assert Select(features, Some(id))[0] in Select(features, Some(id));
    }
  }

  /** The filter for `id` selects exactly one feature precisely when exactly one feature
      carries that id, and then it selects that feature. */
  lemma {:induction false} SelectOne(features: seq<Feature>, id: string)
    ensures |Select(features, Some(id))| == 1 <==> UniqueId(features, id)
    ensures forall i :: OnlyWithId(features, i) && features[i].id == id ==>
      Select(features, Some(id)) == [features[i]]
  {
    if features != [] {
      var rest := features[1..];
      SelectOne(rest, id);
      if features[0].id == id {
        assert Select(features, Some(id)) == [features[0]] + Select(rest, Some(id));
        if |Select(features, Some(id))| == 1 {
          SelectNone(rest, id);
          forall j | 0 < j < |features| ensures features[j].id != id {
            assert features[j] == rest[j - 1];
          }
          assert OnlyWithId(features, 0);
        }
        forall i | OnlyWithId(features, i) && features[i].id == id
          ensures Select(features, Some(id)) == [features[i]]
        {
          forall k | 0 <= k < |rest| ensures rest[k].id != id {
            assert features[k + 1] == rest[k];
          }
          SelectNone(rest, id);
        }
      } else {
        assert Select(features, Some(id)) == Select(rest, Some(id));
        forall i | 0 < i < |features| && features[i].id == id
          ensures OnlyWithId(features, i) <==> OnlyWithId(rest, i - 1)
        {
          if OnlyWithId(features, i) {
            forall j | 0 <= j < |rest| && rest[j].id == rest[i - 1].id ensures j == i - 1 {
              assert features[j + 1] == rest[j];
            }
          }
          if OnlyWithId(rest, i - 1) {
            forall j | 0 <= j < |features| && features[j].id == features[i].id ensures j == i {
              if j != 0 { assert rest[j - 1] == features[j]; }
            }
          }
        }
        if UniqueId(features, id) {
          var i :| OnlyWithId(features, i) && features[i].id == id;
          assert i != 0;
          assert OnlyWithId(rest, i - 1) && rest[i - 1].id == id;
        }
        if UniqueId(rest, id) {
          var i :| OnlyWithId(rest, i) && rest[i].id == id;
          assert OnlyWithId(features, i + 1) && features[i + 1].id == id;
        }
      }
    }
  }

  /** Feature `f` with one attribute set to a (non-null) value. */
  function Assign(f: Feature, attr: string, value: string): Feature {
    f.(attributes := f.attributes[attr := Some(value)])
  }

  /** The store after setting `attr` to `value` on every feature the fid filter selects. */
  function ModifyAll(features: seq<Feature>, fid: Option<string>, attr: string, value: string): seq<Feature> {
    seq(|features|, i requires 0 <= i < |features| =>
      if fid == Some(features[i].id) then Assign(features[i], attr, value) else features[i])
  }

  /** Updating through the filter of a feature whose id is unique changes that feature's
      one attribute and nothing else in the store. */
  lemma ModifyOnlyWithId(features: seq<Feature>, i: int, attr: string, value: string)
    requires OnlyWithId(features, i)
    ensures ModifyAll(features, Some(features[i].id), attr, value) == features[i := Assign(features[i], attr, value)]
  {
  }

  /** A feature source; a writable one (a FeatureStore) can update features in place. */
  class FeatureSource {
    var features: seq<Feature>
    const writable: bool

    constructor (features: seq<Feature>, writable: bool)
      ensures this.features == features && this.writable == writable
    {
      this.features := features;
      this.writable := writable;
    }

    /** Sets `attr` to `value` on every feature the fid filter selects. */
    method ModifyFeatures(attr: string, value: string, fid: Option<string>)
      requires writable
      modifies this
      ensures features == ModifyAll(old(features), fid, attr, value)
    {
      features := ModifyAll(features, fid, attr, value);
    }
  }
}
