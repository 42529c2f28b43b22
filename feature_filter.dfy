/**
 * The list logic of the feature-filter context: the fixed catalogue of
 * demos and the updates the provider applies to the list of selected
 * feature ids.  Each update is the expression the provider hands to its
 * state setter, written as a function of the previous list.
 */
module FeatureFilter {

  datatype FeatureId =
    | Signals
    | Zustand
    | ReactContext
    | CustomStore
    | MobxConcurrent
    | TearingComparison
    | Fibonacci
    | ReactDomRender

  datatype Category = StateManagement | Performance | ConcurrentMode | Other

  datatype Feature = Feature(id: FeatureId, name: string, description: string, category: Category)

  /** `AVAILABLE_FEATURES`, in catalogue order. */
  const AvailableFeatures: seq<Feature> := [
    Feature(Signals, "Preact Signals", "Re-render example with Preact Signals", StateManagement),
    Feature(Zustand, "Zustand", "Re-render example with Zustand", StateManagement),
    Feature(ReactContext, "React Context", "Re-render example with React Context", StateManagement),
    Feature(CustomStore, "Custom Store", "Re-render example with Custom Store", StateManagement),
    Feature(MobxConcurrent, "MobX Concurrent", "MobX concurrent mode issues demo", ConcurrentMode),
    Feature(TearingComparison, "Tearing Demo", "Tearing comparison with useSyncExternalStore", ConcurrentMode),
    Feature(Fibonacci, "Fibonacci", "Performance demo with heavy computation", Performance),
    Feature(ReactDomRender, "DOM Render", "Direct DOM manipulation vs React", Other)
  ]

  predicate Distinct<T(==)>(s: seq<T>) {
    forall i, j | 0 <= i < j < |s| :: s[i] != s[j]
  }

  /** `a` is `b` with some elements left out, the rest in their order. */
  predicate IsSubsequence<T(==)>(a: seq<T>, b: seq<T>)
    decreases |b|
  {
    if a == [] then true
    else if b == [] then false
    else (a[0] == b[0] && IsSubsequence(a[1..], b[1..])) || IsSubsequence(a, b[1..])
  }

  /** Leaving elements out of a list without repeats gives a list without repeats. */
  lemma {:induction false} SubsequenceKeepsDistinct<T>(a: seq<T>, b: seq<T>)
    requires IsSubsequence(a, b) && Distinct(b)
    ensures Distinct(a)
    ensures forall x | x in a :: x in b
    decreases |b|
  {
    if a != [] {
      assert Distinct(b[1..]) by {
        forall i, j | 0 <= i < j < |b[1..]| ensures b[1..][i] != b[1..][j] {
          assert b[1..][i] == b[i + 1] && b[1..][j] == b[j + 1];
        }
      }
      if a[0] == b[0] && IsSubsequence(a[1..], b[1..]) {
        SubsequenceKeepsDistinct(a[1..], b[1..]);
        forall i, j | 0 <= i < j < |a| ensures a[i] != a[j] {
          if i == 0 {
            assert a[j] == a[1..][j - 1];
            assert a[j] in b[1..];
            var k :| 0 <= k < |b[1..]| && b[1..][k] == a[j];
            assert b[k + 1] == a[j];
          } else {
            assert a[i] == a[1..][i - 1] && a[j] == a[1..][j - 1];
          }
        }
        forall x | x in a ensures x in b {
          if x != a[0] {
            assert x in a[1..];
          }
        }
      } else {
        SubsequenceKeepsDistinct(a, b[1..]);
      }
    }
  }

  /** `list.includes(featureId)`. */
  function Includes(list: seq<FeatureId>, featureId: FeatureId): (found: bool)
    ensures found <==> featureId in list
  {
    if list == [] then false else list[0] == featureId || Includes(list[1..], featureId)
  }

  /**
   * `removeFeature(featureId)`, the updater `prev.filter(id => id !==
   * featureId)`: drop every occurrence, keep the rest in order; nothing
   * happens when the id is not selected.
   */
  function RemoveFeature(prev: seq<FeatureId>, featureId: FeatureId): (next: seq<FeatureId>)
    ensures featureId !in next
    ensures forall x | x != featureId :: multiset(next)[x] == multiset(prev)[x]
    ensures IsSubsequence(next, prev)
    ensures featureId !in prev ==> next == prev
  {
    if prev == [] then []
    else if prev[0] != featureId then
      var tail := RemoveFeature(prev[1..], featureId);
      assert prev == [prev[0]] + prev[1..];
      assert ([prev[0]] + tail)[1..] == tail;
      [prev[0]] + tail
    else
      assert prev == [prev[0]] + prev[1..];
      RemoveFeature(prev[1..], featureId)
  }

  /** Removing from a concatenation removes from each part. */
  lemma {:induction false} RemoveFeatureAppend(a: seq<FeatureId>, b: seq<FeatureId>, featureId: FeatureId)
    ensures RemoveFeature(a + b, featureId) == RemoveFeature(a, featureId) + RemoveFeature(b, featureId)
    decreases |a|
  {
    if a != [] {
      assert (a + b)[1..] == a[1..] + b;
      RemoveFeatureAppend(a[1..], b, featureId);
    } else {
      assert a + b == b;
    }
  }

  /**
   * `toggleFeature(featureId)`: a selected id is removed (every occurrence
   * of it, by the same filter as `removeFeature`); an unselected one is
   * appended at the end.  Other ids keep
   * their number of occurrences and their order.
   */
  function ToggleFeature(prev: seq<FeatureId>, featureId: FeatureId): (next: seq<FeatureId>)
    ensures featureId in next <==> featureId !in prev
    ensures forall x | x != featureId :: multiset(next)[x] == multiset(prev)[x]
    ensures featureId in prev ==> IsSubsequence(next, prev)
    ensures featureId !in prev ==> |next| == |prev| + 1 && next[..|prev|] == prev && next[|prev|] == featureId
  {
    if Includes(prev, featureId) then RemoveFeature(prev, featureId) else prev + [featureId]
  }

  /** Toggling an unselected id twice gives back the original list. */
  lemma ToggleTwiceRestores(prev: seq<FeatureId>, featureId: FeatureId)
    requires featureId !in prev
    ensures ToggleFeature(ToggleFeature(prev, featureId), featureId) == prev
  {
    RemoveFeatureAppend(prev, [featureId], featureId);
    assert RemoveFeature([featureId], featureId) == [];
  }

  /**
   * Toggling a selected id twice does not restore the list: the id ends up
   * once, at the end.
   */
  lemma ToggleTwiceMovesToEnd(prev: seq<FeatureId>, featureId: FeatureId)
    requires featureId in prev
    ensures ToggleFeature(ToggleFeature(prev, featureId), featureId) == RemoveFeature(prev, featureId) + [featureId]
  {
  }

  /** A selection without repeats stays without repeats under toggle and remove. */
  lemma UpdatesKeepDistinct(prev: seq<FeatureId>, featureId: FeatureId)
    requires Distinct(prev)
    ensures Distinct(RemoveFeature(prev, featureId))
    ensures Distinct(ToggleFeature(prev, featureId))
  {
    SubsequenceKeepsDistinct(RemoveFeature(prev, featureId), prev);
    if featureId !in prev {
      var next := prev + [featureId];
      forall i, j | 0 <= i < j < |next| ensures next[i] != next[j] {
        if j == |prev| {
          assert next[i] == prev[i];
        }
      }
    }
  }

  /** `clearAll()`: nothing is selected afterwards. */
  function ClearAll(): (next: seq<FeatureId>)
    ensures forall featureId :: !IsFeatureSelected(next, featureId)
  {
    []
  }

  /**
   * `selectAll()`: every catalogue id, in catalogue order, once each, so
   * every feature is selected afterwards.
   */
  function SelectAll(): (next: seq<FeatureId>)
    ensures |next| == |AvailableFeatures| == 8
    ensures forall i | 0 <= i < 8 :: next[i] == AvailableFeatures[i].id
    ensures Distinct(next)
    ensures forall featureId :: IsFeatureSelected(next, featureId)
  {
    CatalogueIdsDistinct();
    var ids := CatalogueIds();
    forall featureId ensures IsFeatureSelected(ids, featureId) {
      assert ids[Position(featureId)] == featureId;
    }
    ids
  }

  /** `isFeatureSelected(featureId)`: whether the id occurs in the selection. */
  function IsFeatureSelected(selected: seq<FeatureId>, featureId: FeatureId): (b: bool)
    ensures b <==> exists i | 0 <= i < |selected| :: selected[i] == featureId
  {
    Includes(selected, featureId)
  }

  /** `features.filter(f => selected.includes(f.id))`. */
  function KeepSelected(features: seq<Feature>, selected: seq<FeatureId>): (kept: seq<Feature>)
    ensures IsSubsequence(kept, features)
    ensures forall f :: f in kept <==> f in features && f.id in selected
    ensures forall f :: multiset(kept)[f] == if f.id in selected then multiset(features)[f] else 0
  {
    if features == [] then []
    else
      var tail := KeepSelected(features[1..], selected);
      assert features == [features[0]] + features[1..];
      if Includes(selected, features[0].id) then
        assert ([features[0]] + tail)[1..] == tail;
        [features[0]] + tail
      else
        tail
  }

  /**
   * `getSelectedFeatures()`: exactly the catalogue entries whose id is
   * selected, in catalogue order and each once, however often or in
   * whichever order the ids occur in the selection.
   */
  function GetSelectedFeatures(selected: seq<FeatureId>): (features: seq<Feature>)
    ensures IsSubsequence(features, AvailableFeatures)
    ensures forall f :: f in features <==> f in AvailableFeatures && f.id in selected
    ensures forall i, j | 0 <= i < j < |features| :: features[i].id != features[j].id
  {
    var features := KeepSelected(AvailableFeatures, selected);
    CatalogueIdsDistinct();
    SubsequenceKeepsDistinct(features, AvailableFeatures);
    forall i, j | 0 <= i < j < |features| ensures features[i].id != features[j].id {
      var fi, fj := features[i], features[j];
      assert fi in AvailableFeatures && fj in AvailableFeatures;
      assert fi != fj;
    }
    features
  }

  /** `AVAILABLE_FEATURES.map(f => f.id)`. */
  function CatalogueIds(): (ids: seq<FeatureId>)
    ensures |ids| == |AvailableFeatures|
    ensures forall i | 0 <= i < |ids| :: ids[i] == AvailableFeatures[i].id
  {
    seq(|AvailableFeatures|, i requires 0 <= i < |AvailableFeatures| => AvailableFeatures[i].id)
  }

  /** Where each id stands in the catalogue. */
  function Position(id: FeatureId): nat {
    match id
    case Signals => 0
    case Zustand => 1
    case ReactContext => 2
    case CustomStore => 3
    case MobxConcurrent => 4
    case TearingComparison => 5
    case Fibonacci => 6
    case ReactDomRender => 7
  }

  /** The catalogue ids are all different, so each names exactly one entry. */
  lemma CatalogueIdsDistinct()
    ensures forall id :: Position(id) < |CatalogueIds()| && CatalogueIds()[Position(id)] == id
    ensures Distinct(CatalogueIds())
    ensures Distinct(AvailableFeatures)
    ensures forall f, g | f in AvailableFeatures && g in AvailableFeatures && f.id == g.id :: f == g
  {
    var ids := CatalogueIds();
    assert forall i | 0 <= i < |ids| :: Position(ids[i]) == i;
    forall id ensures Position(id) < |ids| && ids[Position(id)] == id {
      match id
      case Signals =>
      case Zustand =>
      case ReactContext =>
      case CustomStore =>
      case MobxConcurrent =>
      case TearingComparison =>
      case Fibonacci =>
      case ReactDomRender =>
    }
    forall i, j | 0 <= i < j < |AvailableFeatures| ensures AvailableFeatures[i] != AvailableFeatures[j] {
      assert Position(ids[i]) != Position(ids[j]);
    }
    forall f, g | f in AvailableFeatures && g in AvailableFeatures && f.id == g.id ensures f == g {
      var i :| 0 <= i < |AvailableFeatures| && AvailableFeatures[i] == f;
      var j :| 0 <= j < |AvailableFeatures| && AvailableFeatures[j] == g;
      assert Position(ids[i]) == Position(ids[j]);
    }
  }
}
