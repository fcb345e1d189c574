/**
 * The disaster view model: one state record, replaced wholesale by each
 * operation, and the read-only queries over it. The network call is the
 * `response` parameter of `LoadDisasters`; the great-circle distance from
 * the user is the `distance` parameter of `UpdateNearbyDisasters`.
 */
module DisasterStore {
  import opened Wrappers
  import opened Seqs
  import opened Gdacs

  datatype DisasterState = DisasterState(
    disasters: seq<Disaster>,
    isLoading: bool,
    error: Option<string>,
    selectedTypes: set<DisasterType>,
    nearbyDisasters: seq<Disaster>)

  const AllTypes: set<DisasterType> :=
    {Earthquake, Tsunami, TropicalCyclone, Flood, Volcano, Wildfire, Drought, UnknownType}

  /** Every type is in `AllTypes`. */
  lemma AllTypesComplete()
    ensures forall t: DisasterType :: t in AllTypes
  {
    forall t: DisasterType ensures t in AllTypes {
      match t
      case Earthquake =>
      case Tsunami =>
      case TropicalCyclone =>
      case Flood =>
      case Volcano =>
      case Wildfire =>
      case Drought =>
      case UnknownType =>
    }
  }

  /** `DisasterState()` with every default. */
  function InitialState(): (s: DisasterState)
    ensures s.disasters == [] && s.nearbyDisasters == []
    ensures !s.isLoading && s.error == None
    ensures forall t: DisasterType :: t in s.selectedTypes
  {
    AllTypesComplete();
    DisasterState([], false, None, AllTypes, [])
  }

  const ProximityThresholdKm: real := 500.0

  const LoadErrorPrefix: string := "Failed to load disasters: "

  /** `response.features.map { it.toDisaster() }`, as a specification. */
  function DisastersOf(features: seq<DisasterFeature>): (ds: seq<Disaster>)
    ensures |ds| == |features|
    ensures forall i :: 0 <= i < |features| ==> ds[i] == DisasterOf(features[i])
  {
    if features == [] then []
    else DisastersOf(features[..|features| - 1]) + [DisasterOf(features[|features| - 1])]
  }

  /** The set with the membership of `t` flipped. */
  function Toggled(s: set<DisasterType>, t: DisasterType): (r: set<DisasterType>)
    ensures t in r <==> t !in s
    ensures forall x :: x != t ==> (x in r <==> x in s)
  {
    if t in s then s - {t} else s + {t}
  }

  /** Toggling the same type twice gives back the selection. */
  lemma ToggleTwice(s: set<DisasterType>, t: DisasterType)
    ensures Toggled(Toggled(s, t), t) == s
  {
  }

  function IsSelected(types: set<DisasterType>): Disaster -> bool {
    (d: Disaster) => d.disasterType in types
  }

  function IsOfType(t: DisasterType): Disaster -> bool {
    (d: Disaster) => d.disasterType == t
  }

  /** `it.severity.displayName == "Severe"`. */
  /** Only the red alert level is shown as "Severe". */
  function IsSevere(): (f: Disaster -> bool)
    ensures forall d :: f(d) <==> d.severity == Red
  {
    (d: Disaster) => d.severity.DisplayName() == "Severe"
  }

  /** Within the proximity threshold, boundary included. */
  function IsNearby(distance: Disaster -> real): (f: Disaster -> bool)
    ensures forall d :: f(d) <==> distance(d) <= ProximityThresholdKm
  {
    (d: Disaster) => distance(d) <= ProximityThresholdKm
  }

  // ---- sortedBy ----

  /** Places `x` after every element whose key is not larger, so equal keys keep their order. */
  function InsertByKey(x: Disaster, s: seq<Disaster>, key: Disaster -> real): (r: seq<Disaster>)
    ensures |r| == |s| + 1
    ensures multiset(r) == multiset(s) + multiset{x}
  {
    if s == [] then [x]
    else if key(x) < key(s[|s| - 1]) then
      assert s == s[..|s| - 1] + [s[|s| - 1]];
      InsertByKey(x, s[..|s| - 1], key) + [s[|s| - 1]]
    else s + [x]
  }

  /** Kotlin's stable `sortedBy`. */
  function SortByKey(s: seq<Disaster>, key: Disaster -> real): (r: seq<Disaster>)
    ensures multiset(r) == multiset(s)
  {
    if s == [] then []
    else
      assert s == s[..|s| - 1] + [s[|s| - 1]];
      InsertByKey(s[|s| - 1], SortByKey(s[..|s| - 1], key), key)
  }

  ghost predicate SortedByKey(s: seq<Disaster>, key: Disaster -> real) {
    forall i, j :: 0 <= i < j < |s| ==> key(s[i]) <= key(s[j])
  }

  /** Inserting below a bound keeps every key below it. */
  lemma {:induction false} InsertByKeyBounded(x: Disaster, s: seq<Disaster>, key: Disaster -> real, b: real)
    requires forall i :: 0 <= i < |s| ==> key(s[i]) <= b
    requires key(x) <= b
    ensures forall i :: 0 <= i < |InsertByKey(x, s, key)| ==> key(InsertByKey(x, s, key)[i]) <= b
  {
    if s != [] && key(x) < key(s[|s| - 1]) {
      InsertByKeyBounded(x, s[..|s| - 1], key, b);
    }
  }

  lemma {:induction false} InsertByKeySorted(x: Disaster, s: seq<Disaster>, key: Disaster -> real)
    requires SortedByKey(s, key)
    ensures SortedByKey(InsertByKey(x, s, key), key)
  {
    if s != [] && key(x) < key(s[|s| - 1]) {
      var init := s[..|s| - 1];
      var last := s[|s| - 1];
      InsertByKeySorted(x, init, key);
      InsertByKeyBounded(x, init, key, key(last));
    }
  }

  lemma {:induction false} SortByKeySorted(s: seq<Disaster>, key: Disaster -> real)
    ensures SortedByKey(SortByKey(s, key), key)
  {
    if s != [] {
      SortByKeySorted(s[..|s| - 1], key);
      InsertByKeySorted(s[|s| - 1], SortByKey(s[..|s| - 1], key), key);
    }
  }

  /** The nearby list: the disasters within the threshold, nearest first.
      It holds exactly the disasters within the threshold, each as often as
      in the source list, and is sorted by distance. */
  function NearbyDisasters(ds: seq<Disaster>, distance: Disaster -> real): (r: seq<Disaster>)
    ensures multiset(r) == multiset(Filter(IsNearby(distance), ds))
  {
    SortByKey(Filter(IsNearby(distance), ds), distance)
  }

  lemma NearbyIsSortedSelection(ds: seq<Disaster>, distance: Disaster -> real)
    ensures SortedByKey(NearbyDisasters(ds, distance), distance)
    ensures forall d :: d in NearbyDisasters(ds, distance) <==> d in ds && distance(d) <= ProximityThresholdKm
  {
    SortByKeySorted(Filter(IsNearby(distance), ds), distance);
    forall d ensures d in NearbyDisasters(ds, distance) <==> d in ds && distance(d) <= ProximityThresholdKm {
      FilterMembership(IsNearby(distance), ds, d);
      assert d in NearbyDisasters(ds, distance) <==> d in multiset(NearbyDisasters(ds, distance));
      assert d in Filter(IsNearby(distance), ds) <==> d in multiset(Filter(IsNearby(distance), ds));
    }
  }

  /** `features.map { it.toDisaster() }`. */
  method MapFeatures(features: seq<DisasterFeature>) returns (disasters: seq<Disaster>)
    ensures disasters == DisastersOf(features)
  {
    disasters := [];
    var i := 0;
    while i < |features|
      invariant 0 <= i <= |features|
      invariant disasters == DisastersOf(features[..i])
    {
      var d := ToDisaster(features[i]);
      assert features[..i + 1][..i] == features[..i];
      disasters := disasters + [d];
      i := i + 1;
    }
    assert features[..i] == features;
  }

  class DisasterViewModel {
    var state: DisasterState
    /** Every value assigned to the state flow, in order. */
    ghost var emitted: seq<DisasterState>

    constructor()
      ensures state == InitialState() && emitted == []
    {
      state := InitialState();
      emitted := [];
    }

    /** `loadDisasters`: the loading state is published first; then either the
        mapped features (`response` is Success) or an empty list and the error
        text built from the exception's message, which may be null. */
    method LoadDisasters(response: Result<seq<DisasterFeature>, Option<string>>)
      modifies this
      ensures var loading := old(state).(isLoading := true, error := None);
        response.Success? ==>
          state == loading.(disasters := DisastersOf(response.value), isLoading := false, error := None)
          && emitted == old(emitted) + [loading, state]
      ensures var loading := old(state).(isLoading := true, error := None);
        response.Failure? ==>
          state == loading.(disasters := [], isLoading := false,
                            error := Some(LoadErrorPrefix + response.error.GetOr("null")))
          && emitted == old(emitted) + [loading, state]
      ensures !state.isLoading
      ensures state.selectedTypes == old(state).selectedTypes
      ensures state.nearbyDisasters == old(state).nearbyDisasters
    {
      state := state.(isLoading := true, error := None);
      emitted := emitted + [state];
      match response {
      case Success(features) =>
        var disasters := MapFeatures(features);
        state := state.(disasters := disasters, isLoading := false, error := None);
      case Failure(message) =>
        state := state.(disasters := [], isLoading := false,
                        error := Some(LoadErrorPrefix + message.GetOr("null")));
      }
      emitted := emitted + [state];
    }

    /** `updateNearbyDisasters`: only the nearby list changes. */
    method UpdateNearbyDisasters(distance: Disaster -> real)
      modifies this
      ensures state == old(state).(nearbyDisasters := NearbyDisasters(old(state).disasters, distance))
      ensures emitted == old(emitted) + [state]
    {
      var nearby := NearbyDisasters(state.disasters, distance);
      state := state.(nearbyDisasters := nearby);
      emitted := emitted + [state];
    }

    /** `toggleDisasterType`: only the selection changes, by exactly `t`. */
    method ToggleDisasterType(t: DisasterType)
      modifies this
      ensures state == old(state).(selectedTypes := Toggled(old(state).selectedTypes, t))
      ensures emitted == old(emitted) + [state]
    {
      var currentTypes := state.selectedTypes;
      if t in currentTypes {
        currentTypes := currentTypes - {t};
      } else {
        currentTypes := currentTypes + {t};
      }
      state := state.(selectedTypes := currentTypes);
      emitted := emitted + [state];
    }

    /** `getFilteredDisasters`: the disasters of a selected type, in order. */
    function FilteredDisasters(): (r: seq<Disaster>)
      reads this
      ensures |r| <= |state.disasters|
      ensures forall i :: 0 <= i < |r| ==> r[i].disasterType in state.selectedTypes
    {
      Filter(IsSelected(state.selectedTypes), state.disasters)
    }

    /** `getDisastersByType`. */
    function DisastersByType(t: DisasterType): (r: seq<Disaster>)
      reads this
      ensures forall i :: 0 <= i < |r| ==> r[i].disasterType == t
    {
      Filter(IsOfType(t), state.disasters)
    }

    /** `getDisasterCount`. */
    function DisasterCount(): (n: nat)
      reads this
      ensures n == |state.disasters|
    {
      |state.disasters|
    }

    /** `getSevereDisasterCount`: the number of red-alert disasters. */
    function SevereDisasterCount(): (n: nat)
      reads this
      ensures n == |Filter(IsSevere(), state.disasters)|
      ensures n > 0 <==> exists i :: 0 <= i < |state.disasters| && state.disasters[i].severity == Red
    {
      CountIsFilterSize(IsSevere(), state.disasters);
      CountPositive(IsSevere(), state.disasters);
      Count(IsSevere(), state.disasters)
    }
  }

  /** The filtered list holds exactly the disasters whose type is selected. */
  lemma FilteredIsExact(ds: seq<Disaster>, types: set<DisasterType>)
    ensures forall d :: d in Filter(IsSelected(types), ds) <==> d in ds && d.disasterType in types
  {
    forall d ensures d in Filter(IsSelected(types), ds) <==> d in ds && d.disasterType in types {
      FilterMembership(IsSelected(types), ds, d);
    }
  }

  /** The per-type list holds exactly the disasters of that type. */
  lemma ByTypeIsExact(ds: seq<Disaster>, t: DisasterType)
    ensures forall d :: d in Filter(IsOfType(t), ds) <==> d in ds && d.disasterType == t
  {
    forall d ensures d in Filter(IsOfType(t), ds) <==> d in ds && d.disasterType == t {
      FilterMembership(IsOfType(t), ds, d);
    }
  }

  /** With every type selected (the initial selection), filtering keeps the whole list. */
  lemma {:induction false} AllSelectedKeepsAll(ds: seq<Disaster>)
    ensures Filter(IsSelected(AllTypes), ds) == ds
  {
    if ds != [] {
      AllTypesComplete();
      assert IsSelected(AllTypes)(ds[0]);
      AllSelectedKeepsAll(ds[1..]);
      assert ds == [ds[0]] + ds[1..];
    }
  }
}
