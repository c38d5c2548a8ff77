/** Routing of output layers: `getActiveRoutes`, `getRoutedMappings` and `getRoutedTimeline`. */
module Routing {
  import opened JsValues
  import opened Decimal

  const LOOKAHEAD_NONE := 0

  datatype RouteType = Reroute | Remap

  /** A partial mapping: only what is present overrides. */
  datatype Remapping = Remapping(
    device: Option<int>, deviceId: Option<string>, lookahead: Option<int>, options: Option<map<string, string>>)

  datatype Mapping = Mapping(device: int, deviceId: string, lookahead: int, options: Option<map<string, string>>)

  datatype Route = Route(
    outputMappedLayer: string, deviceType: Option<int>, remapping: Option<Remapping>, routeType: RouteType)

  /** `mappedLayer` is "" when absent, and then a new layer is inserted. */
  datatype RouteMapping = RouteMapping(mappedLayer: string, route: Route)

  datatype RouteSet = RouteSet(active: bool, exclusivityGroup: string, routes: seq<RouteMapping>)

  datatype Routes = Routes(existing: map<string, seq<Route>>, inserted: seq<Route>)

  // ------------------------------------------------------------------------- active routes

  /** An active set is used unless an earlier active set is in the same exclusivity group. */
  ghost predicate Used(sets: seq<RouteSet>, k: nat)
    requires k < |sets|
  {
    && sets[k].active
    && (sets[k].exclusivityGroup == "" ||
        forall j :: 0 <= j < k ==> !(sets[j].active && sets[j].exclusivityGroup == sets[k].exclusivityGroup))
  }

  /** The mappings that have an output layer. */
  function Usable(ms: seq<RouteMapping>): seq<RouteMapping> {
    if ms == [] then []
    else
      var last := ms[|ms|-1];
      Usable(ms[..|ms|-1]) + if last.route.outputMappedLayer != "" then [last] else []
  }

  /** All usable mappings of the used sets among the first `k`. */
  ghost function UsableIn(sets: seq<RouteSet>, k: nat): seq<RouteMapping>
    requires k <= |sets|
  {
    if k == 0 then []
    else UsableIn(sets, k - 1) + if Used(sets, k - 1) then Usable(sets[k-1].routes) else []
  }

  /** The routes of one layer; those of "" are to be inserted. */
  function RoutesFor(ms: seq<RouteMapping>, layer: string): seq<Route> {
    if ms == [] then []
    else
      var last := ms[|ms|-1];
      RoutesFor(ms[..|ms|-1], layer) + if last.mappedLayer == layer then [last.route] else []
  }

  /** `routes` are the routes of these mappings, and no layer has an empty list. */
  ghost predicate AreRoutesOf(routes: Routes, ms: seq<RouteMapping>) {
    && routes.inserted == RoutesFor(ms, "")
    && "" !in routes.existing
    && forall layer :: layer != "" ==>
         (layer in routes.existing <==> RoutesFor(ms, layer) != []) &&
         (layer in routes.existing ==> routes.existing[layer] == RoutesFor(ms, layer))
  }

  method AddRoute(routes: Routes, m: RouteMapping, ghost ms: seq<RouteMapping>) returns (r: Routes)
    requires AreRoutesOf(routes, ms)
    ensures AreRoutesOf(r, ms + [m])
  {
    assert (ms + [m])[..|ms|] == ms;
    if m.mappedLayer != "" {
      var existing := routes.existing;
      if m.mappedLayer !in existing {
        existing := existing[m.mappedLayer := []];
      }
      r := routes.(existing := existing[m.mappedLayer := existing[m.mappedLayer] + [m.route]]);
    } else {
      r := routes.(inserted := routes.inserted + [m.route]);
    }
  }

  method AddRouteSet(routes: Routes, routeSet: RouteSet, ghost ms: seq<RouteMapping>) returns (r: Routes)
    requires AreRoutesOf(routes, ms)
    ensures AreRoutesOf(r, ms + Usable(routeSet.routes))
  {
    r := routes;
    var all := routeSet.routes;
    assert all[..0] == [] && ms + [] == ms;
    for i := 0 to |all|
      invariant AreRoutesOf(r, ms + Usable(all[..i]))
    {
      assert all[..i + 1][..i] == all[..i];
      if all[i].route.outputMappedLayer != "" {
        r := AddRoute(r, all[i], ms + Usable(all[..i]));
        assert ms + Usable(all[..i]) + [all[i]] == ms + Usable(all[..i + 1]);
      } else {
        assert Usable(all[..i + 1]) == Usable(all[..i]);
      }
    }
    assert all[..|all|] == all;
  }

  /** The exclusivity groups of the active sets among the first `k`. */
  ghost predicate GroupsOf(groups: set<string>, sets: seq<RouteSet>, k: nat)
    requires k <= |sets|
  {
    forall g :: g in groups <==> g != "" && exists j :: 0 <= j < k && sets[j].active && sets[j].exclusivityGroup == g
  }

  method UseRouteSet(sets: seq<RouteSet>, k: nat, groups: set<string>)
    returns (useRoute: bool, exclusivityGroups: set<string>)
    requires k < |sets| && GroupsOf(groups, sets, k)
    ensures useRoute == Used(sets, k) && GroupsOf(exclusivityGroups, sets, k + 1)
  {
    var routeSet := sets[k];
    useRoute, exclusivityGroups := false, groups;
    if routeSet.active {
      useRoute := true;
      if routeSet.exclusivityGroup != "" {
        if routeSet.exclusivityGroup in exclusivityGroups {
          useRoute := false;
        }
        exclusivityGroups := exclusivityGroups + {routeSet.exclusivityGroup};
      }
    }
  }

  lemma {:induction false} UsableInGrows(sets: seq<RouteSet>, k: nat)
    requires k < |sets|
    ensures UsableIn(sets, k + 1) == if Used(sets, k) then UsableIn(sets, k) + Usable(sets[k].routes) else UsableIn(sets, k)
  {
  }

  lemma {:induction false} NoRoutesYet(sets: seq<RouteSet>)
    ensures AreRoutesOf(Routes(map[], []), UsableIn(sets, 0))
  {
  }

  method GetActiveRoutes(routeSets: seq<RouteSet>) returns (routes: Routes)
    ensures AreRoutesOf(routes, UsableIn(routeSets, |routeSets|))
  {
    routes := Routes(map[], []);
    var exclusivityGroups: set<string> := {};
    NoRoutesYet(routeSets);
    ghost var ms := UsableIn(routeSets, 0);
    for k := 0 to |routeSets|
      invariant AreRoutesOf(routes, ms) && ms == UsableIn(routeSets, k) && GroupsOf(exclusivityGroups, routeSets, k)
    {
      var useRoute;
      useRoute, exclusivityGroups := UseRouteSet(routeSets, k, exclusivityGroups);
      UsableInGrows(routeSets, k);
      if useRoute {
        routes := AddRouteSet(routes, routeSets[k], ms);
        ms := ms + Usable(routeSets[k].routes);
      }
    }
  }

  /** Of the sets of an exclusivity group, only the first active one is used. */
  lemma {:induction false} OneSetPerGroup(sets: seq<RouteSet>, j: nat, k: nat)
    requires j < |sets| && k < |sets| && sets[k].exclusivityGroup != "" && Used(sets, k)
    requires sets[j].active && sets[j].exclusivityGroup == sets[k].exclusivityGroup
    ensures k <= j && (Used(sets, j) ==> j == k)
  {
  }

  /** An active set without a group is always used, and of each group with an active set one is used. */
  lemma {:induction false} GroupIsServed(sets: seq<RouteSet>, k: nat)
    requires k < |sets| && sets[k].active
    ensures sets[k].exclusivityGroup == "" ==> Used(sets, k)
    ensures exists j :: 0 <= j <= k && Used(sets, j) && sets[j].exclusivityGroup == sets[k].exclusivityGroup
    decreases k
  {
    if !Used(sets, k) {
      var j :| 0 <= j < k && sets[j].active && sets[j].exclusivityGroup == sets[k].exclusivityGroup;
      GroupIsServed(sets, j);
    }
  }

  /** The usable mappings of two lists, one after the other, and of a single mapping. */
  lemma {:induction false} UsableDistributes(ms: seq<RouteMapping>, more: seq<RouteMapping>, m: RouteMapping)
    ensures Usable(ms + more) == Usable(ms) + Usable(more)
    ensures Usable([m]) == if m.route.outputMappedLayer == "" then [] else [m]
  {
    assert Usable([m]) == Usable([]) + if m.route.outputMappedLayer != "" then [m] else [];
    if more == [] {
      assert ms + more == ms;
    } else {
      UsableDistributes(ms, more[..|more|-1], m);
      assert (ms + more)[..|ms + more| - 1] == ms + more[..|more|-1];
    }
  }

  /** So the usable ones are those with an output layer. */
  lemma {:induction false} UsableOnes(ms: seq<RouteMapping>, m: RouteMapping)
    ensures m in Usable(ms) <==> m in ms && m.route.outputMappedLayer != ""
  {
    if ms != [] {
      UsableOnes(ms[..|ms|-1], m);
      assert ms == ms[..|ms|-1] + [ms[|ms|-1]];
    }
  }

  /** What is routed is exactly what the used sets have an output layer for. */
  lemma {:induction false} UsedSetsAreRouted(sets: seq<RouteSet>, n: nat, m: RouteMapping)
    requires n <= |sets|
    ensures m in UsableIn(sets, n) <==>
              exists k :: 0 <= k < n && Used(sets, k) && m in sets[k].routes && m.route.outputMappedLayer != ""
  {
    if n > 0 {
      UsedSetsAreRouted(sets, n - 1, m);
      UsableOnes(sets[n-1].routes, m);
      UsableInGrows(sets, n - 1);
    }
  }

  /** The routes of a layer are those of the mappings with that layer, in their order. */
  lemma {:induction false} RoutesForDistribute(ms: seq<RouteMapping>, more: seq<RouteMapping>, layer: string, m: RouteMapping)
    ensures RoutesFor(ms + more, layer) == RoutesFor(ms, layer) + RoutesFor(more, layer)
    ensures RoutesFor([m], layer) == if m.mappedLayer == layer then [m.route] else []
  {
    assert RoutesFor([m], layer) == RoutesFor([], layer) + if m.mappedLayer == layer then [m.route] else [];
    if more == [] {
      assert ms + more == ms;
    } else {
      RoutesForDistribute(ms, more[..|more|-1], layer, m);
      assert (ms + more)[..|ms + more| - 1] == ms + more[..|more|-1];
    }
  }

  /** How many routes the given layers have between them. */
  function Landed(ms: seq<RouteMapping>, layers: seq<string>): nat {
    if layers == [] then 0 else |RoutesFor(ms, layers[0])| + Landed(ms, layers[1..])
  }

  lemma {:induction false} LandedGrows(ms: seq<RouteMapping>, m: RouteMapping, layers: seq<string>)
    requires forall x, y :: 0 <= x < y < |layers| ==> layers[x] != layers[y]
    ensures Landed(ms + [m], layers) == Landed(ms, layers) + if m.mappedLayer in layers then 1 else 0
  {
    if layers != [] {
      assert (ms + [m])[..|ms|] == ms;
      LandedGrows(ms, m, layers[1..]);
    }
  }

  /** Every usable mapping lands exactly once: among the routes of one layer, or, with no layer,
      among the inserted ones. */
  lemma {:induction false} MappingsLandOnce(ms: seq<RouteMapping>, layers: seq<string>)
    requires forall x, y :: 0 <= x < y < |layers| ==> layers[x] != layers[y]
    requires forall i :: 0 <= i < |ms| ==> ms[i].mappedLayer in layers
    ensures Landed(ms, layers) == |ms|
  {
    if ms == [] {
      NothingLands(layers);
    } else {
      var front, last := ms[..|ms|-1], ms[|ms|-1];
      assert ms == front + [last];
      MappingsLandOnce(front, layers);
      LandedGrows(front, last, layers);
    }
  }

  lemma {:induction false} NothingLands(layers: seq<string>)
    ensures Landed([], layers) == 0
  {
    if layers != [] {
      NothingLands(layers[1..]);
    }
  }

  // ----------------------------------------------------------------------- routed mappings

  function Spread(m: Mapping, r: Option<Remapping>): Mapping {
    match r
    case None => m
    case Some(r) =>
      Mapping(r.device.GetOr(m.device), r.deviceId.GetOr(m.deviceId), r.lookahead.GetOr(m.lookahead),
              if r.options.Some? then r.options else m.options)
  }

  predicate NamesDevice(route: Route) {
    Truthy(route.deviceType) && route.remapping.Some? && route.remapping.value.deviceId.GetOr("") != ""
  }

  /** A remap route that names a device replaces the mapping, any other route amends it. */
  function RoutedMapping(m: Mapping, route: Route): Mapping {
    if route.routeType == Remap && NamesDevice(route) then
      var r := route.remapping.value;
      Mapping(route.deviceType.value, r.deviceId.value, r.lookahead.GetOr(LOOKAHEAD_NONE), r.options)
    else Spread(m, route.remapping)
  }

  function InsertedMapping(route: Route): Mapping
    requires NamesDevice(route)
  {
    var r := route.remapping.value;
    Spread(Mapping(route.deviceType.value, r.deviceId.value, Or(r.lookahead, LOOKAHEAD_NONE), Some(map[])), route.remapping)
  }

  /** The output after the first `i` routes of an input mapping. */
  function WithRoutes(out: map<string, Mapping>, m: Mapping, routes: seq<Route>, i: nat): map<string, Mapping>
    requires i <= |routes|
  {
    if i == 0 then out
    else WithRoutes(out, m, routes, i - 1)[routes[i-1].outputMappedLayer := RoutedMapping(m, routes[i-1])]
  }

  /** The output after the first `i` input mappings. */
  function WithMappings(entries: seq<(string, Mapping)>, routes: Routes, i: nat): map<string, Mapping>
    requires i <= |entries|
  {
    if i == 0 then map[]
    else
      var out := WithMappings(entries, routes, i - 1);
      var (layer, m) := entries[i-1];
      if layer in routes.existing then WithRoutes(out, m, routes.existing[layer], |routes.existing[layer]|)
      else out[layer := m]
  }

  function WithInserted(out: map<string, Mapping>, inserted: seq<Route>, i: nat): map<string, Mapping>
    requires i <= |inserted|
  {
    if i == 0 then out
    else
      var before, route := WithInserted(out, inserted, i - 1), inserted[i-1];
      if NamesDevice(route) then before[route.outputMappedLayer := InsertedMapping(route)] else before
  }

  function RoutedMappings(entries: seq<(string, Mapping)>, routes: Routes): map<string, Mapping> {
    WithInserted(WithMappings(entries, routes, |entries|), routes.inserted, |routes.inserted|)
  }

  method GetRoutedMappings(inputMappings: seq<(string, Mapping)>, mappingRoutes: Routes)
    returns (outputMappings: map<string, Mapping>)
    ensures outputMappings == RoutedMappings(inputMappings, mappingRoutes)
  {
    outputMappings := map[];
    for i := 0 to |inputMappings|
      invariant outputMappings == WithMappings(inputMappings, mappingRoutes, i)
    {
      var (inputLayer, inputMapping) := inputMappings[i];
      if inputLayer in mappingRoutes.existing {
        var routes := mappingRoutes.existing[inputLayer];
        for k := 0 to |routes|
          invariant outputMappings == WithRoutes(WithMappings(inputMappings, mappingRoutes, i), inputMapping, routes, k)
        {
          outputMappings := outputMappings[routes[k].outputMappedLayer := RoutedMapping(inputMapping, routes[k])];
        }
      } else {
        outputMappings := outputMappings[inputLayer := inputMapping];
      }
    }
    ghost var routed := outputMappings;
    for i := 0 to |mappingRoutes.inserted|
      invariant outputMappings == WithInserted(routed, mappingRoutes.inserted, i)
    {
      var route := mappingRoutes.inserted[i];
      if NamesDevice(route) {
        outputMappings := outputMappings[route.outputMappedLayer := InsertedMapping(route)];
      }
    }
  }

  /** Does the `i`-th input mapping lead to this output layer? */
  predicate LeadsTo(entries: seq<(string, Mapping)>, routes: Routes, i: nat, layer: string)
    requires i < |entries|
  {
    var input := entries[i].0;
    if input in routes.existing
    then exists k :: 0 <= k < |routes.existing[input]| && routes.existing[input][k].outputMappedLayer == layer
    else input == layer
  }

  lemma {:induction false} RoutesKeys(out: map<string, Mapping>, m: Mapping, routes: seq<Route>, i: nat, layer: string)
    requires i <= |routes|
    ensures layer in WithRoutes(out, m, routes, i) <==>
              layer in out || exists k :: 0 <= k < i && routes[k].outputMappedLayer == layer
  {
    if i > 0 {
      RoutesKeys(out, m, routes, i - 1, layer);
    }
  }

  lemma {:induction false} MappingsKeys(entries: seq<(string, Mapping)>, routes: Routes, i: nat, layer: string)
    requires i <= |entries|
    ensures layer in WithMappings(entries, routes, i) <==> exists k :: 0 <= k < i && LeadsTo(entries, routes, k, layer)
  {
    if i > 0 {
      MappingsKeys(entries, routes, i - 1, layer);
      var out := WithMappings(entries, routes, i - 1);
      var (input, m) := entries[i-1];
      if input in routes.existing {
        RoutesKeys(out, m, routes.existing[input], |routes.existing[input]|, layer);
      }
      assert layer in WithMappings(entries, routes, i) <==> layer in out || LeadsTo(entries, routes, i - 1, layer);
    }
  }

  lemma {:induction false} InsertedKeys(out: map<string, Mapping>, inserted: seq<Route>, i: nat, layer: string)
    requires i <= |inserted|
    ensures layer in WithInserted(out, inserted, i) <==>
              layer in out || exists k :: 0 <= k < i && NamesDevice(inserted[k]) && inserted[k].outputMappedLayer == layer
  {
    if i > 0 {
      InsertedKeys(out, inserted, i - 1, layer);
    }
  }

  /** The routed mappings have exactly the layers that some input mapping leads to, and the inserted
      layers that name a device. */
  lemma {:induction false} RoutedMappingsKeys(entries: seq<(string, Mapping)>, routes: Routes, layer: string)
    ensures layer in RoutedMappings(entries, routes) <==>
              || (exists i :: 0 <= i < |entries| && LeadsTo(entries, routes, i, layer))
              || (exists k :: 0 <= k < |routes.inserted| && NamesDevice(routes.inserted[k]) &&
                    routes.inserted[k].outputMappedLayer == layer)
  {
    MappingsKeys(entries, routes, |entries|, layer);
    InsertedKeys(WithMappings(entries, routes, |entries|), routes.inserted, |routes.inserted|, layer);
  }

  // ----------------------------------------------------- which mapping a layer ends up with

  /** `out` is the input mapping, but for what the remapping has. */
  ghost predicate Amends(out: Mapping, m: Mapping, remapping: Remapping) {
    && (if remapping.device.Some? then Some(out.device) == remapping.device else out.device == m.device)
    && (if remapping.deviceId.Some? then Some(out.deviceId) == remapping.deviceId else out.deviceId == m.deviceId)
    && (if remapping.lookahead.Some? then Some(out.lookahead) == remapping.lookahead else out.lookahead == m.lookahead)
    && (if remapping.options.Some? then out.options == remapping.options else out.options == m.options)
  }

  /** `out` is on the device that the route names, and has nothing of any input mapping. */
  ghost predicate Replaces(out: Mapping, route: Route)
    requires NamesDevice(route)
  {
    var remapping := route.remapping.value;
    && Some(out.device) == route.deviceType && Some(out.deviceId) == remapping.deviceId && out.options == remapping.options
    && (if remapping.lookahead.Some? then Some(out.lookahead) == remapping.lookahead else out.lookahead == LOOKAHEAD_NONE)
  }

  /** What a route makes of an input mapping. */
  ghost predicate RoutedRight(out: Mapping, m: Mapping, route: Route) {
    if route.routeType == Remap && NamesDevice(route) then Replaces(out, route)
    else if route.remapping.Some? then Amends(out, m, route.remapping.value)
    else out == m
  }

  /** Route `k` is the last of these to lead to the layer. */
  ghost predicate LastRoute(routes: seq<Route>, k: nat, layer: string) {
    && k < |routes| && routes[k].outputMappedLayer == layer
    && forall l :: k < l < |routes| ==> routes[l].outputMappedLayer != layer
  }

  /** Input mapping `i` is the last to lead to the layer, and nothing is inserted there. */
  ghost predicate LastEntry(entries: seq<(string, Mapping)>, routes: Routes, i: nat, layer: string) {
    && i < |entries| && LeadsTo(entries, routes, i, layer)
    && (forall l :: i < l < |entries| ==> !LeadsTo(entries, routes, l, layer))
    && forall l :: 0 <= l < |routes.inserted| && NamesDevice(routes.inserted[l]) ==>
         routes.inserted[l].outputMappedLayer != layer
  }

  lemma {:induction false} LastRouteWins(out: map<string, Mapping>, m: Mapping, routes: seq<Route>, i: nat, k: nat, layer: string)
    requires k < i <= |routes| && routes[k].outputMappedLayer == layer
    requires forall l :: k < l < i ==> routes[l].outputMappedLayer != layer
    ensures layer in WithRoutes(out, m, routes, i) && RoutedRight(WithRoutes(out, m, routes, i)[layer], m, routes[k])
  {
    if k < i - 1 {
      LastRouteWins(out, m, routes, i - 1, k, layer);
    }
  }

  lemma {:induction false} OtherRoutesKeep(out: map<string, Mapping>, m: Mapping, routes: seq<Route>, i: nat, layer: string)
    requires i <= |routes| && layer in out
    requires forall l :: 0 <= l < i ==> routes[l].outputMappedLayer != layer
    ensures layer in WithRoutes(out, m, routes, i) && WithRoutes(out, m, routes, i)[layer] == out[layer]
  {
    if i > 0 {
      OtherRoutesKeep(out, m, routes, i - 1, layer);
    }
  }

  lemma {:induction false} OtherEntriesKeep(entries: seq<(string, Mapping)>, routes: Routes, i: nat, n: nat, layer: string)
    requires i <= n <= |entries| && layer in WithMappings(entries, routes, i)
    requires forall l :: i <= l < n ==> !LeadsTo(entries, routes, l, layer)
    ensures layer in WithMappings(entries, routes, n)
    ensures WithMappings(entries, routes, n)[layer] == WithMappings(entries, routes, i)[layer]
    decreases n
  {
    if i < n {
      OtherEntriesKeep(entries, routes, i, n - 1, layer);
      var (input, m) := entries[n-1];
      assert !LeadsTo(entries, routes, n - 1, layer);
      if input in routes.existing {
        OtherRoutesKeep(WithMappings(entries, routes, n - 1), m, routes.existing[input], |routes.existing[input]|, layer);
      }
    }
  }

  lemma {:induction false} OtherInsertedKeep(out: map<string, Mapping>, inserted: seq<Route>, k: nat, i: nat, layer: string)
    requires k <= i <= |inserted| && layer in WithInserted(out, inserted, k)
    requires forall l :: k <= l < i && NamesDevice(inserted[l]) ==> inserted[l].outputMappedLayer != layer
    ensures layer in WithInserted(out, inserted, i) && WithInserted(out, inserted, i)[layer] == WithInserted(out, inserted, k)[layer]
    decreases i
  {
    if k < i {
      OtherInsertedKeep(out, inserted, k, i - 1, layer);
    }
  }

  /** A routed layer has the mapping that the last route there makes of the last input mapping that leads there:
      it has what the remapping has, and for the rest what the input mapping had, unless the route names a
      device of its own. */
  lemma {:induction false} RoutedLayerHas(entries: seq<(string, Mapping)>, routes: Routes, i: nat, k: nat, layer: string)
    requires LastEntry(entries, routes, i, layer)
    requires entries[i].0 in routes.existing && LastRoute(routes.existing[entries[i].0], k, layer)
    ensures layer in RoutedMappings(entries, routes)
    ensures RoutedRight(RoutedMappings(entries, routes)[layer], entries[i].1, routes.existing[entries[i].0][k])
  {
    var (input, m) := entries[i];
    LastRouteWins(WithMappings(entries, routes, i), m, routes.existing[input], |routes.existing[input]|, k, layer);
    OtherEntriesKeep(entries, routes, i + 1, |entries|, layer);
    OtherInsertedKeep(WithMappings(entries, routes, |entries|), routes.inserted, 0, |routes.inserted|, layer);
  }

  /** A layer without routes keeps its mapping, if no later input mapping is routed there. */
  lemma {:induction false} UnroutedLayerKeeps(entries: seq<(string, Mapping)>, routes: Routes, i: nat)
    requires i < |entries| && LastEntry(entries, routes, i, entries[i].0) && entries[i].0 !in routes.existing
    ensures entries[i].0 in RoutedMappings(entries, routes)
    ensures RoutedMappings(entries, routes)[entries[i].0] == entries[i].1
  {
    OtherEntriesKeep(entries, routes, i + 1, |entries|, entries[i].0);
    OtherInsertedKeep(WithMappings(entries, routes, |entries|), routes.inserted, 0, |routes.inserted|, entries[i].0);
  }

  /** What is inserted on a layer is there whatever was routed there, and the last inserted route wins: it is
      on the device that the route names, unless the remapping has another type for it, and has no options
      and no lookahead but those of the remapping. */
  lemma {:induction false} InsertedLayerHas(entries: seq<(string, Mapping)>, routes: Routes, k: nat)
    requires k < |routes.inserted| && NamesDevice(routes.inserted[k])
    requires forall l :: k < l < |routes.inserted| && NamesDevice(routes.inserted[l]) ==>
               routes.inserted[l].outputMappedLayer != routes.inserted[k].outputMappedLayer
    ensures var route := routes.inserted[k];
            var remapping, layer := route.remapping.value, route.outputMappedLayer;
            && layer in RoutedMappings(entries, routes)
            && var out := RoutedMappings(entries, routes)[layer];
               && Some(out.device) == (if remapping.device.Some? then remapping.device else route.deviceType)
               && Some(out.deviceId) == remapping.deviceId
               && out.lookahead == (if remapping.lookahead.Some? then remapping.lookahead.value else LOOKAHEAD_NONE)
               && out.options == (if remapping.options.Some? then remapping.options else Some(map[]))
  {
    var out, layer := WithMappings(entries, routes, |entries|), routes.inserted[k].outputMappedLayer;
    assert layer in WithInserted(out, routes.inserted, k + 1);
    OtherInsertedKeep(out, routes.inserted, k + 1, |routes.inserted|, layer);
  }

  /** A route without a device type, or with an empty device id, names no device: then it amends whatever it is
      called, and inserts nothing. */
  lemma {:induction false} NamelessRoute(m: Mapping, route: Route, out: map<string, Mapping>, inserted: seq<Route>)
    requires route.deviceType == None || route.deviceType == Some(0) || route.remapping == None ||
             route.remapping.value.deviceId == None || route.remapping.value.deviceId == Some("")
    ensures RoutedMapping(m, route) == RoutedMapping(m, route.(routeType := Reroute))
    ensures RoutedRight(RoutedMapping(m, route), m, route.(routeType := Reroute))
    ensures WithInserted(out, inserted + [route], |inserted| + 1) == WithInserted(out, inserted, |inserted|)
  {
    SameInserted(out, inserted + [route], inserted, |inserted|);
  }

  lemma {:induction false} SameInserted(out: map<string, Mapping>, a: seq<Route>, b: seq<Route>, i: nat)
    requires i <= |a| && i <= |b| && a[..i] == b[..i]
    ensures WithInserted(out, a, i) == WithInserted(out, b, i)
  {
    if i > 0 {
      assert a[..i][..i-1] == a[..i-1] && b[..i][..i-1] == b[..i-1];
      assert a[i-1] == a[..i][i-1] == b[..i][i-1] == b[i-1];
      SameInserted(out, a, b, i - 1);
    }
  }

  /** The remapping has all in which the two mappings differ. */
  ghost predicate Covers(remapping: Remapping, m: Mapping, n: Mapping) {
    && (remapping.device.Some? || m.device == n.device) && (remapping.deviceId.Some? || m.deviceId == n.deviceId)
    && (remapping.lookahead.Some? || m.lookahead == n.lookahead) && (remapping.options.Some? || m.options == n.options)
  }

  /** Exactly when it makes no difference which mapping is routed: the route names a device of its own, or its
      remapping has all in which they differ. */
  lemma {:induction false} InputMakesNoDifference(m: Mapping, n: Mapping, route: Route)
    ensures RoutedMapping(m, route) == RoutedMapping(n, route) <==>
              || m == n
              || (route.remapping.Some? && Covers(route.remapping.value, m, n))
              || (route.routeType == Remap && NamesDevice(route))
  {
    if route.remapping.Some? && !(route.routeType == Remap && NamesDevice(route)) {
      assert Amends(RoutedMapping(m, route), m, route.remapping.value);
      assert Amends(RoutedMapping(n, route), n, route.remapping.value);
    }
  }

  // ------------------------------------------------------------------------ routed timeline

  /** `lookaheadForLayer` is "" when absent; of the key frames, only the ids are kept. */
  datatype TimelineObj = TimelineObj(
    id: string, layer: string, isLookahead: bool, lookaheadForLayer: string, keyframes: Option<seq<string>>, content: string)

  /** For lookahead objects, `layer` does not point to any real layer. */
  function RealLayer(o: TimelineObj): string {
    if o.isLookahead && o.lookaheadForLayer != "" then o.lookaheadForLayer else o.layer
  }

  /** `updateLookaheadLayer` */
  function UpdateLookaheadLayer(o: TimelineObj): TimelineObj {
    o.(lookaheadForLayer := o.layer, layer := o.layer + "_lookahead")
  }

  /** Ids of further routes are marked with the number of the route. */
  function MarkedId(i: nat, id: string): string {
    if i == 0 then id else "_" + ToDecimal(i) + "_" + id
  }

  function MarkedIds(i: nat, ids: seq<string>): seq<string> {
    seq(|ids|, k requires 0 <= k < |ids| => MarkedId(i, ids[k]))
  }

  function RoutedObj(o: TimelineObj, route: Route, i: nat): TimelineObj {
    var moved := o.(layer := route.outputMappedLayer);
    var updated := if o.isLookahead && o.lookaheadForLayer != "" then UpdateLookaheadLayer(moved) else moved;
    updated.(id := MarkedId(i, o.id),
             keyframes := if o.keyframes.Some? then Some(MarkedIds(i, o.keyframes.value)) else None)
  }

  /** Routing moves an object to the output layer, and a lookahead object to the lookahead layer of it; it is
      otherwise the same object. */
  lemma {:induction false} RoutedObjMoves(o: TimelineObj, route: Route, i: nat)
    ensures var routed := RoutedObj(o, route, i);
            && routed.content == o.content && routed.isLookahead == o.isLookahead
            && (if o.isLookahead && o.lookaheadForLayer != "" then
                  routed.lookaheadForLayer == route.outputMappedLayer && routed.layer == route.outputMappedLayer + "_lookahead"
                else routed.layer == route.outputMappedLayer && routed.lookaheadForLayer == o.lookaheadForLayer)
            && (route.outputMappedLayer != "" ==> RealLayer(routed) == route.outputMappedLayer)
            && (i == 0 ==> routed.id == o.id && routed.keyframes == o.keyframes)
  {
    if i == 0 && o.keyframes.Some? {
      assert MarkedIds(0, o.keyframes.value) == o.keyframes.value;
    }
  }

  /** What becomes of one object: one object per route of its layer, or itself if the layer is not routed. */
  function RoutedOf(o: TimelineObj, routes: Routes): seq<TimelineObj> {
    var layer := RealLayer(o);
    if layer in routes.existing
    then seq(|routes.existing[layer]|, i requires 0 <= i < |routes.existing[layer]| =>
               RoutedObj(o, routes.existing[layer][i], i))
    else [o]
  }

  function RoutedTimeline(objs: seq<TimelineObj>, routes: Routes, n: nat): seq<TimelineObj>
    requires n <= |objs|
  {
    if n == 0 then [] else RoutedTimeline(objs, routes, n - 1) + RoutedOf(objs[n-1], routes)
  }

  method RouteObj(o: TimelineObj, route: Route, i: nat) returns (routed: TimelineObj)
    ensures routed == RoutedObj(o, route, i)
  {
    routed := o.(layer := route.outputMappedLayer);
    if routed.isLookahead && routed.lookaheadForLayer != "" {
      routed := UpdateLookaheadLayer(routed);
    }
    if i > 0 {
      routed := routed.(id := "_" + ToDecimal(i) + "_" + routed.id);
      if routed.keyframes.Some? {
        routed := routed.(keyframes := Some(MarkedIds(i, routed.keyframes.value)));
      }
    } else if routed.keyframes.Some? {
      assert MarkedIds(0, routed.keyframes.value) == routed.keyframes.value;
    }
  }

  method GetRoutedTimeline(inputTimelineObjs: seq<TimelineObj>, mappingRoutes: Routes) returns (output: seq<TimelineObj>)
    ensures output == RoutedTimeline(inputTimelineObjs, mappingRoutes, |inputTimelineObjs|)
  {
    output := [];
    for n := 0 to |inputTimelineObjs|
      invariant output == RoutedTimeline(inputTimelineObjs, mappingRoutes, n)
    {
      var obj := inputTimelineObjs[n];
      var inputLayer := obj.layer;
      if obj.isLookahead && obj.lookaheadForLayer != "" {
        inputLayer := obj.lookaheadForLayer;
      }
      if inputLayer in mappingRoutes.existing {
        var routes := mappingRoutes.existing[inputLayer];
        ghost var all := RoutedOf(obj, mappingRoutes);
        for i := 0 to |routes|
          invariant output == RoutedTimeline(inputTimelineObjs, mappingRoutes, n) + all[..i]
        {
          var routed := RouteObj(obj, routes[i], i);
          output := output + [routed];
          assert all[..i + 1] == all[..i] + [all[i]];
        }
        assert all[..|routes|] == all;
      } else {
        output := output + [obj];
      }
    }
  }

  // ------------------------------------------------------------------------------- the ids

  /** Number and id can be told from an id that has been marked, whatever the ids look like: the number
      ends at the second underscore. */
  lemma {:induction false} MarkedIdIsInjective(i: nat, j: nat, a: string, b: string)
    requires i > 0 && j > 0 && MarkedId(i, a) == MarkedId(j, b)
    ensures i == j && a == b
  {
    var d, e, x, y := ToDecimal(i), ToDecimal(j), MarkedId(i, a), MarkedId(j, b);
    assert x[1 + |d|] == '_' && y[1 + |e|] == '_';
    assert forall k :: 0 <= k < |d| ==> x[1 + k] == d[k];
    assert forall k :: 0 <= k < |e| ==> y[1 + k] == e[k];
    assert |d| == |e|;
    assert d == x[1..1 + |d|] == y[1..1 + |e|] == e;
    DecimalIsInjective(i, j);
    assert a == x[2 + |d|..] == y[2 + |e|..] == b;
  }

  /** Where the objects of the output come from: the index of the object, and that of its route. */
  ghost function Origins(objs: seq<TimelineObj>, routes: Routes, n: nat): seq<(nat, nat)>
    requires n <= |objs|
  {
    if n == 0 then []
    else Origins(objs, routes, n - 1) + seq(|RoutedOf(objs[n-1], routes)|, i requires 0 <= i => (n - 1, i))
  }

  ghost predicate Before(a: (nat, nat), b: (nat, nat)) {
    a.0 < b.0 || (a.0 == b.0 && a.1 < b.1)
  }

  /** Each output object is a routing of its origin, and the origins come in order, without repetition. */
  lemma {:induction false} OutputFollowsOrigins(objs: seq<TimelineObj>, routes: Routes, n: nat)
    requires n <= |objs|
    ensures var out, from := RoutedTimeline(objs, routes, n), Origins(objs, routes, n);
            && |out| == |from|
            && (forall x :: 0 <= x < |out| ==>
                  from[x].0 < n && from[x].1 < |RoutedOf(objs[from[x].0], routes)|
                  && out[x] == RoutedOf(objs[from[x].0], routes)[from[x].1])
            && (forall x, y :: 0 <= x < y < |out| ==> Before(from[x], from[y]))
  {
    if n > 0 {
      OutputFollowsOrigins(objs, routes, n - 1);
    }
  }

  /** Every route of every object, and every unrouted object, has its place in the output. */
  lemma {:induction false} NothingIsLost(objs: seq<TimelineObj>, routes: Routes, n: nat, k: nat, i: nat)
    requires k < n <= |objs| && i < |RoutedOf(objs[k], routes)|
    ensures (k, i) in Origins(objs, routes, n)
  {
    if k < n - 1 {
      NothingIsLost(objs, routes, n - 1, k, i);
    } else {
      var own := seq(|RoutedOf(objs[n-1], routes)|, i requires 0 <= i => (n - 1, i));
      assert own[i] == (k, i);
    }
  }

  ghost predicate DistinctIds(objs: seq<TimelineObj>) {
    forall x, y :: 0 <= x < y < |objs| ==> objs[x].id != objs[y].id
  }

  ghost predicate NoneMarked(objs: seq<TimelineObj>) {
    forall x :: 0 <= x < |objs| ==> objs[x].id == "" || objs[x].id[0] != '_'
  }

  /** Object `k` has the id that the `j`-th of the further routes of object `l` is marked with. */
  ghost predicate Clashes(objs: seq<TimelineObj>, routes: Routes, k: nat, l: nat, j: nat)
    requires k < |objs| && l < |objs|
  {
    0 < j < |RoutedOf(objs[l], routes)| && objs[k].id == MarkedId(j, objs[l].id)
  }

  ghost predicate NothingClashes(objs: seq<TimelineObj>, routes: Routes) {
    forall k, l, j :: 0 <= k < |objs| && 0 <= l < |objs| && 0 < j ==> !Clashes(objs, routes, k, l, j)
  }

  lemma {:induction false} RoutedId(o: TimelineObj, routes: Routes, i: nat)
    requires i < |RoutedOf(o, routes)|
    ensures RoutedOf(o, routes)[i].id == MarkedId(i, o.id)
  {
  }

  /** Two objects of the output have different ids, if no object has an id that another is marked with. */
  lemma {:induction false} OriginsHaveDifferentIds(objs: seq<TimelineObj>, routes: Routes, a: (nat, nat), b: (nat, nat))
    requires DistinctIds(objs) && NothingClashes(objs, routes) && a != b
    requires a.0 < |objs| && a.1 < |RoutedOf(objs[a.0], routes)|
    requires b.0 < |objs| && b.1 < |RoutedOf(objs[b.0], routes)|
    ensures MarkedId(a.1, objs[a.0].id) != MarkedId(b.1, objs[b.0].id)
  {
    var (k, i) := a;
    var (l, j) := b;
    assert j > 0 ==> !Clashes(objs, routes, k, l, j);
    assert i > 0 ==> !Clashes(objs, routes, l, k, i);
    if i > 0 && j > 0 && MarkedId(i, objs[k].id) == MarkedId(j, objs[l].id) {
      MarkedIdIsInjective(i, j, objs[k].id, objs[l].id);
    }
  }

  /** The place in the output of route `i` of object `k`. */
  lemma {:induction false} PlaceInOutput(objs: seq<TimelineObj>, routes: Routes, k: nat, i: nat) returns (x: nat)
    requires k < |objs| && i < |RoutedOf(objs[k], routes)|
    ensures var out := RoutedTimeline(objs, routes, |objs|);
            x < |out| && x < |Origins(objs, routes, |objs|)| && Origins(objs, routes, |objs|)[x] == (k, i)
            && out[x] == RoutedOf(objs[k], routes)[i] && out[x].id == MarkedId(i, objs[k].id)
  {
    OutputFollowsOrigins(objs, routes, |objs|);
    NothingIsLost(objs, routes, |objs|, k, i);
    var from := Origins(objs, routes, |objs|);
    x :| 0 <= x < |from| && from[x] == (k, i);
    RoutedId(objs[k], routes, i);
  }

  lemma {:induction false} ClashesShow(objs: seq<TimelineObj>, routes: Routes, ms: seq<RouteMapping>, k: nat, l: nat, j: nat)
    requires AreRoutesOf(routes, ms) && k < |objs| && l < |objs| && Clashes(objs, routes, k, l, j)
    ensures !DistinctIds(RoutedTimeline(objs, routes, |objs|))
  {
    var layer := RealLayer(objs[k]);
    assert layer in routes.existing ==> RoutesFor(ms, layer) != [];
    var x := PlaceInOutput(objs, routes, k, 0);
    var y := PlaceInOutput(objs, routes, l, j);
    assert x != y;
  }

  /** Distinct ids stay distinct exactly if no object already has an id that routing gives to another. */
  lemma {:induction false} RoutedIdsAreDistinct(objs: seq<TimelineObj>, routes: Routes, ms: seq<RouteMapping>)
    requires DistinctIds(objs) && AreRoutesOf(routes, ms)
    ensures DistinctIds(RoutedTimeline(objs, routes, |objs|)) <==> NothingClashes(objs, routes)
  {
    if NothingClashes(objs, routes) {
      NoClashNoDuplicate(objs, routes);
    } else {
      var k, l, j :| 0 <= k < |objs| && 0 <= l < |objs| && 0 < j && Clashes(objs, routes, k, l, j);
      ClashesShow(objs, routes, ms, k, l, j);
    }
  }

  lemma {:induction false} NoClashNoDuplicate(objs: seq<TimelineObj>, routes: Routes)
    requires DistinctIds(objs) && NothingClashes(objs, routes)
    ensures DistinctIds(RoutedTimeline(objs, routes, |objs|))
  {
    var out, from := RoutedTimeline(objs, routes, |objs|), Origins(objs, routes, |objs|);
    OutputFollowsOrigins(objs, routes, |objs|);
    forall x, y | 0 <= x < y < |out|
      ensures out[x].id != out[y].id
    {
      assert Before(from[x], from[y]);
      RoutedId(objs[from[x].0], routes, from[x].1);
      RoutedId(objs[from[y].0], routes, from[y].1);
      OriginsHaveDifferentIds(objs, routes, from[x], from[y]);
    }
  }

  /** So they do, whatever the routes are, if none begins with an underscore. */
  lemma {:induction false} UnmarkedIdsStayDistinct(objs: seq<TimelineObj>, routes: Routes)
    requires DistinctIds(objs) && NoneMarked(objs)
    ensures DistinctIds(RoutedTimeline(objs, routes, |objs|))
  {
    forall k, l, j | 0 <= k < |objs| && 0 <= l < |objs| && 0 < j
      ensures !Clashes(objs, routes, k, l, j)
    {
      assert MarkedId(j, objs[l].id)[0] == '_';
    }
    NoClashNoDuplicate(objs, routes);
  }

  /** An id that looks marked can clash with one that routing marks. */
  lemma {:induction false} MarkedIdsCollide() returns (objs: seq<TimelineObj>, routes: Routes, ms: seq<RouteMapping>)
    ensures DistinctIds(objs) && AreRoutesOf(routes, ms)
    ensures !DistinctIds(RoutedTimeline(objs, routes, |objs|))
  {
    var o := TimelineObj("a", "layer", false, "", None, "");
    objs := [o, o.(id := "_1_a", layer := "other")];
    var route := Route("out", None, None, Reroute);
    var m := RouteMapping("layer", route);
    ms, routes := [m, m], Routes(map["layer" := [route, route]], []);
    assert ms[..1] == [m] && ms[..1][..0] == [];
    assert RoutesFor([m], "layer") == [] + [route];
    assert forall layer :: RoutesFor(ms, layer) == RoutesFor([m], layer) + if "layer" == layer then [route] else [];
    assert forall layer :: RoutesFor([m], layer) == RoutesFor([], layer) + if "layer" == layer then [route] else [];
    assert ToDecimal(1) == [Digit(1)] == "1";
    assert MarkedId(1, "a") == "_" + "1" + "_" + "a" == "_1_a";
    assert Clashes(objs, routes, 1, 0, 1);
    RoutedIdsAreDistinct(objs, routes, ms);
  }

  // ------------------------------------------------------------------ the ids of key frames

  /** The ids of the key frames of an object. */
  function Frames(o: TimelineObj): seq<string> {
    o.keyframes.GetOr([])
  }

  /** No two key frames, of one object or of two, have the same id. */
  ghost predicate DistinctFrames(objs: seq<TimelineObj>) {
    forall x, y, f, g ::
      0 <= x < |objs| && 0 <= y < |objs| && 0 <= f < |Frames(objs[x])| && 0 <= g < |Frames(objs[y])| ==>
        Frames(objs[x])[f] == Frames(objs[y])[g] ==> x == y && f == g
  }

  /** Key frame `f` of object `k` has the id that the `j`-th of the further routes marks key frame `g` of object `l` with. */
  ghost predicate FramesClash(objs: seq<TimelineObj>, routes: Routes, k: nat, f: nat, l: nat, g: nat, j: nat)
    requires k < |objs| && l < |objs|
  {
    && f < |Frames(objs[k])| && g < |Frames(objs[l])| && 0 < j < |RoutedOf(objs[l], routes)|
    && Frames(objs[k])[f] == MarkedId(j, Frames(objs[l])[g])
  }

  ghost predicate NoFramesClash(objs: seq<TimelineObj>, routes: Routes) {
    forall k: nat, f: nat, l: nat, g: nat, j: nat :: k < |objs| && l < |objs| ==> !FramesClash(objs, routes, k, f, l, g, j)
  }

  lemma {:induction false} RoutedFrames(o: TimelineObj, routes: Routes, i: nat)
    requires i < |RoutedOf(o, routes)|
    ensures |Frames(RoutedOf(o, routes)[i])| == |Frames(o)|
    ensures forall f :: 0 <= f < |Frames(o)| ==> Frames(RoutedOf(o, routes)[i])[f] == MarkedId(i, Frames(o)[f])
  {
  }

  /** Key frames of two places in the output that have the same id are the same key frame. */
  lemma {:induction false} SameFrame(objs: seq<TimelineObj>, routes: Routes, a: (nat, nat), f: nat, b: (nat, nat), g: nat)
    requires DistinctFrames(objs) && NoFramesClash(objs, routes)
    requires a.0 < |objs| && a.1 < |RoutedOf(objs[a.0], routes)| && f < |Frames(objs[a.0])|
    requires b.0 < |objs| && b.1 < |RoutedOf(objs[b.0], routes)| && g < |Frames(objs[b.0])|
    requires MarkedId(a.1, Frames(objs[a.0])[f]) == MarkedId(b.1, Frames(objs[b.0])[g])
    ensures a == b && f == g
  {
    var (k, i) := a;
    var (l, j) := b;
    assert !FramesClash(objs, routes, k, f, l, g, j);
    assert !FramesClash(objs, routes, l, g, k, f, i);
    if i > 0 && j > 0 {
      MarkedIdIsInjective(i, j, Frames(objs[k])[f], Frames(objs[l])[g]);
    }
  }

  lemma {:induction false} NoClashNoDuplicateFrame(objs: seq<TimelineObj>, routes: Routes)
    requires DistinctFrames(objs) && NoFramesClash(objs, routes)
    ensures DistinctFrames(RoutedTimeline(objs, routes, |objs|))
  {
    var out, from := RoutedTimeline(objs, routes, |objs|), Origins(objs, routes, |objs|);
    OutputFollowsOrigins(objs, routes, |objs|);
    forall x, y, f, g | 0 <= x < |out| && 0 <= y < |out| && 0 <= f < |Frames(out[x])| && 0 <= g < |Frames(out[y])| &&
                        Frames(out[x])[f] == Frames(out[y])[g]
      ensures x == y && f == g
    {
      RoutedFrames(objs[from[x].0], routes, from[x].1);
      RoutedFrames(objs[from[y].0], routes, from[y].1);
      assert x < y ==> Before(from[x], from[y]);
      assert y < x ==> Before(from[y], from[x]);
      SameFrame(objs, routes, from[x], f, from[y], g);
    }
  }

  lemma {:induction false} FrameClashesShow(objs: seq<TimelineObj>, routes: Routes, ms: seq<RouteMapping>,
                                            k: nat, f: nat, l: nat, g: nat, j: nat)
    requires AreRoutesOf(routes, ms) && k < |objs| && l < |objs| && FramesClash(objs, routes, k, f, l, g, j)
    ensures !DistinctFrames(RoutedTimeline(objs, routes, |objs|))
  {
    var layer := RealLayer(objs[k]);
    assert layer in routes.existing ==> RoutesFor(ms, layer) != [];
    var x := PlaceInOutput(objs, routes, k, 0);
    var y := PlaceInOutput(objs, routes, l, j);
    var out := RoutedTimeline(objs, routes, |objs|);
    RoutedFrames(objs[k], routes, 0);
    RoutedFrames(objs[l], routes, j);
    assert Frames(out[x])[f] == Frames(out[y])[g] && x != y;
  }

  /** The same for key frames: distinct ids stay distinct exactly if none already is one that routing gives to
      another. */
  lemma {:induction false} RoutedFramesAreDistinct(objs: seq<TimelineObj>, routes: Routes, ms: seq<RouteMapping>)
    requires DistinctFrames(objs) && AreRoutesOf(routes, ms)
    ensures DistinctFrames(RoutedTimeline(objs, routes, |objs|)) <==> NoFramesClash(objs, routes)
  {
    if NoFramesClash(objs, routes) {
      NoClashNoDuplicateFrame(objs, routes);
    } else {
      var k: nat, f: nat, l: nat, g: nat, j: nat :| k < |objs| && l < |objs| && FramesClash(objs, routes, k, f, l, g, j);
      FrameClashesShow(objs, routes, ms, k, f, l, g, j);
    }
  }

  /** With routes as `GetActiveRoutes` builds them, no object disappears: every one is in the output. */
  lemma {:induction false} NoObjectDisappears(objs: seq<TimelineObj>, routes: Routes, ms: seq<RouteMapping>, k: nat)
    requires k < |objs| && AreRoutesOf(routes, ms)
    ensures (k, 0) in Origins(objs, routes, |objs|)
  {
    var layer := RealLayer(objs[k]);
    assert layer in routes.existing ==> RoutesFor(ms, layer) != [];
    NothingIsLost(objs, routes, |objs|, k, 0);
  }

  // ------------------------------------------------------- the timeline and the mappings agree

  ghost predicate HasOutputLayers(routes: Routes) {
    forall layer, i :: layer in routes.existing && 0 <= i < |routes.existing[layer]| ==>
      routes.existing[layer][i].outputMappedLayer != ""
  }

  ghost predicate HasMapping(entries: seq<(string, Mapping)>, layer: string) {
    exists e :: 0 <= e < |entries| && entries[e].0 == layer
  }

  /** If the real layer of an object has a mapping, so has the real layer of all that it is routed to. */
  lemma {:induction false} RoutedObjectsAreMapped(objs: seq<TimelineObj>, entries: seq<(string, Mapping)>,
                                                  routes: Routes, k: nat, i: nat)
    requires k < |objs| && i < |RoutedOf(objs[k], routes)|
    requires HasMapping(entries, RealLayer(objs[k]))
    requires objs[k].isLookahead ==> HasOutputLayers(routes)
    ensures RealLayer(RoutedOf(objs[k], routes)[i]) in RoutedMappings(entries, routes)
  {
    var layer, out := RealLayer(objs[k]), RealLayer(RoutedOf(objs[k], routes)[i]);
    var e :| 0 <= e < |entries| && entries[e].0 == layer;
    if layer in routes.existing {
      assert out == routes.existing[layer][i].outputMappedLayer;
    }
    assert LeadsTo(entries, routes, e, out);
    RoutedMappingsKeys(entries, routes, out);
  }

  lemma {:induction false} OriginOf(objs: seq<TimelineObj>, routes: Routes, o: TimelineObj) returns (k: nat, i: nat)
    requires o in RoutedTimeline(objs, routes, |objs|)
    ensures k < |objs| && i < |RoutedOf(objs[k], routes)| && o == RoutedOf(objs[k], routes)[i]
    ensures o.isLookahead == objs[k].isLookahead
  {
    OutputFollowsOrigins(objs, routes, |objs|);
    var out, from := RoutedTimeline(objs, routes, |objs|), Origins(objs, routes, |objs|);
    var x :| 0 <= x < |out| && out[x] == o;
    k, i := from[x].0, from[x].1;
  }

  /** If every ordinary object's layer has a mapping, then so has every routed ordinary object's; and the
      same for lookahead objects and the layers they look ahead for. */
  lemma {:induction false} TimelineAndMappingsAgree(objs: seq<TimelineObj>, entries: seq<(string, Mapping)>,
                                                    routes: Routes, lookahead: bool)
    requires lookahead ==> HasOutputLayers(routes)
    requires forall k :: 0 <= k < |objs| && objs[k].isLookahead == lookahead ==> HasMapping(entries, RealLayer(objs[k]))
    ensures forall o :: o in RoutedTimeline(objs, routes, |objs|) && o.isLookahead == lookahead ==>
              RealLayer(o) in RoutedMappings(entries, routes)
  {
    forall o | o in RoutedTimeline(objs, routes, |objs|) && o.isLookahead == lookahead
      ensures RealLayer(o) in RoutedMappings(entries, routes)
    {
      var k, i := OriginOf(objs, routes, o);
      RoutedObjectsAreMapped(objs, entries, routes, k, i);
    }
  }

  lemma {:induction false} UsableHaveOutput(ms: seq<RouteMapping>, i: nat)
    requires i < |Usable(ms)|
    ensures Usable(ms)[i].route.outputMappedLayer != ""
  {
    if i < |Usable(ms[..|ms|-1])| {
      UsableHaveOutput(ms[..|ms|-1], i);
    }
  }

  lemma {:induction false} UsableInHaveOutput(sets: seq<RouteSet>, k: nat, i: nat)
    requires k <= |sets| && i < |UsableIn(sets, k)|
    ensures UsableIn(sets, k)[i].route.outputMappedLayer != ""
  {
    var before := |UsableIn(sets, k - 1)|;
    if i < before {
      UsableInHaveOutput(sets, k - 1, i);
    } else {
      UsableHaveOutput(sets[k-1].routes, i - before);
    }
  }

  lemma {:induction false} RoutesForAreOf(ms: seq<RouteMapping>, layer: string, i: nat)
    requires i < |RoutesFor(ms, layer)|
    ensures exists k :: 0 <= k < |ms| && ms[k].mappedLayer == layer && ms[k].route == RoutesFor(ms, layer)[i]
  {
    var front := ms[..|ms|-1];
    if i < |RoutesFor(front, layer)| {
      RoutesForAreOf(front, layer, i);
      var k :| 0 <= k < |front| && front[k].mappedLayer == layer && front[k].route == RoutesFor(front, layer)[i];
      assert ms[k] == front[k];
    } else {
      assert ms[|ms|-1].route == RoutesFor(ms, layer)[i];
    }
  }

  /** The routes that `GetActiveRoutes` builds all have an output layer. */
  lemma {:induction false} ActiveRoutesHaveOutput(sets: seq<RouteSet>, routes: Routes)
    requires AreRoutesOf(routes, UsableIn(sets, |sets|))
    ensures HasOutputLayers(routes)
  {
    var ms := UsableIn(sets, |sets|);
    forall layer, i | layer in routes.existing && 0 <= i < |routes.existing[layer]|
      ensures routes.existing[layer][i].outputMappedLayer != ""
    {
      RoutesForAreOf(ms, layer, i);
      var k :| 0 <= k < |ms| && ms[k].route == RoutesFor(ms, layer)[i];
      UsableInHaveOutput(sets, |sets|, k);
    }
  }
}
