/** The synchronization protocol as pure transitions: each socket event handler
    takes the current store (and, for a reset, the frozen original) and gives
    the new store together with what it emits. The class in server.dfy
    performs the same transitions in place. */
module Protocol {
  import opened Strats

  /** `io.emit` reaches every connected client; `socket.emit` only the sender. */
  datatype Target = Broadcast | ToSender

  /** An event the server emits. On the wire they are named, in order,
      "strategies", "addStrategy", "deleteStrategy", "addMarker",
      "updateMarker", "removeMarker", "resetMarkers", "changeMap",
      "selectStrat" and "toggleMode": each echo carries the name of the
      client event it answers. */
  datatype Event =
    | Strategies(store: Store)
    | StrategyAdded(mapId: string, strat: Strategy)
    | StrategyDeleted(mapId: string, index: nat)
    | MarkerAdded(mapId: string, stratName: string, marker: Marker)
    | MarkerUpdated(mapId: string, stratName: string, index: nat, marker: Marker)
    | MarkerRemoved(mapId: string, stratName: string, markerIndex: nat)
    | MarkersReset(mapId: string, stratName: string, markers: seq<Marker>)
    | MapChanged(mapId: string)
    | StratSelected(mapId: string, index: nat)
    | ModeToggled(isDarkMode: bool)

  datatype Emission = Emission(target: Target, event: Event)

  /** What a handler leaves behind: the new store and the emissions, in order. */
  datatype Outcome = Outcome(store: Store, out: seq<Emission>)

  /** A new connection or an event a client sends, with its payload; the
      constructors after Connect are the client events "loadStrategies",
      "saveStrategies", "addStrategy", ... "toggleMode". */
  datatype Request =
    | Connect
    | LoadStrategies
    | SaveStrategies(newStrats: Store)
    | AddStrategy(mapId: string, strat: Strategy)
    | DeleteStrategy(mapId: string, index: nat)
    | AddMarker(mapId: string, stratName: string, marker: Marker)
    | UpdateMarker(mapId: string, stratName: string, index: nat, marker: Marker)
    | RemoveMarker(mapId: string, stratName: string, markerIndex: nat)
    | ResetMarkers(mapId: string, stratName: string)
    | ChangeMap(mapId: string)
    | SelectStrat(mapId: string, index: nat)
    | ToggleMode(isDarkMode: bool)

  /** The event under which a request is sent on: the same event name with
      the same payload, except that a connection and loadStrategies reply
      with a "strategies" snapshot, and resetMarkers answers with a
      markersReset event for the same map and strategy (which markers it
      carries is stated by OnResetMarkers). */
  predicate Echoes(req: Request, e: Event) {
    match req
    case Connect => e.Strategies?
    case LoadStrategies => e.Strategies?
    case SaveStrategies(newStrats) => e == Strategies(newStrats)
    case AddStrategy(mapId, strat) => e == StrategyAdded(mapId, strat)
    case DeleteStrategy(mapId, index) => e == StrategyDeleted(mapId, index)
    case AddMarker(mapId, stratName, marker) => e == MarkerAdded(mapId, stratName, marker)
    case UpdateMarker(mapId, stratName, index, marker) => e == MarkerUpdated(mapId, stratName, index, marker)
    case RemoveMarker(mapId, stratName, markerIndex) => e == MarkerRemoved(mapId, stratName, markerIndex)
    case ResetMarkers(mapId, stratName) => e.MarkersReset? && e.mapId == mapId && e.stratName == stratName
    case ChangeMap(mapId) => e == MapChanged(mapId)
    case SelectStrat(mapId, index) => e == StratSelected(mapId, index)
    case ToggleMode(isDarkMode) => e == ModeToggled(isDarkMode)
  }

  /** t differs from s at most in the markers of strategy i of map mapId:
      same map keys, other maps equal, same list length, other strategies
      equal, and strategy i keeps its name and description. */
  ghost predicate OnlyMarkersOf(s: Store, t: Store, mapId: string, i: nat) {
    && mapId in s && i < |s[mapId]|
    && t.Keys == s.Keys
    && (forall k :: k in s && k != mapId ==> t[k] == s[k])
    && |t[mapId]| == |s[mapId]|
    && (forall j :: 0 <= j < |s[mapId]| && j != i ==> t[mapId][j] == s[mapId][j])
    && t[mapId][i].name == s[mapId][i].name
    && t[mapId][i].description == s[mapId][i].description
  }

  /** Gives strategy i of map mapId the marker list ms, touching nothing else. */
  function WithMarkers(s: Store, mapId: string, i: nat, ms: seq<Marker>): (t: Store)
    requires mapId in s && i < |s[mapId]|
    ensures OnlyMarkersOf(s, t, mapId, i) && t[mapId][i].markers == ms
  {
    s[mapId := s[mapId][i := s[mapId][i].(markers := ms)]]
  }

  /** `socket.emit("strategies", strats)`, on a new connection and on
      loadStrategies: the sender alone gets the whole current store. */
  function Snapshot(s: Store): (r: Outcome)
    ensures r.store == s
    ensures r.out == [Emission(ToSender, Strategies(s))]
  {
    Outcome(s, [Emission(ToSender, Strategies(s))])
  }

  /** saveStrategies: the sent store replaces the whole store and is broadcast. */
  function OnSaveStrategies(s: Store, newStrats: Store): (r: Outcome)
    ensures r.store == newStrats
    ensures r.out == [Emission(Broadcast, Strategies(newStrats))]
  {
    Outcome(newStrats, [Emission(Broadcast, Strategies(newStrats))])
  }

  /** addStrategy: a missing map key is created with an empty list, the
      strategy is appended, and the request is always broadcast. */
  function OnAddStrategy(s: Store, mapId: string, strat: Strategy): (r: Outcome)
    ensures r.store.Keys == s.Keys + {mapId}
    ensures forall k :: k in s && k != mapId ==> r.store[k] == s[k]
    ensures var before := if mapId in s then s[mapId] else [];
      && |r.store[mapId]| == |before| + 1
      && r.store[mapId][..|before|] == before
      && r.store[mapId][|before|] == strat
    ensures r.out == [Emission(Broadcast, StrategyAdded(mapId, strat))]
  {
    var before := if mapId in s then s[mapId] else [];
    Outcome(s[mapId := before + [strat]], [Emission(Broadcast, StrategyAdded(mapId, strat))])
  }

  /** deleteStrategy: on a present map key, splice(index, 1) (nothing is
      removed past the end), drop the key if the list is now empty, and
      broadcast -- even when the index was out of range. A missing key
      changes nothing and emits nothing. */
  function OnDeleteStrategy(s: Store, mapId: string, index: nat): (r: Outcome)
    ensures mapId !in s ==> r == Outcome(s, [])
    ensures mapId in s ==>
      && r.out == [Emission(Broadcast, StrategyDeleted(mapId, index))]
      && r.store.Keys <= s.Keys
      && (forall k :: k in s && k != mapId ==> k in r.store && r.store[k] == s[k])
      && (mapId in r.store <==> RemoveAt(s[mapId], index) != [])
      && (mapId in r.store ==> r.store[mapId] == RemoveAt(s[mapId], index))
    ensures mapId in s && index < |s[mapId]| ==> mapId in r.store ==> |r.store[mapId]| == |s[mapId]| - 1
    ensures mapId in r.store ==> r.store[mapId] != []
  {
    if mapId in s then
      var rest := RemoveAt(s[mapId], index);
      var t := if rest == [] then s - {mapId} else s[mapId := rest];
      Outcome(t, [Emission(Broadcast, StrategyDeleted(mapId, index))])
    else
      Outcome(s, [])
  }

  /** addMarker: the first strategy of the map with that name gets the marker
      appended and the request is broadcast verbatim; no such strategy, no
      change and no broadcast. */
  function OnAddMarker(s: Store, mapId: string, stratName: string, marker: Marker): (r: Outcome)
    ensures match Lookup(s, mapId, stratName)
      case None => r == Outcome(s, [])
      case Some(i) =>
        var before := s[mapId][i].markers;
        && OnlyMarkersOf(s, r.store, mapId, i)
        && |r.store[mapId][i].markers| == |before| + 1
        && r.store[mapId][i].markers[..|before|] == before
        && r.store[mapId][i].markers[|before|] == marker
        && r.out == [Emission(Broadcast, MarkerAdded(mapId, stratName, marker))]
  {
    match Lookup(s, mapId, stratName)
    case None => Outcome(s, [])
    case Some(i) =>
      Outcome(WithMarkers(s, mapId, i, s[mapId][i].markers + [marker]),
              [Emission(Broadcast, MarkerAdded(mapId, stratName, marker))])
  }

  /** updateMarker: only when the strategy is found and `markers[index]`
      exists, position index is replaced and the request broadcast verbatim. */
  function OnUpdateMarker(s: Store, mapId: string, stratName: string, index: nat, marker: Marker): (r: Outcome)
    ensures match Lookup(s, mapId, stratName)
      case None => r == Outcome(s, [])
      case Some(i) =>
        var before := s[mapId][i].markers;
        if index < |before| then
          && OnlyMarkersOf(s, r.store, mapId, i)
          && |r.store[mapId][i].markers| == |before|
          && r.store[mapId][i].markers[index] == marker
          && (forall j :: 0 <= j < |before| && j != index ==> r.store[mapId][i].markers[j] == before[j])
          && r.out == [Emission(Broadcast, MarkerUpdated(mapId, stratName, index, marker))]
        else
          r == Outcome(s, [])
  {
    match Lookup(s, mapId, stratName)
    case None => Outcome(s, [])
    case Some(i) =>
      var ms := s[mapId][i].markers;
      if index < |ms| then
        Outcome(WithMarkers(s, mapId, i, ms[index := marker]),
                [Emission(Broadcast, MarkerUpdated(mapId, stratName, index, marker))])
      else
        Outcome(s, [])
  }

  /** removeMarker: only when the strategy is found and `markers[markerIndex]`
      exists, that marker is spliced out and the request broadcast verbatim. */
  function OnRemoveMarker(s: Store, mapId: string, stratName: string, markerIndex: nat): (r: Outcome)
    ensures match Lookup(s, mapId, stratName)
      case None => r == Outcome(s, [])
      case Some(i) =>
        var before := s[mapId][i].markers;
        if markerIndex < |before| then
          && OnlyMarkersOf(s, r.store, mapId, i)
          && |r.store[mapId][i].markers| == |before| - 1
          && r.store[mapId][i].markers[..markerIndex] == before[..markerIndex]
          && (forall j :: markerIndex <= j < |before| - 1 ==> r.store[mapId][i].markers[j] == before[j + 1])
          && r.out == [Emission(Broadcast, MarkerRemoved(mapId, stratName, markerIndex))]
        else
          r == Outcome(s, [])
  {
    match Lookup(s, mapId, stratName)
    case None => Outcome(s, [])
    case Some(i) =>
      var ms := s[mapId][i].markers;
      if markerIndex < |ms| then
        Outcome(WithMarkers(s, mapId, i, RemoveAt(ms, markerIndex)),
                [Emission(Broadcast, MarkerRemoved(mapId, stratName, markerIndex))])
      else
        Outcome(s, [])
  }

  /** resetMarkers: when the name is found both in the live store and in the
      frozen original, the live strategy's markers become the original
      strategy's markers, and the broadcast carries those restored markers. */
  function OnResetMarkers(s: Store, original: Store, mapId: string, stratName: string): (r: Outcome)
    ensures match (Lookup(s, mapId, stratName), Lookup(original, mapId, stratName))
      case (Some(i), Some(k)) =>
        && OnlyMarkersOf(s, r.store, mapId, i)
        && r.store[mapId][i].markers == original[mapId][k].markers
        && r.out == [Emission(Broadcast, MarkersReset(mapId, stratName, original[mapId][k].markers))]
      case _ => r == Outcome(s, [])
  {
    match (Lookup(s, mapId, stratName), Lookup(original, mapId, stratName))
    case (Some(i), Some(k)) =>
      var restored := original[mapId][k].markers;
      Outcome(WithMarkers(s, mapId, i, restored), [Emission(Broadcast, MarkersReset(mapId, stratName, restored))])
    case _ => Outcome(s, [])
  }

  /** changeMap: broadcast only; the current map is client state. */
  function OnChangeMap(s: Store, mapId: string): (r: Outcome)
    ensures r.store == s && r.out == [Emission(Broadcast, MapChanged(mapId))]
  {
    Outcome(s, [Emission(Broadcast, MapChanged(mapId))])
  }

  /** selectStrat: broadcast only. */
  function OnSelectStrat(s: Store, mapId: string, index: nat): (r: Outcome)
    ensures r.store == s && r.out == [Emission(Broadcast, StratSelected(mapId, index))]
  {
    Outcome(s, [Emission(Broadcast, StratSelected(mapId, index))])
  }

  /** toggleMode: broadcast only; dark mode is a display preference. */
  function OnToggleMode(s: Store, isDarkMode: bool): (r: Outcome)
    ensures r.store == s && r.out == [Emission(Broadcast, ModeToggled(isDarkMode))]
  {
    Outcome(s, [Emission(Broadcast, ModeToggled(isDarkMode))])
  }

  /** One handled request: the handler the request's event name selects. */
  function Step(s: Store, original: Store, req: Request): (r: Outcome)
    ensures |r.out| <= 1
  {
    match req
    case Connect => Snapshot(s)
    case LoadStrategies => Snapshot(s)
    case SaveStrategies(newStrats) => OnSaveStrategies(s, newStrats)
    case AddStrategy(mapId, strat) => OnAddStrategy(s, mapId, strat)
    case DeleteStrategy(mapId, index) => OnDeleteStrategy(s, mapId, index)
    case AddMarker(mapId, stratName, marker) => OnAddMarker(s, mapId, stratName, marker)
    case UpdateMarker(mapId, stratName, index, marker) => OnUpdateMarker(s, mapId, stratName, index, marker)
    case RemoveMarker(mapId, stratName, markerIndex) => OnRemoveMarker(s, mapId, stratName, markerIndex)
    case ResetMarkers(mapId, stratName) => OnResetMarkers(s, original, mapId, stratName)
    case ChangeMap(mapId) => OnChangeMap(s, mapId)
    case SelectStrat(mapId, index) => OnSelectStrat(s, mapId, index)
    case ToggleMode(isDarkMode) => OnToggleMode(s, isDarkMode)
  }

  /** Requests handled one after another, in the server's order of receipt;
      the emissions are concatenated in the same order, at most one per
      request. */
  function Run(s: Store, original: Store, reqs: seq<Request>): (r: Outcome)
    ensures |r.out| <= |reqs|
    decreases |reqs|
  {
    if reqs == [] then Outcome(s, [])
    else
      var first := Step(s, original, reqs[0]);
      var rest := Run(first.store, original, reqs[1..]);
      Outcome(rest.store, first.out + rest.out)
  }
}
