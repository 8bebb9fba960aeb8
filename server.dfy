/** The server process: one hub owning the live store, the deep copy of the
    seed taken at startup, and the log of everything emitted so far. Each
    socket event handler is a method that updates the store in place and
    appends what it emits; its postcondition ties the new state to the
    matching transition of the Protocol module. */
module Server {
  import opened Strats
  import opened Protocol

  class Hub {
    /** The live store, mutated by every handler. */
    var strats: Store
    /** The copy of the seed data taken at startup; a constant, so no handler
        can change it. */
    const original: Store
    /** Every `io.emit` and `socket.emit` so far, in order. */
    var outbox: seq<Emission>

    constructor ()
      ensures strats == Seed() && original == Seed() && outbox == []
    {
      strats := Seed();
      original := strats;
      outbox := [];
    }

    method Emit(target: Target, event: Event)
      modifies this
      ensures strats == old(strats) && outbox == old(outbox) + [Emission(target, event)]
    {
      outbox := outbox + [Emission(target, event)];
    }

    /** A new connection gets the current store. */
    method Connect()
      modifies this
      ensures strats == old(strats) && outbox == old(outbox) + Snapshot(old(strats)).out
    {
      Emit(ToSender, Strategies(strats));
    }

    method LoadStrategies()
      modifies this
      ensures strats == old(strats) && outbox == old(outbox) + Snapshot(old(strats)).out
    {
      Emit(ToSender, Strategies(strats));
    }

    method SaveStrategies(newStrats: Store)
      modifies this
      ensures var r := OnSaveStrategies(old(strats), newStrats);
        strats == r.store && outbox == old(outbox) + r.out
    {
      strats := newStrats;
      Emit(Broadcast, Strategies(strats));
    }

    method AddStrategy(mapId: string, strat: Strategy)
      modifies this
      ensures var r := OnAddStrategy(old(strats), mapId, strat);
        strats == r.store && outbox == old(outbox) + r.out
    {
      if mapId !in strats {
        strats := strats[mapId := []];
      }
      strats := strats[mapId := strats[mapId] + [strat]];
      Emit(Broadcast, StrategyAdded(mapId, strat));
    }

    method DeleteStrategy(mapId: string, index: nat)
      modifies this
      ensures var r := OnDeleteStrategy(old(strats), mapId, index);
        strats == r.store && outbox == old(outbox) + r.out
    {
      if mapId in strats {
        strats := strats[mapId := RemoveAt(strats[mapId], index)];
        if |strats[mapId]| == 0 {
          strats := strats - {mapId};
        }
        Emit(Broadcast, StrategyDeleted(mapId, index));
      }
    }

    method AddMarker(mapId: string, stratName: string, marker: Marker)
      modifies this
      ensures var r := OnAddMarker(old(strats), mapId, stratName, marker);
        strats == r.store && outbox == old(outbox) + r.out
    {
      var found := Lookup(strats, mapId, stratName);
      if found.Some? {
        var i := found.value;
        var strat := strats[mapId][i];
        strats := strats[mapId := strats[mapId][i := strat.(markers := strat.markers + [marker])]];
        Emit(Broadcast, MarkerAdded(mapId, stratName, marker));
      }
    }

    method UpdateMarker(mapId: string, stratName: string, index: nat, marker: Marker)
      modifies this
      ensures var r := OnUpdateMarker(old(strats), mapId, stratName, index, marker);
        strats == r.store && outbox == old(outbox) + r.out
    {
      var found := Lookup(strats, mapId, stratName);
      if found.Some? && index < |strats[mapId][found.value].markers| {
        var i := found.value;
        var strat := strats[mapId][i];
        strats := strats[mapId := strats[mapId][i := strat.(markers := strat.markers[index := marker])]];
        Emit(Broadcast, MarkerUpdated(mapId, stratName, index, marker));
      }
    }

    method RemoveMarker(mapId: string, stratName: string, markerIndex: nat)
      modifies this
      ensures var r := OnRemoveMarker(old(strats), mapId, stratName, markerIndex);
        strats == r.store && outbox == old(outbox) + r.out
    {
      var found := Lookup(strats, mapId, stratName);
      if found.Some? && markerIndex < |strats[mapId][found.value].markers| {
        var i := found.value;
        var strat := strats[mapId][i];
        strats := strats[mapId := strats[mapId][i := strat.(markers := RemoveAt(strat.markers, markerIndex))]];
        Emit(Broadcast, MarkerRemoved(mapId, stratName, markerIndex));
      }
    }

    method ResetMarkers(mapId: string, stratName: string)
      modifies this
      ensures var r := OnResetMarkers(old(strats), original, mapId, stratName);
        strats == r.store && outbox == old(outbox) + r.out
    {
      var found := Lookup(strats, mapId, stratName);
      var originalFound := Lookup(original, mapId, stratName);
      if found.Some? && originalFound.Some? {
        var i := found.value;
        var strat := strats[mapId][i];
        strats := strats[mapId := strats[mapId][i := strat.(markers := original[mapId][originalFound.value].markers)]];
        Emit(Broadcast, MarkersReset(mapId, stratName, strats[mapId][i].markers));
      }
    }

    method ChangeMap(mapId: string)
      modifies this
      ensures var r := OnChangeMap(old(strats), mapId);
        strats == r.store && outbox == old(outbox) + r.out
    {
      Emit(Broadcast, MapChanged(mapId));
    }

    method SelectStrat(mapId: string, index: nat)
      modifies this
      ensures var r := OnSelectStrat(old(strats), mapId, index);
        strats == r.store && outbox == old(outbox) + r.out
    {
      Emit(Broadcast, StratSelected(mapId, index));
    }

    method ToggleMode(isDarkMode: bool)
      modifies this
      ensures var r := OnToggleMode(old(strats), isDarkMode);
        strats == r.store && outbox == old(outbox) + r.out
    {
      Emit(Broadcast, ModeToggled(isDarkMode));
    }

    /** Whatever a connection or client event does, the hub's new state and
        its log are those of the corresponding protocol step. */
    method Handle(req: Request)
      modifies this
      ensures var r := Step(old(strats), original, req);
        strats == r.store && outbox == old(outbox) + r.out
    {
      match req
      case Connect => Connect();
      case LoadStrategies => LoadStrategies();
      case SaveStrategies(newStrats) => SaveStrategies(newStrats);
      case AddStrategy(mapId, strat) => AddStrategy(mapId, strat);
      case DeleteStrategy(mapId, index) => DeleteStrategy(mapId, index);
      case AddMarker(mapId, stratName, marker) => AddMarker(mapId, stratName, marker);
      case UpdateMarker(mapId, stratName, index, marker) => UpdateMarker(mapId, stratName, index, marker);
      case RemoveMarker(mapId, stratName, markerIndex) => RemoveMarker(mapId, stratName, markerIndex);
      case ResetMarkers(mapId, stratName) => ResetMarkers(mapId, stratName);
      case ChangeMap(mapId) => ChangeMap(mapId);
      case SelectStrat(mapId, index) => SelectStrat(mapId, index);
      case ToggleMode(isDarkMode) => ToggleMode(isDarkMode);
    }
  }
}
