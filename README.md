# CS2Strats synchronization server in Dafny

CS2Strats is a shared editor for Counter-Strike grenade lineups. A Node.js
server keeps one in-memory store that maps each map name ("Mirage", "Dust2",
...) to an ordered list of strategies. A strategy has a name, a description
and an ordered list of markers. Clients send Socket.IO events. The server
applies each one to the store, then either broadcasts it to every connected
client (`io.emit`) or answers the sender alone (`socket.emit`). At startup the
server also makes a deep copy of the seed store (`originalStrats`), which
`resetMarkers` restores from.

The model has four modules:

- `Strats` (strats.dfy): the data model (`Marker`, `Strategy`, `Store`). It
  also has `FindByName`, which is `Array.prototype.find` by name (the first
  match), `Lookup`, which is `strats[map]?.find(...)`, `RemoveAt`, which is
  `splice(i, 1)`, and the hard-coded seed data.
- `Protocol` (protocol.dfy): the handlers as pure transitions. Each one takes
  the store and the payload and gives an `Outcome`: the new store and the
  emissions. An emission is an `Event` tagged `Broadcast` or `ToSender`.
  `Step` dispatches one `Request`. `Run` handles a sequence of requests in the
  order the server receives them.
- `Properties` (properties.dfy): lemmas about one step, or about a whole run.
- `Server` (server.dfy): class `Hub`, the single-threaded server process. It
  has a mutable `strats` field, a `const original` (so no handler can modify
  the frozen copy), and an `outbox` log with every emission in order. There
  is one method per socket event. Each method updates the fields in place and
  guarantees the state and log that the matching `Protocol` transition gives.

Sending is modelled as appending to `outbox`. Delivery to clients is not
modelled.

`addMarker`, `updateMarker`, `removeMarker` and `resetMarkers` emit only when
the strategy is found and, where they take one, the index is in range.
`deleteStrategy` (server.js:101-107) broadcasts whenever the map key is
present, whatever the index. The model follows the code. The
code has a second quirk, which the model also keeps: if a map key holds an
empty list, `deleteStrategy` on that key drops the key even when the index is
out of range.

## Model

| member | source | states |
|---|---|---|
| Strats.FindByName | server.js:111 | the result is the index of the FIRST strategy with the given name (every earlier one has another name), and it is None exactly when no strategy has that name |
| Strats.Lookup | server.js:111 | a missing map key finds nothing; otherwise the result is the first strategy of that map with the name, and None exactly when there is none |
| Strats.RemoveAt | server.js:103 | `splice(i, 1)` with an in-range index drops one element, keeps the prefix before i and shifts the rest left by one; past the end it changes nothing |
| Strats.FindByNameSeesOnlyNames | server.js:111 | two lists with the same names in the same positions give the same lookup result, so editing markers never changes what a name finds |
| Strats.Seed | server.js:14-70 | the startup store has exactly the five maps, each with one strategy named "A Site Executes" |
| Protocol.Snapshot | server.js:80-85 | a new connection or loadStrategies leaves the store unchanged and sends exactly one "strategies" event, holding the current store, to the sender only |
| Protocol.OnSaveStrategies | server.js:88-91 | the sent store replaces the whole store, and the new store is broadcast as "strategies" |
| Protocol.OnAddStrategy | server.js:94-98 | the map key exists afterwards and no other key is added; the list grows by one, keeps its old entries in order and ends with the sent strategy (a missing key starts from an empty list); other maps are unchanged; the request is always broadcast verbatim |
| Protocol.OnDeleteStrategy | server.js:101-107 | a missing key: nothing changes and nothing is emitted. A present key: the list becomes its splice at index; the key is dropped exactly when that leaves it empty; other maps are unchanged; the request is broadcast even with an out-of-range index. The key it deletes from is never left holding an empty list |
| Protocol.OnAddMarker | server.js:110-116 | strategy found: only the first strategy with that name changes, and only its markers; their count grows by one, the old markers stay as the prefix and the last marker is the one sent; exactly one verbatim addMarker broadcast. Not found: store unchanged, nothing emitted |
| Protocol.OnUpdateMarker | server.js:119-125 | strategy found and index in range: only position index of that strategy's markers changes, to the sent marker, and the length is kept; verbatim broadcast. Strategy missing or index out of range: store unchanged, nothing emitted |
| Protocol.OnRemoveMarker | server.js:128-134 | strategy found and index in range: the length drops by one, the prefix before the index is kept and the suffix shifts left by one; verbatim broadcast. Otherwise the store is unchanged and nothing is emitted |
| Protocol.OnResetMarkers | server.js:137-144 | name found in both the live and the original store: only that strategy's markers change, and they become the original strategy's markers; the broadcast carries those restored markers instead of echoing the request. Otherwise the store is unchanged and nothing is emitted |
| Protocol.OnChangeMap | server.js:147-149 | store unchanged; the map id is broadcast verbatim |
| Protocol.OnSelectStrat | server.js:152-154 | store unchanged; the payload is broadcast verbatim |
| Protocol.OnToggleMode | server.js:157-159 | store unchanged; the mode flag is broadcast verbatim |
| Protocol.Step | server.js:76-159 | the request goes to the handler its event name selects, and it emits at most one event (Properties.StepEmissions says which) |
| Protocol.Run | server.js:76-159 | requests are handled one after another, in the order the single-threaded server receives them, each on the store the previous one left; the run emits at most one event per request (Properties.RunEchoes and Properties.RunAppend give their order) |
| Properties.StepEmissions | server.js:76-159 | every request emits at most one event, and that event echoes the request: same event, same payload. The exceptions are the snapshot for a connection or loadStrategies, which is always sent and holds the current store, and resetMarkers, which sends the markers of the first strategy with that name in the original store (and emits only when the original has one). Only a connection and loadStrategies reply to the sender alone; everything else is broadcast. A connection, loadStrategies, changeMap, selectStrat and toggleMode leave the store unchanged |
| Properties.RunEchoes | server.js:76-159 | the events a run emits can be matched to its requests at strictly increasing positions, each event echoing its request: every event answers a request, no request is answered twice, and the events come out in the order the requests were received |
| Properties.RunAppend | server.js:76-159 | handling a batch of requests and then a second batch is the same as handling the two together: the second starts from the store the first left, and its emissions follow the first's |
| Properties.MarkerRequestKeepsLookups | server.js:110-144 | addMarker, updateMarker, removeMarker and resetMarkers keep every map key and every strategy name in place, so every later lookup finds the same strategy |
| Properties.ResetIsIdempotent | server.js:137-144 | a second resetMarkers in a row gives the same store and the same broadcast as the first |
| Properties.EditsStayInside | server.js:110-144 | any run of marker requests aimed at one strategy changes that strategy's markers and nothing else in the store |
| Properties.ResetUndoesEdits | server.js:137-144 | starting from the original store, whatever marker edits a strategy went through, resetting it gives back exactly the original store |
| Properties.StepMarkerCount | server.js:110-134 | one addMarker, updateMarker or removeMarker changes a strategy's marker count by (addMarker broadcasts for it) minus (removeMarker broadcasts for it) |
| Properties.MarkerCountFollowsBroadcasts | server.js:110-134 | over any run of addMarker, updateMarker and removeMarker requests, the strategy stays where it was found, and its marker count changes by the number of addMarker broadcasts for it minus the number of removeMarker broadcasts for it; requests that miss change neither |
| Properties.SeedAddMarkerScenario | server.js:15-24 | adding a marker to Mirage's "A Site Executes" in the seed store gives four markers: the three seed markers, then the one sent; the request is broadcast unchanged |
| Server.Hub.constructor | server.js:14-73 | the live store and the frozen original both start as the seed data, and the log is empty |
| Server.Hub.Emit | server.js:80-159 | an `io.emit` or `socket.emit`: the store is unchanged and the log gains exactly that emission, at its end |
| Server.Hub.Connect | server.js:80 | the store is unchanged; the log gains the snapshot reply to the sender |
| Server.Hub.LoadStrategies | server.js:83-85 | the store is unchanged; the log gains the snapshot reply to the sender |
| Server.Hub.SaveStrategies | server.js:88-91 | the new store and the log are those of OnSaveStrategies |
| Server.Hub.AddStrategy | server.js:94-98 | the new store and the log are those of OnAddStrategy |
| Server.Hub.DeleteStrategy | server.js:101-107 | the new store and the log are those of OnDeleteStrategy |
| Server.Hub.AddMarker | server.js:110-116 | the new store and the log are those of OnAddMarker |
| Server.Hub.UpdateMarker | server.js:119-125 | the new store and the log are those of OnUpdateMarker |
| Server.Hub.RemoveMarker | server.js:128-134 | the new store and the log are those of OnRemoveMarker |
| Server.Hub.ResetMarkers | server.js:137-144 | the new store and the log are those of OnResetMarkers, read against the constant `original` |
| Server.Hub.ChangeMap | server.js:147-149 | the store is unchanged; the log gains the changeMap broadcast |
| Server.Hub.SelectStrat | server.js:152-154 | the store is unchanged; the log gains the selectStrat broadcast |
| Server.Hub.ToggleMode | server.js:157-159 | the store is unchanged; the log gains the toggleMode broadcast |
| Server.Hub.Handle | server.js:76-159 | whichever event arrives, the hub's new state and log are those of `Step`, so every lemma about `Step` and `Run` holds of the hub |

## Left out

- Express, the HTTP server, the Socket.IO server, `server.listen` and the PORT setting (server.js:1-11, 167-171) are library plumbing. Emitting is modelled as appending to the hub's log; delivery to clients is not modelled.
- Which clients are connected, and the order in which one client receives events, are not modelled. So the model does not show that a new client's snapshot arrives before any broadcast. It also does not show that a broadcast reaches every client, beyond being tagged `Broadcast`.
- The `console.log` calls and the `disconnect` handler (server.js:77, 162-164) only log and change no state.
- public/index.js, the browser client, is not part of this model. That includes its replica handlers, rendering, dialogs and drag handling.
- Marker coordinates are modelled as `real` percentages. The server never reads them. The client's floating-point pixel-to-percentage conversion and clamping are not modelled.
- Indexes are `nat`. JavaScript also accepts negative, fractional or string indexes, and treats them differently in `splice` and `[]` (for example, `splice(-1, 1)` removes the last element). Those cases are not modelled.
- Every marker is assumed to be an object, and so truthy. The source's test `strat.markers[index]` would also refuse a stored `null` marker; the model does not capture that.
- Payloads are assumed to be well formed (typed values). A missing field makes the JavaScript handler throw, and that crash is not modelled.
- An absent `gifUrl` or `description` is modelled as the empty string; the client sends `gifUrl` as `""`.
- A map name that is a property of `Object.prototype` (such as "constructor") would look present in `strats[map]` in JavaScript. The model treats such names like any other.
- The order of keys in the JavaScript object, which affects only how a snapshot is serialized, is not modelled.
- The `JSON.parse(JSON.stringify(...))` deep copies (server.js:73, 141) need nothing extra: Dafny values cannot alias.
