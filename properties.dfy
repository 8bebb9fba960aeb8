/** Properties of the protocol that relate several handled requests, or all
    requests at once. */
module Properties {
  import opened Strats
  import opened Protocol

  /** Every request emits at most one event, and what it emits echoes it:
      the same event with the same payload (a snapshot of the current store
      for a connection and loadStrategies; for resetMarkers, the original
      strategy's markers). Only a
      connection and loadStrategies reply to the sender alone; everything
      else is broadcast. The read-only and broadcast-only requests leave the
      store as it was. */
  lemma StepEmissions(s: Store, original: Store, req: Request)
    ensures var r := Step(s, original, req);
      && |r.out| <= 1
      && (r.out != [] ==> (r.out[0].target == ToSender <==> req.Connect? || req.LoadStrategies?))
      && (r.out != [] ==> Echoes(req, r.out[0].event))
      && (req.Connect? || req.LoadStrategies? ==> r.out == [Emission(ToSender, Strategies(s))])
      && (req.ResetMarkers? && r.out != [] ==>
            && Lookup(original, req.mapId, req.stratName).Some?
            && r.out[0].event.markers == original[req.mapId][Lookup(original, req.mapId, req.stratName).value].markers)
      && (req.Connect? || req.LoadStrategies? || req.ChangeMap? || req.SelectStrat? || req.ToggleMode? ==> r.store == s)
  {
  }

  /** `js` names, for each emission of `out`, the request of `reqs` it
      answers; the positions strictly increase, so no request is answered
      twice and the emissions come out in the order of their requests. */
  ghost predicate AnswersInOrder(reqs: seq<Request>, out: seq<Emission>, js: seq<nat>) {
    && |js| == |out|
    && (forall k :: 0 <= k < |js| ==> js[k] < |reqs| && Echoes(reqs[js[k]], out[k].event))
    && (forall k, l :: 0 <= k < l < |js| ==> js[k] < js[l])
  }

  ghost predicate EchoedInOrder(reqs: seq<Request>, out: seq<Emission>) {
    exists js :: AnswersInOrder(reqs, out, js)
  }

  /** Every position of `js` moved one place on. */
  function Shift(js: seq<nat>): (r: seq<nat>)
    ensures |r| == |js| && forall i :: 0 <= i < |js| ==> r[i] == js[i] + 1
  {
    seq(|js|, i requires 0 <= i < |js| => js[i] + 1)
  }

  /** Answers to `reqs` are answers to `reqs` behind one more request, at
      positions moved one place on. */
  lemma ShiftAnswers(req: Request, reqs: seq<Request>, out: seq<Emission>, js: seq<nat>)
    requires AnswersInOrder(reqs, out, js)
    ensures AnswersInOrder([req] + reqs, out, Shift(js))
  {
  }

  /** An emission answering the first request goes in front of answers to
      later requests. */
  lemma ConsAnswer(reqs: seq<Request>, e: Emission, out: seq<Emission>, js: seq<nat>)
    requires |reqs| > 0 && Echoes(reqs[0], e.event)
    requires AnswersInOrder(reqs, out, js)
    requires forall k :: 0 <= k < |js| ==> 0 < js[k]
    ensures AnswersInOrder(reqs, [e] + out, [0] + js)
  {
  }

  /** Putting the at most one emission of a request in front of answers in
      order to later requests keeps the answers in order. */
  lemma PrependAnswer(req: Request, first: seq<Emission>, reqs: seq<Request>, out: seq<Emission>, js: seq<nat>)
    requires |first| <= 1 && (first != [] ==> Echoes(req, first[0].event))
    requires AnswersInOrder(reqs, out, js)
    ensures EchoedInOrder([req] + reqs, first + out)
  {
    ShiftAnswers(req, reqs, out, js);
    if first == [] {
      assert first + out == out;
    } else {
      ConsAnswer([req] + reqs, first[0], out, Shift(js));
      assert first + out == [first[0]] + out;
    }
  }

  /** Every event a run emits echoes one of its requests, each request is
      answered at most once, and the events come out in the order the
      requests were handled. */
  lemma {:induction false} RunEchoes(s: Store, original: Store, reqs: seq<Request>)
    ensures EchoedInOrder(reqs, Run(s, original, reqs).out)
    decreases |reqs|
  {
    if reqs == [] {
      assert AnswersInOrder(reqs, [], []);
    } else {
      var first := Step(s, original, reqs[0]);
      var rest := Run(first.store, original, reqs[1..]);
      StepEmissions(s, original, reqs[0]);
      RunEchoes(first.store, original, reqs[1..]);
      var js :| AnswersInOrder(reqs[1..], rest.out, js);
      PrependAnswer(reqs[0], first.out, reqs[1..], rest.out, js);
      assert [reqs[0]] + reqs[1..] == reqs;
      assert Run(s, original, reqs).out == first.out + rest.out;
    }
  }

  /** Handling `a` and then `b` is handling `a + b`: the second batch starts
      from the store the first left, and its emissions follow the first's. */
  lemma {:induction false} RunAppend(s: Store, original: Store, a: seq<Request>, b: seq<Request>)
    ensures var ra := Run(s, original, a);
      var rb := Run(ra.store, original, b);
      Run(s, original, a + b) == Outcome(rb.store, ra.out + rb.out)
    decreases |a|
  {
    if a == [] {
      assert a + b == b;
    } else {
      var first := Step(s, original, a[0]);
      assert (a + b)[0] == a[0];
      assert (a + b)[1..] == a[1..] + b;
      RunAppend(first.store, original, a[1..], b);
      var ra := Run(first.store, original, a[1..]);
      var rb := Run(ra.store, original, b);
      assert Run(s, original, a) == Outcome(ra.store, first.out + ra.out);
      assert first.out + (ra.out + rb.out) == (first.out + ra.out) + rb.out;
    }
  }

  /** Two stores with the same map keys and, per map, the same strategy names
      in the same positions. */
  ghost predicate SameShape(s: Store, t: Store) {
    s.Keys == t.Keys && forall k :: k in s ==> SameNames(s[k], t[k])
  }

  lemma SameShapeKeepsLookup(s: Store, t: Store, mapId: string, name: string)
    requires SameShape(s, t)
    ensures Lookup(s, mapId, name) == Lookup(t, mapId, name)
  {
    if mapId in s {
      FindByNameSeesOnlyNames(s[mapId], t[mapId], name);
    }
  }

  lemma OnlyMarkersKeepsShape(s: Store, t: Store, mapId: string, i: nat)
    requires OnlyMarkersOf(s, t, mapId, i)
    ensures SameShape(s, t)
  {
    forall k | k in s ensures SameNames(s[k], t[k]) {
      if k == mapId {
        assert forall j :: 0 <= j < |s[k]| ==> s[k][j].name == t[k][j].name by {
          forall j | 0 <= j < |s[k]| ensures s[k][j].name == t[k][j].name {
            if j != i { assert t[k][j] == s[k][j]; }
          }
        }
      }
    }
  }

  lemma OnlyMarkersTransitive(a: Store, b: Store, c: Store, mapId: string, i: nat)
    requires OnlyMarkersOf(a, b, mapId, i) && OnlyMarkersOf(b, c, mapId, i)
    ensures OnlyMarkersOf(a, c, mapId, i)
  {
  }

  /** The requests that edit the markers of one named strategy. */
  predicate EditsMarkers(req: Request) {
    req.AddMarker? || req.UpdateMarker? || req.RemoveMarker? || req.ResetMarkers?
  }

  /** A marker request changes at most the markers of the strategy it finds:
      the strategy lists keep their names, so every later lookup by name
      finds what it found before. */
  lemma MarkerRequestKeepsLookups(s: Store, original: Store, req: Request, mapId: string, name: string)
    requires EditsMarkers(req)
    ensures SameShape(s, Step(s, original, req).store)
    ensures Lookup(Step(s, original, req).store, mapId, name) == Lookup(s, mapId, name)
  {
    var t := Step(s, original, req).store;
    var i := Lookup(s, req.mapId, req.stratName);
    if t == s {
    } else {
      assert i.Some?;
      OnlyMarkersKeepsShape(s, t, req.mapId, i.value);
    }
    SameShapeKeepsLookup(s, t, mapId, name);
  }

  /** resetMarkers twice in a row gives what one reset gives: the same store
      and the same broadcast. */
  lemma ResetIsIdempotent(s: Store, original: Store, mapId: string, stratName: string)
    ensures var once := OnResetMarkers(s, original, mapId, stratName);
      OnResetMarkers(once.store, original, mapId, stratName) == once
  {
    var once := OnResetMarkers(s, original, mapId, stratName);
    match (Lookup(s, mapId, stratName), Lookup(original, mapId, stratName))
    case (Some(i), Some(k)) =>
      var t := once.store;
      OnlyMarkersKeepsShape(s, t, mapId, i);
      SameShapeKeepsLookup(s, t, mapId, stratName);
      var ms := original[mapId][k].markers;
      assert t[mapId][i].(markers := ms) == t[mapId][i];
      assert t[mapId][i := t[mapId][i]] == t[mapId];
      assert t[mapId := t[mapId]] == t;
    case _ =>
  }

  /** The markers-only edits of strategy `name` in map `mapId`. */
  predicate EditsOnly(reqs: seq<Request>, mapId: string, name: string) {
    forall r :: r in reqs ==> EditsMarkers(r) && r.mapId == mapId && r.stratName == name
  }

  /** Any run of marker edits aimed at one strategy changes the markers of
      that strategy and nothing else in the store. */
  lemma {:induction false} EditsStayInside(s: Store, original: Store, reqs: seq<Request>, mapId: string, name: string)
    requires EditsOnly(reqs, mapId, name)
    requires Lookup(s, mapId, name).Some?
    ensures OnlyMarkersOf(s, Run(s, original, reqs).store, mapId, Lookup(s, mapId, name).value)
    decreases |reqs|
  {
    var i := Lookup(s, mapId, name).value;
    if reqs != [] {
      var first := Step(s, original, reqs[0]);
      MarkerRequestKeepsLookups(s, original, reqs[0], mapId, name);
      assert first.store == s || OnlyMarkersOf(s, first.store, mapId, i);
      assert EditsOnly(reqs[1..], mapId, name);
      EditsStayInside(first.store, original, reqs[1..], mapId, name);
      if first.store != s {
        OnlyMarkersTransitive(s, first.store, Run(s, original, reqs).store, mapId, i);
      }
    }
  }

  /** Starting from the original store, however the markers of one strategy
      were edited, resetting that strategy gives back the original store. */
  lemma ResetUndoesEdits(original: Store, reqs: seq<Request>, mapId: string, name: string)
    requires EditsOnly(reqs, mapId, name)
    requires Lookup(original, mapId, name).Some?
    ensures OnResetMarkers(Run(original, original, reqs).store, original, mapId, name).store == original
  {
    var i := Lookup(original, mapId, name).value;
    var t := Run(original, original, reqs).store;
    EditsStayInside(original, original, reqs, mapId, name);
    OnlyMarkersKeepsShape(original, t, mapId, i);
    SameShapeKeepsLookup(original, t, mapId, name);
    var u := OnResetMarkers(t, original, mapId, name).store;
    OnlyMarkersTransitive(original, t, u, mapId, i);
    assert u[mapId][i] == original[mapId][i];
    assert u[mapId] == original[mapId];
    assert forall k :: k in u ==> u[k] == original[k];
  }

  /** Number of addMarker broadcasts for strategy `name` of map `mapId`. */
  function Adds(out: seq<Emission>, mapId: string, name: string): (n: nat) {
    if out == [] then 0
    else
      var e := out[0];
      (if e.target == Broadcast && e.event.MarkerAdded? && e.event.mapId == mapId && e.event.stratName == name then 1 else 0)
      + Adds(out[1..], mapId, name)
  }

  /** Number of removeMarker broadcasts for strategy `name` of map `mapId`. */
  function Removes(out: seq<Emission>, mapId: string, name: string): (n: nat) {
    if out == [] then 0
    else
      var e := out[0];
      (if e.target == Broadcast && e.event.MarkerRemoved? && e.event.mapId == mapId && e.event.stratName == name then 1 else 0)
      + Removes(out[1..], mapId, name)
  }

  lemma {:induction false} CountsAppend(a: seq<Emission>, b: seq<Emission>, mapId: string, name: string)
    ensures Adds(a + b, mapId, name) == Adds(a, mapId, name) + Adds(b, mapId, name)
    ensures Removes(a + b, mapId, name) == Removes(a, mapId, name) + Removes(b, mapId, name)
  {
    if a == [] {
      assert a + b == b;
    } else {
      assert (a + b)[1..] == a[1..] + b;
      CountsAppend(a[1..], b, mapId, name);
    }
  }

  /** The requests that change a marker list one marker at a time. */
  predicate ChangesMarkerCount(req: Request) {
    req.AddMarker? || req.UpdateMarker? || req.RemoveMarker?
  }

  /** One addMarker, updateMarker or removeMarker request changes the marker
      count of a strategy by exactly what its broadcasts say about it. */
  lemma StepMarkerCount(s: Store, original: Store, req: Request, mapId: string, name: string)
    requires ChangesMarkerCount(req)
    requires Lookup(s, mapId, name).Some?
    ensures var i := Lookup(s, mapId, name).value;
      var r := Step(s, original, req);
      && mapId in r.store && i < |r.store[mapId]|
      && |r.store[mapId][i].markers| + Removes(r.out, mapId, name)
         == |s[mapId][i].markers| + Adds(r.out, mapId, name)
  {
    var i := Lookup(s, mapId, name).value;
    var r := Step(s, original, req);
    MarkerRequestKeepsLookups(s, original, req, mapId, name);
    var hit := Lookup(s, req.mapId, req.stratName);
    if r.store != s && req.mapId == mapId && req.stratName != name {
      assert hit.value != i;
    }
  }

  /** For any run of addMarker, updateMarker and removeMarker requests, a
      strategy's marker count grows by the number of addMarker broadcasts
      aimed at it and shrinks by the number of removeMarker broadcasts aimed
      at it; requests that find nothing, or an index out of range, change
      neither. The strategy stays at the position where it was found. */
  lemma {:induction false} MarkerCountFollowsBroadcasts(s: Store, original: Store, reqs: seq<Request>, mapId: string, name: string)
    requires forall r :: r in reqs ==> ChangesMarkerCount(r)
    requires Lookup(s, mapId, name).Some?
    ensures var i := Lookup(s, mapId, name).value;
      var r := Run(s, original, reqs);
      && Lookup(r.store, mapId, name) == Some(i)
      && |r.store[mapId][i].markers| + Removes(r.out, mapId, name)
         == |s[mapId][i].markers| + Adds(r.out, mapId, name)
    decreases |reqs|
  {
    if reqs != [] {
      var first := Step(s, original, reqs[0]);
      StepMarkerCount(s, original, reqs[0], mapId, name);
      MarkerRequestKeepsLookups(s, original, reqs[0], mapId, name);
      MarkerCountFollowsBroadcasts(first.store, original, reqs[1..], mapId, name);
      CountsAppend(first.out, Run(first.store, original, reqs[1..]).out, mapId, name);
    }
  }

  /** The concrete scenario: appending a marker to Mirage's "A Site Executes"
      in the seed store gives it a fourth marker, equal to the one sent, and
      broadcasts the request unchanged. */
  lemma SeedAddMarkerScenario()
    ensures var marker := Marker(10.0, 10.0, "he", "", "");
      var r := OnAddMarker(Seed(), "Mirage", "A Site Executes", marker);
      && "Mirage" in r.store && |r.store["Mirage"]| == 1
      && |r.store["Mirage"][0].markers| == 4
      && r.store["Mirage"][0].markers[3] == marker
      && r.store["Mirage"][0].markers[..3] == Seed()["Mirage"][0].markers
      && r.out == [Emission(Broadcast, MarkerAdded("Mirage", "A Site Executes", marker))]
  {
    assert Lookup(Seed(), "Mirage", "A Site Executes") == Some(0);
  }
}
