/** The shared strategy store: markers, strategies, the store that maps a map
    name to its ordered strategies, the two list operations the handlers use
    (Array.prototype.find by name and splice(i, 1)) and the startup seed data. */
module Strats {

  datatype Option<T> = None | Some(value: T)

  /** A grenade lineup on a map image. `x` and `y` are percentages of the
      image size and `kind` is the grenade type ("smoke", "molotov", "flash",
      "he"); the server never inspects any of them. */
  datatype Marker = Marker(x: real, y: real, kind: string, gifUrl: string, description: string)

  /** A named game plan: its markers are kept in the order they were added. */
  datatype Strategy = Strategy(name: string, description: string, markers: seq<Marker>)

  /** Map name to the ordered list of that map's strategies. */
  type Store = map<string, seq<Strategy>>

  /** `list.find(s => s.name === name)`, as the index of the strategy found:
      the FIRST strategy with that name, or None when no strategy has it. */
  function FindByName(list: seq<Strategy>, name: string): (r: Option<nat>)
    ensures r.Some? ==> r.value < |list| && list[r.value].name == name
    ensures r.Some? ==> forall j :: 0 <= j < r.value ==> list[j].name != name
    ensures r.None? <==> forall j :: 0 <= j < |list| ==> list[j].name != name
  {
    if |list| == 0 then None
    else if list[0].name == name then Some(0)
    else match FindByName(list[1..], name)
      case None => None
      case Some(i) => Some(i + 1)
  }

  /** `strats[map]?.find(s => s.name === name)`: a missing map key finds nothing. */
  function Lookup(s: Store, mapId: string, name: string): (r: Option<nat>)
    ensures r.Some? ==> mapId in s && r.value < |s[mapId]| && s[mapId][r.value].name == name
    ensures r.Some? ==> forall j :: 0 <= j < r.value ==> s[mapId][j].name != name
    ensures r.None? <==> mapId !in s || forall j :: 0 <= j < |s[mapId]| ==> s[mapId][j].name != name
  {
    if mapId in s then FindByName(s[mapId], name) else None
  }

  /** `xs.splice(i, 1)` for a non-negative index: position i is removed when it
      exists and the elements after it move one place left; an index past the
      end changes nothing. */
  function RemoveAt<T>(xs: seq<T>, i: nat): (r: seq<T>)
    ensures i < |xs| ==> |r| == |xs| - 1 && r[..i] == xs[..i]
    ensures i < |xs| ==> forall j :: i <= j < |r| ==> r[j] == xs[j + 1]
    ensures i >= |xs| ==> r == xs
  {
    if i < |xs| then xs[..i] + xs[i + 1..] else xs
  }

  /** Two strategy lists with the same names at the same positions. */
  ghost predicate SameNames(a: seq<Strategy>, b: seq<Strategy>) {
    |a| == |b| && forall j :: 0 <= j < |a| ==> a[j].name == b[j].name
  }

  /** The lookup by name sees the names only: editing markers or descriptions
      never changes which strategy a name finds. */
  lemma {:induction false} FindByNameSeesOnlyNames(a: seq<Strategy>, b: seq<Strategy>, name: string)
    requires SameNames(a, b)
    ensures FindByName(a, name) == FindByName(b, name)
  {
    if |a| > 0 && a[0].name != name {
      assert SameNames(a[1..], b[1..]);
      FindByNameSeesOnlyNames(a[1..], b[1..], name);
    }
  }

  /** The store the server starts with (one "A Site Executes" strategy per map). */
  function Seed(): (s: Store)
    ensures s.Keys == {"Mirage", "Inferno", "Dust2", "Nuke", "Ancient"}
    ensures forall k :: k in s ==> |s[k]| == 1 && s[k][0].name == "A Site Executes"
  {
    var gif := "/api/placeholder/640/360";
    map[
      "Mirage" := [Strategy("A Site Executes", "Essential smokes and molotovs for A site executes on Mirage", [
        Marker(30.0, 20.0, "smoke", gif, "CT Spawn smoke from T ramp"),
        Marker(50.0, 40.0, "smoke", gif, "Jungle smoke from T spawn"),
        Marker(60.0, 45.0, "molotov", gif, "Stairs molotov from T ramp")])],
      "Inferno" := [Strategy("A Site Executes", "Essential utility for A site executes on Inferno", [
        Marker(40.0, 25.0, "smoke", gif, "Arch smoke from T ramp"),
        Marker(70.0, 60.0, "molotov", gif, "Pit molotov from A ramp"),
        Marker(80.0, 45.0, "smoke", gif, "Library smoke from mid")])],
      "Dust2" := [Strategy("A Site Executes", "Essential utility for A site executes on Dust2", [
        Marker(70.0, 35.0, "smoke", gif, "CT smoke from long doors"),
        Marker(65.0, 40.0, "flash", gif, "Long corner flash")])],
      "Nuke" := [Strategy("A Site Executes", "Essential utility for A site executes on Nuke", [
        Marker(50.0, 30.0, "smoke", gif, "Heaven smoke"),
        Marker(55.0, 35.0, "molotov", gif, "Hut molotov")])],
      "Ancient" := [Strategy("A Site Executes", "Essential utility for A site executes on Ancient", [
        Marker(60.0, 40.0, "smoke", gif, "CT smoke"),
        Marker(65.0, 45.0, "flash", gif, "A site entry flash")])]
    ]
  }
}
