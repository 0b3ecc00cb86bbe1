/** Replacing the layout's placeholder zone ids by the ids the backend uses,
    matched by zone name (the `ubicaciones` loaded when the map mounts). */
module ZoneResolution {
  import opened Wrappers
  import opened MapZones

  /** One backend location record: its `nombre` and its `id`, `None` when the
      record has no id (`null` or `undefined`). */
  datatype Ubicacion = Ubicacion(nombre: string, id: Option<int>)

  /** JavaScript truthiness of a backend id: present and non-zero. */
  predicate TruthyId(id: Option<int>) {
    id.Some? && id.value != 0
  }

  /** `new Map(ubicaciones.map(u => [u.nombre, u.id]))`: entries are inserted
      in order, so a later record with the same name overrides an earlier one. */
  function NameIndex(us: seq<Ubicacion>): (m: map<string, Option<int>>)
    ensures forall u :: u in us ==> u.nombre in m
    ensures forall n :: n in m ==> exists u :: u in us && u.nombre == n
    decreases |us|
  {
    if us == [] then map[]
    else
      var last := us[|us| - 1];
      var m := NameIndex(us[..|us| - 1]);
      assert forall u :: u in us[..|us| - 1] ==> u in us;
      assert forall u :: u in us ==> u in us[..|us| - 1] || u == last;
      m[last.nombre := last.id]
  }

  /** With duplicate names the last record wins: the index maps a name to the
      id of the last record that carries it. */
  lemma {:induction false} NameIndexLastWins(us: seq<Ubicacion>, k: nat)
    requires k < |us|
    requires forall j :: k < j < |us| ==> us[j].nombre != us[k].nombre
    ensures us[k].nombre in NameIndex(us) && NameIndex(us)[us[k].nombre] == us[k].id
    decreases |us|
  {
    if k < |us| - 1 {
      var prefix := us[..|us| - 1];
      assert prefix[k] == us[k];
      NameIndexLastWins(prefix, k);
    }
  }

  /** The id a zone ends up with. */
  function ResolvedId(z: Zone, index: map<string, Option<int>>): int {
    if z.name in index && TruthyId(index[z.name]) then index[z.name].value else z.id
  }

  /** One zone after resolution: `realId ? { ...zone, id: realId } : zone`. */
  function ResolveZone(z: Zone, index: map<string, Option<int>>): (r: Zone)
    ensures r == z.(id := ResolvedId(z, index))
    ensures z.name in index && TruthyId(index[z.name]) ==> r.id == index[z.name].value
    ensures !(z.name in index && TruthyId(index[z.name])) ==> r == z
  {
    var realId := if z.name in index then index[z.name] else None;
    if TruthyId(realId) then z.(id := realId.value) else z
  }

  /** `MAP_ZONES.map(...)`: the layout with each zone resolved against the
      backend records; order, names, rectangles and rotations are kept. */
  function ResolveZones(zones: seq<Zone>, us: seq<Ubicacion>): (rs: seq<Zone>)
    ensures |rs| == |zones|
    ensures forall i :: 0 <= i < |zones| ==> rs[i] == zones[i].(id := ResolvedId(zones[i], NameIndex(us)))
    decreases |zones|
  {
    if zones == [] then []
    else [ResolveZone(zones[0], NameIndex(us))] + ResolveZones(zones[1..], us)
  }

  /** A zone takes the id of the last backend record with its name, when that
      id is truthy; a zone no record names keeps its placeholder. */
  lemma ResolvedFromLastRecord(zones: seq<Zone>, us: seq<Ubicacion>, i: nat, k: nat)
    requires i < |zones| && k < |us|
    requires us[k].nombre == zones[i].name
    requires forall j :: k < j < |us| ==> us[j].nombre != us[k].nombre
    ensures ResolveZones(zones, us)[i].id == (if TruthyId(us[k].id) then us[k].id.value else zones[i].id)
  {
    NameIndexLastWins(us, k);
  }

  lemma UnnamedZoneKeepsPlaceholder(zones: seq<Zone>, us: seq<Ubicacion>, i: nat)
    requires i < |zones|
    requires forall u :: u in us ==> u.nombre != zones[i].name
    ensures ResolveZones(zones, us)[i] == zones[i]
  {
  }

  /** `loadUbicaciones`: on success the zones become the resolved layout; on
      failure (the request rejected) they stay as they were. */
  function LoadUbicaciones(current: seq<Zone>, response: Result<seq<Ubicacion>, string>): (zs: seq<Zone>)
    ensures response.Failure? ==> zs == current
    ensures response.Success? ==> zs == ResolveZones(Layout(), response.value)
  {
    match response
    case Success(us) => ResolveZones(Layout(), us)
    case Failure(_) => current
  }

  /** The example of a single backend record named like a zone. */
  lemma ResolveSUM()
    ensures ResolveZones(Layout(), [Ubicacion("SUM", Some(1))])[2].id == 1
    ensures ResolveZones(Layout(), [Ubicacion("SUM", Some(1))])[0] == Layout()[0]
  {
    var us := [Ubicacion("SUM", Some(1))];
    assert Layout()[2].name == "SUM";
    ResolvedFromLastRecord(Layout(), us, 2, 0);
    assert Layout()[0].name != "SUM";
    UnnamedZoneKeepsPlaceholder(Layout(), us, 0);
  }
}
