/** The static layout of the campus map: eleven named zones, each a rectangle
    in percentage coordinates of the map canvas, with a placeholder backend
    id that zone resolution may later replace. */
module MapZones {

  /** One zone of the layout. `x`, `y`, `w` and `h` are percentages of the
      canvas; `rotate` is a CSS rotation in degrees. */
  datatype Zone = Zone(id: int, name: string, x: int, y: int, w: int, h: int, rotate: int)

  /** Ids are pairwise distinct: the map renders one element per zone keyed by id. */
  predicate IdsDistinct(zs: seq<Zone>) {
    forall i, j :: 0 <= i < j < |zs| ==> zs[i].id != zs[j].id
  }

  /** Names are pairwise distinct: resolution by name is unambiguous. */
  predicate NamesDistinct(zs: seq<Zone>) {
    forall i, j :: 0 <= i < j < |zs| ==> zs[i].name != zs[j].name
  }

  /** A non-empty rectangle that lies inside the 100 x 100 percentage square. */
  predicate FitsCanvas(z: Zone) {
    0 <= z.x && 0 <= z.y && 0 < z.w && 0 < z.h && z.x + z.w <= 100 && z.y + z.h <= 100
  }

  /** The zones exactly as `MAP_ZONES` lists them, in its order. */
  const Zones: seq<Zone> :=
    [ Zone(13952, "Estacionamiento", 1, 18, 26, 75, 0),
      Zone(13953, "Edificio Espora", 27, 18, 20, 14, 0),
      Zone(13954, "SUM", 27, 32, 13, 30, 0),
      Zone(13961, "Gimnasio", 34, 67, 14, 26, 0),
      Zone(13955, "Sector 3", 40, 41, 13, 21, 0),
      Zone(13956, "Comedor", 53, 18, 7, 23, 0),
      Zone(13957, "Rosa de los Vientos", 53, 41, 23, 13, 0),
      Zone(13958, "Sector 5", 53, 54, 7, 39, 0),
      Zone(13959, "Aulas Norte", 66, 4, 9, 37, 0),
      Zone(13960, "Aulas Sur", 66, 54, 9, 39, 0),
      Zone(13962, "Dptos", 77, 13, 10, 65, -22) ]

  lemma ZonesNamesDistinct()
    ensures NamesDistinct(Zones)
  {
  }

  lemma ZonesShape()
    ensures |Zones| == 11
    ensures IdsDistinct(Zones)
    ensures forall i :: 0 <= i < |Zones| ==> FitsCanvas(Zones[i])
  {
  }

  lemma ZonesRotation()
    ensures forall i :: 0 <= i < |Zones| ==> (Zones[i].rotate != 0 <==> Zones[i].name == "Dptos")
    ensures forall i :: 0 <= i < |Zones| && Zones[i].name == "Dptos" ==> Zones[i].rotate == -22
  {
  }

  /** The `MAP_ZONES` constant. */
  function Layout(): (zs: seq<Zone>)
    ensures |zs| == 11
    ensures IdsDistinct(zs)
    ensures NamesDistinct(zs)
    ensures forall i :: 0 <= i < |zs| ==> FitsCanvas(zs[i])
    ensures forall i :: 0 <= i < |zs| ==> (zs[i].rotate != 0 <==> zs[i].name == "Dptos")
    ensures forall i :: 0 <= i < |zs| && zs[i].name == "Dptos" ==> zs[i].rotate == -22
  {
    ZonesNamesDistinct();
    ZonesShape();
    ZonesRotation();
    Zones
  }
}
