/** The game map component's state: zoom and pan driven by wheel, mouse and
    touch gestures (the gesture refs are fields updated in place), the zones
    with resolved ids, and the spawn prompt guarded by the player's class and
    NightBringer id. Rendering is not modelled. */
module GameMap {
  import opened Wrappers
  import opened Text
  import opened MapZones
  import opened Viewport
  import opened ZoneResolution

  /** The only class allowed to open the spawn prompt. */
  const SpawnerClass := "nightbringer"
  /** Name used when the spawn prompt is submitted empty. */
  const DefaultSpiritName := "Espíritu"
  const NoNightBringerAlert := "NightBringer no creado"
  const SpawnErrorAlert := "Error al spawnear"

  /** `spawnearEspiritu(nightBringerId, ubicacionId, nombre)`. */
  datatype SpawnCall = SpawnCall(nightBringerId: int, ubicacionId: int, nombre: string)

  datatype SpawnRefusal =
    | NoNightBringer  // `!nightBringerId`: null or 0; the backend is not called
    | NoZoneSelected  // `selectedZone.id` on null throws inside the try

  /** `nombreEspiritu || "Espíritu"`. */
  function SpiritName(nombre: string): (r: string)
    ensures r != ""
    ensures nombre != "" ==> r == nombre
    ensures nombre == "" ==> r == DefaultSpiritName
  {
    if nombre != "" then nombre else DefaultSpiritName
  }

  /** What `spawn` does before awaiting the backend: refuse, or issue one call
      for the selected zone. */
  function SpawnRequest(nightBringerId: Option<int>, zone: Option<Zone>, nombre: string): (r: Result<SpawnCall, SpawnRefusal>)
    ensures (nightBringerId.None? || nightBringerId.value == 0) <==> r == Failure(NoNightBringer)
    ensures r.Failure? && r.error == NoZoneSelected <==> nightBringerId.Some? && nightBringerId.value != 0 && zone.None?
    ensures r.Success? ==> r.value == SpawnCall(nightBringerId.value, zone.value.id, SpiritName(nombre))
  {
    if nightBringerId.None? || nightBringerId.value == 0 then Failure(NoNightBringer)
    else if zone.None? then Failure(NoZoneSelected)
    else Success(SpawnCall(nightBringerId.value, zone.value.id, SpiritName(nombre)))
  }

  /** The redirect effect: to the login page when not authenticated, to the
      dashboard when no class is chosen, nowhere otherwise. */
  function RedirectTarget(isAuthenticated: bool, selectedClass: Option<string>): (r: Option<string>)
    ensures !isAuthenticated ==> r == Some("/")
    ensures isAuthenticated ==> (r.None? <==> Truthy(selectedClass))
    ensures isAuthenticated && !Truthy(selectedClass) ==> r == Some("/dashboard")
  {
    if !isAuthenticated then Some("/")
    else if !Truthy(selectedClass) then Some("/dashboard")
    else None
  }

  /** What a call of `spawn` made visible: the backend call it issued, if
      any, and the alert it raised, if any. */
  datatype SpawnEffect = SpawnEffect(call: Option<SpawnCall>, alert: Option<string>)

  class GameMapState {
    /** `mapRef.current`, as its client size; `None` before it is mounted. */
    var container: Option<Size>
    var modalOpen: bool
    var selectedZone: Option<Zone>
    var nombreEspiritu: string
    var zones: seq<Zone>
    var scale: real
    var offset: Point
    /** `isPanningRef`, `lastPosRef` and `lastPinchDistanceRef`. */
    var isPanning: bool
    var lastPos: Point
    var lastPinchDistance: Option<real>

    /** The scale never leaves [0.5, 3]; recorded pinch distances are lengths. */
    ghost predicate Valid()
      reads this
    {
      InScaleRange(scale) && (lastPinchDistance.Some? ==> lastPinchDistance.value >= 0.0)
    }

    constructor (container: Option<Size>)
      ensures Valid()
      ensures this.container == container
      ensures !modalOpen && selectedZone.None? && nombreEspiritu == ""
      ensures zones == Layout()
      ensures scale == 1.0 && offset == Point(0.0, 0.0)
      ensures !isPanning && lastPos == Point(0.0, 0.0) && lastPinchDistance.None?
    {
      this.container := container;
      modalOpen := false;
      selectedZone := None;
      nombreEspiritu := "";
      zones := Layout();
      scale := 1.0;
      offset := Point(0.0, 0.0);
      isPanning := false;
      lastPos := Point(0.0, 0.0);
      lastPinchDistance := None;
    }

    /** `applyZoom(factor)`. */
    method Zoom(factor: real)
      requires Valid()
      modifies this`scale
      ensures Valid()
      ensures scale == ApplyZoom(old(scale), factor)
    {
      scale := ApplyZoom(scale, factor);
    }

    method Wheel(deltaY: real)
      requires Valid()
      modifies this`scale
      ensures Valid()
      ensures scale == ApplyZoom(old(scale), WheelZoomFactor(deltaY))
    {
      Zoom(WheelZoomFactor(deltaY));
    }

    /** The "+" and "-" buttons. */
    method ZoomButton(zoomIn: bool)
      requires Valid()
      modifies this`scale
      ensures Valid()
      ensures scale == ApplyZoom(old(scale), if zoomIn then ZoomInButtonFactor else ZoomOutButtonFactor)
    {
      if zoomIn {
        Zoom(ZoomInButtonFactor);
      } else {
        Zoom(ZoomOutButtonFactor);
      }
    }

    /** Moves the pan anchor to `p` and pans by the movement, clamped. */
    method PanTo(p: Point)
      requires Valid()
      modifies this`lastPos, this`offset
      ensures Valid()
      ensures lastPos == p
      ensures offset == ClampOffset(Point(old(offset).x + (p.x - old(lastPos).x),
                                          old(offset).y + (p.y - old(lastPos).y)), container, Scale())
    {
      var dx := p.x - lastPos.x;
      var dy := p.y - lastPos.y;
      lastPos := p;
      offset := ClampOffset(Point(offset.x + dx, offset.y + dy), container, Scale());
    }

    function Scale(): Length
      reads this
      requires Valid()
    {
      scale
    }

    method MouseDown(p: Point)
      requires Valid()
      modifies this`isPanning, this`lastPos
      ensures Valid()
      ensures isPanning && lastPos == p
    {
      isPanning := true;
      lastPos := p;
    }

    method MouseMove(p: Point)
      requires Valid()
      modifies this`lastPos, this`offset
      ensures Valid()
      ensures !isPanning ==> lastPos == old(lastPos) && offset == old(offset)
      ensures isPanning ==> lastPos == p && offset == ClampOffset(
        Point(old(offset).x + (p.x - old(lastPos).x), old(offset).y + (p.y - old(lastPos).y)), container, Scale())
    {
      if !isPanning {
        return;
      }
      PanTo(p);
    }

    /** `onMouseUp` and `onMouseLeave`. */
    method MouseUp()
      modifies this`isPanning
      ensures !isPanning
    {
      isPanning := false;
    }

    /** `onTouchStart`. `distance` is `Math.hypot` of the first two touches. */
    method TouchStart(touches: seq<Point>, distance: Length)
      requires Valid()
      modifies this`isPanning, this`lastPos, this`lastPinchDistance
      ensures Valid()
      ensures |touches| == 2 ==> lastPinchDistance == Some(distance) && !isPanning && lastPos == old(lastPos)
      ensures |touches| == 1 ==> isPanning && lastPos == touches[0] && lastPinchDistance.None?
      ensures |touches| != 1 && |touches| != 2 ==>
        isPanning == old(isPanning) && lastPos == old(lastPos) && lastPinchDistance == old(lastPinchDistance)
    {
      if |touches| == 2 {
        lastPinchDistance := Some(distance);
        isPanning := false;
      } else if |touches| == 1 {
        isPanning := true;
        lastPos := touches[0];
        lastPinchDistance := None;
      }
    }

    /** `onTouchMove`. A pinch (two touches after a recorded distance) zooms by
        `distance / last` and never pans; otherwise a single panning touch pans. */
    method TouchMove(touches: seq<Point>, distance: Length)
      requires Valid()
      modifies this`scale, this`lastPinchDistance, this`lastPos, this`offset
      ensures Valid()
      ensures |touches| == 2 && old(lastPinchDistance).Some? ==>
        && lastPinchDistance == Some(distance)
        && offset == old(offset) && lastPos == old(lastPos)
        && (old(lastPinchDistance).value > 0.0 ==>
              scale == ApplyZoom(old(scale), distance / old(lastPinchDistance).value))
        && (old(lastPinchDistance).value == 0.0 && distance > 0.0 ==> scale == MaxScale)
      ensures !(|touches| == 2 && old(lastPinchDistance).Some?) ==>
        scale == old(scale) && lastPinchDistance == old(lastPinchDistance)
      ensures !(|touches| == 2 && old(lastPinchDistance).Some?) && isPanning && |touches| == 1 ==>
        lastPos == touches[0] && offset == ClampOffset(
          Point(old(offset).x + (touches[0].x - old(lastPos).x), old(offset).y + (touches[0].y - old(lastPos).y)),
          container, Scale())
      ensures !(|touches| == 2 && old(lastPinchDistance).Some?) && !(isPanning && |touches| == 1) ==>
        lastPos == old(lastPos) && offset == old(offset)
    {
      if |touches| == 2 && lastPinchDistance.Some? {
        var last := lastPinchDistance.value;
        if last > 0.0 {
          Zoom(distance / last);
        } else if distance > 0.0 {
          // distance / 0 is +Infinity, which the clamp turns into the maximum
          scale := MaxScale;
        }
        lastPinchDistance := Some(distance);
        return;
      }
      if !isPanning || |touches| != 1 {
        return;
      }
      PanTo(touches[0]);
    }

    method TouchEnd()
      requires Valid()
      modifies this`isPanning, this`lastPinchDistance
      ensures Valid()
      ensures !isPanning && lastPinchDistance.None?
    {
      isPanning := false;
      lastPinchDistance := None;
    }

    /** The mount effect that loads the backend locations. */
    method LoadZones(response: Result<seq<Ubicacion>, string>)
      modifies this`zones
      ensures zones == LoadUbicaciones(old(zones), response)
      ensures response.Failure? ==> zones == old(zones)
    {
      match response {
        case Success(us) =>
          zones := ResolveZones(Layout(), us);
        case Failure(_) =>
      }
    }

    /** `openModal`: only a NightBringer opens the prompt, with an empty name. */
    method OpenModal(zone: Zone, selectedClass: Option<string>)
      modifies this`selectedZone, this`nombreEspiritu, this`modalOpen
      ensures selectedClass != Some(SpawnerClass) ==>
        selectedZone == old(selectedZone) && nombreEspiritu == old(nombreEspiritu) && modalOpen == old(modalOpen)
      ensures selectedClass == Some(SpawnerClass) ==>
        selectedZone == Some(zone) && nombreEspiritu == "" && modalOpen
    {
      if selectedClass != Some(SpawnerClass) {
        return;
      }
      selectedZone := Some(zone);
      nombreEspiritu := "";
      modalOpen := true;
    }

    /** `spawn`. `backendSucceeds` is the outcome of the awaited call. The
        prompt closes only when a call was issued and succeeded. */
    method Spawn(nightBringerId: Option<int>, backendSucceeds: bool) returns (effect: SpawnEffect)
      modifies this`modalOpen
      ensures var req := SpawnRequest(nightBringerId, selectedZone, nombreEspiritu);
        && (req.Success? ==> effect.call == Some(req.value))
        && (req.Failure? ==> effect.call.None?)
        && (modalOpen == (old(modalOpen) && !(req.Success? && backendSucceeds)))
        && (req == Failure(NoNightBringer) ==> effect.alert == Some(NoNightBringerAlert))
        && (req == Failure(NoZoneSelected) ==> effect.alert == Some(SpawnErrorAlert))
        && (req.Success? ==> effect.alert == if backendSucceeds then None else Some(SpawnErrorAlert))
    {
      var req := SpawnRequest(nightBringerId, selectedZone, nombreEspiritu);
      match req {
        case Failure(NoNightBringer) =>
          effect := SpawnEffect(None, Some(NoNightBringerAlert));
        case Failure(NoZoneSelected) =>
          effect := SpawnEffect(None, Some(SpawnErrorAlert));
        case Success(call) =>
          if backendSucceeds {
            modalOpen := false;
            effect := SpawnEffect(Some(call), None);
          } else {
            effect := SpawnEffect(Some(call), Some(SpawnErrorAlert));
          }
      }
    }
  }
}
