/**
 * The module state of js/map.js around the Leaflet calls. Leaflet itself is
 * foreign: a layer is an opaque handle, `layers` is the set of handles the
 * map currently shows, and `nextHandle` stands for the allocation of a new
 * Leaflet object.
 */
module MapView {
  import opened Wrappers
  import opened Data

  /** The colour and the remix-icon class a marker pin is drawn with. */
  datatype Icon = Icon(color: string, iconClass: string)

  const DefaultIcon: Icon := Icon("#FF4757", "ri-map-pin-fill")

  /** The pin createIcon builds for a resource type. */
  function PinIcon(t: string): (icon: Icon)
    ensures t !in TypeKeys ==> icon == DefaultIcon
    ensures t in TypeKeys ==> icon.iconClass != DefaultIcon.iconClass
  {
    if t == Hospital then Icon("#FF4757", "ri-hospital-fill")
    else if t == Ambulance then Icon("#FFA502", "ri-ambulance-fill")
    else if t == BloodBank then Icon("#FF6B81", "ri-drop-fill")
    else if t == Shelter then Icon("#2ED573", "ri-home-heart-fill")
    else DefaultIcon
  }

  /** The four resource types get four different icons, and each of them differs from the default pin. */
  lemma PinIconsDistinct()
    ensures forall i, j :: 0 <= i < j < |TypeKeys| ==> PinIcon(TypeKeys[i]) != PinIcon(TypeKeys[j])
    ensures forall i :: 0 <= i < |TypeKeys| ==> PinIcon(TypeKeys[i]) != DefaultIcon
  {
  }

  /** createIcon: start from the red default and let each matching test overwrite colour and icon. */
  method CreateIcon(t: string) returns (icon: Icon)
    ensures icon == PinIcon(t)
  {
    var color := "#FF4757";
    var iconClass := "ri-map-pin-fill";
    if t == Hospital { color := "#FF4757"; iconClass := "ri-hospital-fill"; }
    if t == Ambulance { color := "#FFA502"; iconClass := "ri-ambulance-fill"; }
    if t == BloodBank { color := "#FF6B81"; iconClass := "ri-drop-fill"; }
    if t == Shelter { color := "#2ED573"; iconClass := "ri-home-heart-fill"; }
    icon := Icon(color, iconClass);
  }

  /**
   * A resource marker: its Leaflet handle, where it stands, its pin, and what
   * its click handler closed over (the resource's id and whether a callback
   * was supplied).
   */
  datatype Marker = Marker(handle: nat, pos: Coord, icon: Icon, resId: nat, notify: bool)

  /** The marker addResourceMarkers creates for a resource: clicking it flies to the resource and reports the resource's id. */
  function MarkerFor(h: nat, r: Resource, notify: bool): (m: Marker)
    ensures m.handle == h && m.icon == PinIcon(r.rtype)
    ensures Click(m).flyTo == Coord(r.lat, r.lng)
    ensures Click(m).callbackArg == (if notify then Some(r.id) else None)
  {
    Marker(h, Coord(r.lat, r.lng), PinIcon(r.rtype), r.id, notify)
  }

  /** What a click on a marker does: the view to fly to, its zoom, and the argument given to the callback, if any. */
  datatype ClickEffect = ClickEffect(flyTo: Coord, zoom: nat, callbackArg: Option<nat>)

  function Click(m: Marker): (e: ClickEffect)
    ensures e.flyTo == m.pos && e.zoom == 15
    ensures e.callbackArg.Some? <==> m.notify
    ensures e.callbackArg.Some? ==> e.callbackArg.value == m.resId
  {
    ClickEffect(m.pos, 15, if m.notify then Some(m.resId) else None)
  }

  function Handles(ms: seq<Marker>): set<nat> {
    set m | m in ms :: m.handle
  }

  /** The handles from lo up to, not including, hi. */
  function Span(lo: nat, hi: nat): (s: set<nat>)
    ensures forall h :: h in s <==> lo <= h < hi
    decreases hi - lo
  {
    if hi <= lo then {} else Span(lo, hi - 1) + {hi - 1}
  }

  class MapState {
    /** `map !== null` */
    var initialized: bool
    var center: Coord
    var zoom: nat
    var userMarker: Option<nat>
    var layers: set<nat>
    var resourceMarkers: seq<Marker>
    var nextHandle: nat

    ghost predicate Valid()
      reads this
    {
      (resourceMarkers != [] ==> initialized) &&
      (forall h :: h in layers ==> h < nextHandle) &&
      (forall i :: 0 <= i < |resourceMarkers| ==> resourceMarkers[i].handle in layers) &&
      (forall i, j :: 0 <= i < j < |resourceMarkers| ==> resourceMarkers[i].handle != resourceMarkers[j].handle) &&
      (userMarker.Some? ==> userMarker.value < nextHandle)
    }

    /** The module's initial values: no map, no user marker, no resource markers. */
    constructor ()
      ensures Valid()
      ensures !initialized && userMarker == None && layers == {} && resourceMarkers == []
    {
      initialized := false;
      center := Coord(0.0, 0.0);
      zoom := 0;
      userMarker := None;
      layers := {};
      resourceMarkers := [];
      nextHandle := 0;
    }

    /** initMap: the first call creates the map at c, zoom 13, with the user's marker on it; later calls do nothing. */
    method InitMap(c: Coord)
      requires Valid()
      modifies this
      ensures Valid()
      ensures old(initialized) ==> unchanged(this)
      ensures !old(initialized) ==>
        initialized && center == c && zoom == 13 &&
        userMarker == Some(old(nextHandle)) &&
        layers == old(layers) + {old(nextHandle)} &&
        resourceMarkers == old(resourceMarkers) && nextHandle == old(nextHandle) + 1
    {
      if initialized {
        return;
      }
      initialized := true;
      center := c;
      zoom := 13;
      var h := nextHandle;
      nextHandle := nextHandle + 1;
      layers := layers + {h};
      userMarker := Some(h);
    }

    /** clearMarkers: removes every resource marker from the map and empties the list. */
    method ClearMarkers()
      requires Valid()
      modifies this
      ensures Valid()
      ensures resourceMarkers == []
      ensures layers == old(layers) - Handles(old(resourceMarkers))
      ensures initialized == old(initialized) && center == old(center) && zoom == old(zoom)
      ensures userMarker == old(userMarker) && nextHandle == old(nextHandle)
    {
      var i := 0;
      while i < |resourceMarkers|
        invariant 0 <= i <= |resourceMarkers|
        invariant resourceMarkers == old(resourceMarkers)
        invariant layers == old(layers) - Handles(resourceMarkers[..i])
        invariant initialized == old(initialized) && center == old(center) && zoom == old(zoom)
        invariant userMarker == old(userMarker) && nextHandle == old(nextHandle)
      {
        assert resourceMarkers[..i + 1] == resourceMarkers[..i] + [resourceMarkers[i]];
        layers := layers - {resourceMarkers[i].handle};
        i := i + 1;
      }
      assert resourceMarkers[..i] == resourceMarkers;
      resourceMarkers := [];
    }

    /**
     * addResourceMarkers: clears the old markers, then adds one marker per
     * resource, in order, each with a fresh handle and the pin for its type.
     * Leaflet's addTo needs a map, so a non-empty list needs an initialized one.
     */
    method AddResourceMarkers(rs: seq<Resource>, notify: bool)
      requires Valid()
      requires initialized || rs == []
      modifies this
      ensures Valid()
      ensures |resourceMarkers| == |rs|
      ensures forall i :: 0 <= i < |rs| ==> resourceMarkers[i] == MarkerFor(old(nextHandle) + i, rs[i], notify)
      ensures forall m :: m in old(resourceMarkers) ==> m.handle !in layers && m.handle < old(nextHandle)
      ensures layers == (old(layers) - Handles(old(resourceMarkers))) + Span(old(nextHandle), nextHandle)
      ensures initialized == old(initialized) && center == old(center) && zoom == old(zoom)
      ensures userMarker == old(userMarker) && nextHandle == old(nextHandle) + |rs|
    {
      ClearMarkers();
      ghost var cleared := layers;
      ghost var base := nextHandle;
      var i := 0;
      while i < |rs|
        invariant 0 <= i <= |rs|
        invariant nextHandle == base + i
        invariant |resourceMarkers| == i
        invariant forall k :: 0 <= k < i ==> resourceMarkers[k] == MarkerFor(base + k, rs[k], notify)
        invariant forall k :: 0 <= k < i ==> resourceMarkers[k].handle == base + k
        invariant layers == cleared + Span(base, nextHandle)
        invariant forall h :: h in cleared ==> h < base
        invariant initialized == old(initialized) && center == old(center) && zoom == old(zoom)
        invariant userMarker == old(userMarker)
      {
        AddMarker(rs[i], notify);
        i := i + 1;
      }
      assert forall m :: m in old(resourceMarkers) ==> m.handle in Handles(old(resourceMarkers));
    }

    /** The body of addResourceMarkers' loop: a new marker with the resource's pin goes on the map and onto the list. */
    method AddMarker(r: Resource, notify: bool)
      requires initialized
      modifies this
      ensures resourceMarkers == old(resourceMarkers) + [MarkerFor(old(nextHandle), r, notify)]
      ensures layers == old(layers) + {old(nextHandle)} && nextHandle == old(nextHandle) + 1
      ensures initialized == old(initialized) && center == old(center) && zoom == old(zoom)
      ensures userMarker == old(userMarker)
    {
      var icon := CreateIcon(r.rtype);
      var h := nextHandle;
      nextHandle := nextHandle + 1;
      layers := layers + {h};
      resourceMarkers := resourceMarkers + [Marker(h, Coord(r.lat, r.lng), icon, r.id, notify)];
    }

    /** flyToLocation: recentres at zoom 16, and does nothing if the map was never initialized. */
    method FlyToLocation(c: Coord)
      requires Valid()
      modifies this
      ensures Valid()
      ensures !old(initialized) ==> unchanged(this)
      ensures old(initialized) ==> center == c && zoom == 16
      ensures initialized == old(initialized) && layers == old(layers) && resourceMarkers == old(resourceMarkers)
      ensures userMarker == old(userMarker) && nextHandle == old(nextHandle)
    {
      if initialized {
        center := c;
        zoom := 16;
      }
    }

    /** A click on the i-th resource marker: the map flies to it at zoom 15 and the callback, if any, receives its id. */
    method ClickMarker(i: nat) returns (callbackArg: Option<nat>)
      requires Valid()
      requires i < |resourceMarkers|
      modifies this
      ensures Valid()
      ensures callbackArg == Click(old(resourceMarkers[i])).callbackArg
      ensures center == old(resourceMarkers[i]).pos && zoom == 15
      ensures initialized == old(initialized) && layers == old(layers) && resourceMarkers == old(resourceMarkers)
      ensures userMarker == old(userMarker) && nextHandle == old(nextHandle)
    {
      var e := Click(resourceMarkers[i]);
      center := e.flyTo;
      zoom := e.zoom;
      callbackArg := e.callbackArg;
    }
  }
}
