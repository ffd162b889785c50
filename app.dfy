/**
 * The view controller of js/app.js: the session state (user location, the
 * resource list, the active filter), the start step, the filter and the
 * render step. DOM nodes are replaced by the list of items the render step
 * leaves in the list container.
 */
module App {
  import opened Wrappers
  import opened Text
  import opened Data
  import opened MapView

  const All: string := "all"

  // ---------------------------------------------------------------------
  // Locating
  // ---------------------------------------------------------------------

  /** The demo location (New York) used when the position cannot be had. */
  const FallbackLocation: Coord := Coord(40.7128, -74.0060)

  const FailedNotice: string := "Location access needed to find nearby help. Defaulting to Demo Location (New York)."
  const UnsupportedNotice: string := "Geolocation not supported. Defaulting to Demo Location."

  /** How the platform's location request ends: no geolocation at all, the error callback (denied, unavailable or timed out), or a position. */
  datatype GeoOutcome = Unsupported | Failed | Located(pos: Coord)

  /** The coordinate the find-help handler starts the app at, and the alert it shows first, if any. */
  function LocateStart(o: GeoOutcome): (r: (Coord, Option<string>))
    ensures o.Located? ==> r.0 == o.pos && r.1 == None
    ensures !o.Located? ==> r.0 == FallbackLocation && r.1.Some?
    ensures o == Failed ==> r.1 == Some(FailedNotice)
    ensures o == Unsupported ==> r.1 == Some(UnsupportedNotice)
  {
    match o
    case Located(pos) => (pos, None)
    case Failed => (FallbackLocation, Some(FailedNotice))
    case Unsupported => (FallbackLocation, Some(UnsupportedNotice))
  }

  // ---------------------------------------------------------------------
  // Distances and ordering
  // ---------------------------------------------------------------------

  /** `allResources.map(res => ({...res, distance: calculateDistance(...)}))`, with distances in tenths of a km. */
  function Annotate(rs: seq<Resource>, user: Coord, dist: (Coord, Coord) -> nat): (out: seq<Resource>)
    ensures |out| == |rs|
    ensures forall i :: 0 <= i < |rs| ==> out[i].distance == dist(user, Coord(rs[i].lat, rs[i].lng))
    ensures forall i :: 0 <= i < |rs| ==> out[i].(distance := rs[i].distance) == rs[i]
  {
    if rs == [] then []
    else [rs[0].(distance := dist(user, Coord(rs[0].lat, rs[0].lng)))] + Annotate(rs[1..], user, dist)
  }

  ghost predicate SortedByDistance(s: seq<Resource>) {
    forall i, j :: 0 <= i < j < |s| ==> s[i].distance <= s[j].distance
  }

  /** Places x before the first element that is not closer than x. */
  function Insert(x: Resource, s: seq<Resource>): (r: seq<Resource>)
    ensures |r| == |s| + 1 && x in r
  {
    if s == [] || x.distance <= s[0].distance then [x] + s
    else [s[0]] + Insert(x, s[1..])
  }

  /**
   * `allResources.sort((a, b) => parseFloat(a.distance) - parseFloat(b.distance))`
   * as a stable insertion sort on the numeric distance (ParseFormatTenths shows
   * that the parse gives back the tenths the string was formatted from).
   */
  function SortByDistance(rs: seq<Resource>): (sorted: seq<Resource>)
    ensures |sorted| == |rs|
  {
    if rs == [] then [] else Insert(rs[0], SortByDistance(rs[1..]))
  }

  lemma {:induction false} InsertMultiset(x: Resource, s: seq<Resource>)
    ensures multiset(Insert(x, s)) == multiset(s) + multiset{x}
    decreases |s|
  {
    if s != [] && x.distance > s[0].distance {
      InsertMultiset(x, s[1..]);
      assert s == [s[0]] + s[1..];
    }
  }
  /** Every element of Insert(x, s[1..]) is at least as far as s[0], when x is farther than s[0]. */
  lemma InsertBound(x: Resource, s: seq<Resource>, t: seq<Resource>)
    requires SortedByDistance(s) && s != [] && x.distance > s[0].distance
    requires multiset(t) == multiset(s[1..]) + multiset{x}
    ensures forall k :: 0 <= k < |t| ==> s[0].distance <= t[k].distance
  {
    forall k | 0 <= k < |t| ensures s[0].distance <= t[k].distance {
      assert t[k] in multiset(t);
      if t[k] != x {
        assert t[k] in s[1..];
        var m :| 0 <= m < |s[1..]| && s[1..][m] == t[k];
        assert s[m + 1] == t[k];
      }
    }
  }
  lemma {:induction false} InsertSorted(x: Resource, s: seq<Resource>)
    requires SortedByDistance(s)
    ensures SortedByDistance(Insert(x, s))
    decreases |s|
  {
    if s == [] || x.distance <= s[0].distance {
      var u := [x] + s;
      forall i, j | 0 <= i < j < |u| ensures u[i].distance <= u[j].distance {
        if i == 0 {
          assert u[j] == s[j - 1];
        } else {
          assert u[i] == s[i - 1] && u[j] == s[j - 1];
        }
      }
    } else {
      var rest := s[1..];
      InsertSorted(x, rest);
      InsertMultiset(x, rest);
      var t := Insert(x, rest);
      InsertBound(x, s, t);
      var u := [s[0]] + t;
      forall i, j | 0 <= i < j < |u| ensures u[i].distance <= u[j].distance {
        if i == 0 {
          assert u[j] == t[j - 1];
        } else {
          assert u[i] == t[i - 1] && u[j] == t[j - 1];
        }
      }
    }
  }
  /** The sorted list is ordered by distance and holds the same resources as the input. */
  lemma {:induction false} SortByDistanceCorrect(rs: seq<Resource>)
    ensures SortedByDistance(SortByDistance(rs))
    ensures multiset(SortByDistance(rs)) == multiset(rs)
    decreases |rs|
  {
    if rs != [] {
      SortByDistanceCorrect(rs[1..]);
      InsertSorted(rs[0], SortByDistance(rs[1..]));
      InsertMultiset(rs[0], SortByDistance(rs[1..]));
      assert rs == [rs[0]] + rs[1..];
    }
  }

  /** Dropping the first resource keeps ids distinct. */
  lemma TailDistinct(s: seq<Resource>)
    requires DistinctIds(s) && s != []
    ensures DistinctIds(s[1..])
  {
    var tail := s[1..];
    forall i, j | 0 <= i < |tail| && 0 <= j < |tail| && i != j ensures tail[i].id != tail[j].id {
      assert tail[i] == s[i + 1] && tail[j] == s[j + 1];
    }
  }

  /** Putting a resource with a new id in front keeps ids distinct. */
  lemma ConsDistinct(x: Resource, s: seq<Resource>)
    requires DistinctIds(s)
    requires forall k :: 0 <= k < |s| ==> s[k].id != x.id
    ensures DistinctIds([x] + s)
  {
    var u := [x] + s;
    forall i, j | 0 <= i < |u| && 0 <= j < |u| && i != j ensures u[i].id != u[j].id {
      if i == 0 {
        assert u[j] == s[j - 1];
      } else if j == 0 {
        assert u[i] == s[i - 1];
      } else {
        assert u[i] == s[i - 1] && u[j] == s[j - 1];
      }
    }
  }

  lemma {:induction false} InsertKeepsDistinct(x: Resource, s: seq<Resource>)
    requires DistinctIds(s)
    requires forall k :: 0 <= k < |s| ==> s[k].id != x.id
    ensures DistinctIds(Insert(x, s))
    decreases |s|
  {
    if s == [] || x.distance <= s[0].distance {
      ConsDistinct(x, s);
    } else {
      var rest := s[1..];
      TailDistinct(s);
      InsertKeepsDistinct(x, rest);
      InsertMultiset(x, rest);
      var t := Insert(x, rest);
      IdsAvoid(s[0], x, rest, t);
      ConsDistinct(s[0], t);
    }
  }

  /** If y's id differs from x's and from every id in rest, it differs from every id of a rearrangement of rest plus x. */
  lemma IdsAvoid(y: Resource, x: Resource, rest: seq<Resource>, t: seq<Resource>)
    requires y.id != x.id
    requires forall k :: 0 <= k < |rest| ==> rest[k].id != y.id
    requires multiset(t) == multiset(rest) + multiset{x}
    ensures forall k :: 0 <= k < |t| ==> t[k].id != y.id
  {
    forall k | 0 <= k < |t| ensures t[k].id != y.id {
      assert t[k] in multiset(t);
      if t[k] != x {
        assert t[k] in rest;
        var m :| 0 <= m < |rest| && rest[m] == t[k];
      }
    }
  }

  /** Sorting never makes two resources share an id. */
  lemma {:induction false} SortKeepsDistinct(rs: seq<Resource>)
    requires DistinctIds(rs)
    ensures DistinctIds(SortByDistance(rs))
    decreases |rs|
  {
    if rs != [] {
      var tail := rs[1..];
      TailDistinct(rs);
      SortKeepsDistinct(tail);
      SortByDistanceCorrect(tail);
      var sorted := SortByDistance(tail);
      forall k | 0 <= k < |sorted| ensures sorted[k].id != rs[0].id {
        assert sorted[k] in multiset(tail);
        var m :| 0 <= m < |tail| && tail[m] == sorted[k];
        assert rs[m + 1] == sorted[k];
      }
      InsertKeepsDistinct(rs[0], sorted);
    }
  }

  // ---------------------------------------------------------------------
  // Filtering
  // ---------------------------------------------------------------------

  /** `allResources.filter(r => r.type === t)` */
  function FilterByType(rs: seq<Resource>, t: string): (r: seq<Resource>)
    ensures |r| <= |rs|
    ensures forall x :: x in r <==> x in rs && x.rtype == t
  {
    if rs == [] then []
    else (if rs[0].rtype == t then [rs[0]] else []) + FilterByType(rs[1..], t)
  }

  /** Filtering a concatenation filters each part and keeps them in order. */
  lemma {:induction false} FilterAppend(a: seq<Resource>, b: seq<Resource>, t: string)
    ensures FilterByType(a + b, t) == FilterByType(a, t) + FilterByType(b, t)
    decreases |a|
  {
    if a != [] {
      assert (a + b)[1..] == a[1..] + b;
      FilterAppend(a[1..], b, t);
    } else {
      assert a + b == b;
    }
  }

  /** A list whose every element has type t passes the filter unchanged. */
  lemma {:induction false} FilterKeepsMatching(rs: seq<Resource>, t: string)
    requires forall x :: x in rs ==> x.rtype == t
    ensures FilterByType(rs, t) == rs
    decreases |rs|
  {
    if rs != [] {
      FilterKeepsMatching(rs[1..], t);
    }
  }

  /** The filter preserves the distance order of what it keeps. */
  lemma {:induction false} FilterKeepsSorted(rs: seq<Resource>, t: string)
    requires SortedByDistance(rs)
    ensures SortedByDistance(FilterByType(rs, t))
    decreases |rs|
  {
    if rs != [] {
      FilterKeepsSorted(rs[1..], t);
      var rest := FilterByType(rs[1..], t);
      forall y | y in rest ensures rs[0].distance <= y.distance {
        var k :| 0 <= k < |rs[1..]| && rs[1..][k] == y;
        assert rs[k + 1] == y;
      }
    }
  }

  /** The filter never makes two resources share an id. */
  lemma {:induction false} FilterKeepsDistinct(rs: seq<Resource>, t: string)
    requires DistinctIds(rs)
    ensures DistinctIds(FilterByType(rs, t))
    decreases |rs|
  {
    if rs != [] {
      var tail := rs[1..];
      TailDistinct(rs);
      FilterKeepsDistinct(tail, t);
      var rest := FilterByType(tail, t);
      if rs[0].rtype == t {
        forall k | 0 <= k < |rest| ensures rest[k].id != rs[0].id {
          assert rest[k] in tail;
          var m :| 0 <= m < |tail| && tail[m] == rest[k];
          assert rs[m + 1] == rest[k];
        }
        ConsDistinct(rs[0], rest);
      }
    }
  }

  /** The subset renderresources displays for the current filter. */
  function Visible(all: seq<Resource>, filter: string): (shown: seq<Resource>)
    ensures filter == All ==> shown == all
    ensures filter != All ==> forall x :: x in shown <==> x in all && x.rtype == filter
    ensures |shown| <= |all|
  {
    if filter == All then all else FilterByType(all, filter)
  }

  /** Whatever the filter, the displayed subset of a list with distinct ids has distinct ids. */
  lemma VisibleKeepsDistinct(all: seq<Resource>, filter: string)
    requires DistinctIds(all)
    ensures DistinctIds(Visible(all, filter))
  {
    if filter != All {
      FilterKeepsDistinct(all, filter);
    }
  }

  // ---------------------------------------------------------------------
  // The list view
  // ---------------------------------------------------------------------

  const NoResourcesText: string := "No resources found nearby."
  const AvailableText: string := "● Available"
  const CriticalText: string := "● Critical / Full"

  datatype Badge = Badge(cssClass: string, text: string)

  /** The availability badge of a card. */
  function BadgeFor(s: Status): (b: Badge)
    ensures b.text == AvailableText <==> s == Available
    ensures s != Available ==> b.text == CriticalText
    ensures b.cssClass == (if s == Available then "status-available" else "status-critical")
  {
    if s == Available then Badge("status-available", AvailableText) else Badge("status-critical", CriticalText)
  }

  /** What one resource card shows. */
  datatype Card = Card(
    domId: string,
    name: string,
    distanceText: string,
    typeLabel: string,
    phone: string,
    badge: Badge,
    bedsText: string)

  /** An entry of the list container: the empty-state message or a card. */
  datatype ListItem = Notice(text: string) | CardItem(card: Card)

  const CardIdPrefix: string := "res-"

  /** The element id `res-${id}` of a resource's card. */
  function CardId(id: nat): (s: string)
    ensures |s| > |CardIdPrefix| && s[..|CardIdPrefix|] == CardIdPrefix
    ensures s[|CardIdPrefix|..] == NatToString(id) && AllDigits(s[|CardIdPrefix|..])
  {
    CardIdPrefix + NatToString(id)
  }

  /** The id a card element id stands for, if it has the `res-<digits>` shape. */
  function ParseCardId(s: string): Option<nat> {
    if |s| > |CardIdPrefix| && s[..|CardIdPrefix|] == CardIdPrefix && AllDigits(s[|CardIdPrefix|..])
    then Some(ParseNat(s[|CardIdPrefix|..]))
    else None
  }

  lemma CardIdRoundTrip(id: nat)
    ensures ParseCardId(CardId(id)) == Some(id)
  {
    var s := CardId(id);
    assert s[..|CardIdPrefix|] == CardIdPrefix;
    assert s[|CardIdPrefix|..] == NatToString(id);
    ParseNatToString(id);
  }

  /** The card renderresources builds for a resource. */
  function CardFor(r: Resource): (c: Card)
    ensures ParseCardId(c.domId) == Some(r.id)
    ensures c.name == r.name && c.phone == r.meta.phone && c.badge == BadgeFor(r.meta.status)
  {
    CardIdRoundTrip(r.id);
    Card(
      CardId(r.id),
      r.name,
      FormatTenths(r.distance) + " km",
      ToUpper(r.rtype),
      r.meta.phone,
      BadgeFor(r.meta.status),
      NatToString(r.meta.beds) + " Beds")
  }

  /** The distance, type and bed texts of a card read back as the resource's distance, type length and bed count. */
  lemma CardTexts(r: Resource)
    ensures |CardFor(r).distanceText| >= 3 && CardFor(r).distanceText[|CardFor(r).distanceText| - 3..] == " km"
    ensures ParseTenths(CardFor(r).distanceText[..|CardFor(r).distanceText| - 3]) == Some(r.distance)
    ensures |CardFor(r).typeLabel| == |r.rtype|
    ensures forall k :: 0 <= k < |r.rtype| ==> CardFor(r).typeLabel[k] == UpperChar(r.rtype[k])
    ensures |CardFor(r).bedsText| >= 5 && CardFor(r).bedsText[|CardFor(r).bedsText| - 5..] == " Beds"
    ensures AllDigits(CardFor(r).bedsText[..|CardFor(r).bedsText| - 5])
    ensures ParseNat(CardFor(r).bedsText[..|CardFor(r).bedsText| - 5]) == r.meta.beds
  {
    ParseFormatTenths(r.distance);
    ParseNatToString(r.meta.beds);
    var c := CardFor(r);
    assert c.distanceText[..|c.distanceText| - 3] == FormatTenths(r.distance);
    assert c.bedsText[..|c.bedsText| - 5] == NatToString(r.meta.beds);
  }

  /** The list container shows exactly the placeholder for an empty subset, else one card per resource, in order. */
  ghost predicate ListShows(items: seq<ListItem>, filtered: seq<Resource>) {
    if filtered == [] then items == [Notice(NoResourcesText)]
    else |items| == |filtered| && forall i :: 0 <= i < |filtered| ==> items[i] == CardItem(CardFor(filtered[i]))
  }

  /** The list part of renderresources: clear the container, then the placeholder or one card per resource. */
  method BuildList(filtered: seq<Resource>) returns (items: seq<ListItem>)
    ensures filtered == [] ==> items == [Notice(NoResourcesText)]
    ensures filtered != [] ==> |items| == |filtered|
    ensures forall i :: 0 <= i < |filtered| ==> items[i] == CardItem(CardFor(filtered[i]))
  {
    items := [];
    if |filtered| == 0 {
      items := [Notice(NoResourcesText)];
      return;
    }
    for i := 0 to |filtered|
      invariant |items| == i
      invariant forall k :: 0 <= k < i ==> items[k] == CardItem(CardFor(filtered[k]))
    {
      var card := CardFor(filtered[i]);
      items := items + [CardItem(card)];
    }
  }

  /** Distinct resource ids give distinct card element ids, so each card id names one card. */
  lemma CardIdsDistinct(filtered: seq<Resource>)
    requires DistinctIds(filtered)
    ensures forall i, j :: 0 <= i < |filtered| && 0 <= j < |filtered| && i != j ==>
      CardFor(filtered[i]).domId != CardFor(filtered[j]).domId
  {
    forall i, j | 0 <= i < |filtered| && 0 <= j < |filtered| && i != j
      ensures CardFor(filtered[i]).domId != CardFor(filtered[j]).domId
    {
      CardIdRoundTrip(filtered[i].id);
      CardIdRoundTrip(filtered[j].id);
    }
  }

  /** `document.getElementById(key)` over the rendered items: the index of the first card with that element id. */
  function FindCard(items: seq<ListItem>, key: string): (r: Option<nat>)
    ensures r.Some? ==> r.value < |items| && items[r.value].CardItem? && items[r.value].card.domId == key
    ensures r.Some? ==> forall k :: 0 <= k < r.value ==> !(items[k].CardItem? && items[k].card.domId == key)
    ensures r.None? ==> forall k :: 0 <= k < |items| ==> !(items[k].CardItem? && items[k].card.domId == key)
  {
    if items == [] then None
    else if items[0].CardItem? && items[0].card.domId == key then Some(0)
    else match FindCard(items[1..], key)
      case None => None
      case Some(k) => Some(k + 1)
  }

  /** The element id a marker click looks up, `res-${id}`, finds the card of that very resource. */
  lemma MarkerFindsItsCard(items: seq<ListItem>, filtered: seq<Resource>, i: nat)
    requires ListShows(items, filtered)
    requires DistinctIds(filtered)
    requires i < |filtered|
    ensures FindCard(items, CardId(filtered[i].id)) == Some(i)
  {
    CardIdsDistinct(filtered);
    var r := FindCard(items, CardId(filtered[i].id));
    assert items[i].CardItem? && items[i].card.domId == CardId(filtered[i].id);
  }

  // ---------------------------------------------------------------------
  // The session
  // ---------------------------------------------------------------------

  class Session {
    var userLocation: Coord
    var allResources: seq<Resource>
    var currentFilter: string
    /** What the resource-list container shows. */
    var listView: seq<ListItem>
    /** The state of js/map.js. */
    const mapView: MapState

    ghost predicate Valid()
      reads this, mapView
    {
      mapView.Valid() && (allResources != [] ==> mapView.initialized)
    }

    /** The module-level initial values of app.js and map.js. */
    constructor ()
      ensures Valid() && fresh(mapView)
      ensures userLocation == Coord(0.0, 0.0) && allResources == [] && currentFilter == All && listView == []
      ensures !mapView.initialized && mapView.resourceMarkers == []
    {
      userLocation := Coord(0.0, 0.0);
      allResources := [];
      currentFilter := All;
      listView := [];
      mapView := new MapState();
    }

    /** renderresources: the markers and the list both show exactly the filtered subset. */
    method Render()
      requires Valid()
      modifies this`listView, mapView
      ensures Valid()
      ensures ListShows(listView, Visible(allResources, currentFilter))
      ensures |mapView.resourceMarkers| == |Visible(allResources, currentFilter)|
      ensures forall i :: 0 <= i < |mapView.resourceMarkers| ==>
        mapView.resourceMarkers[i] == MarkerFor(old(mapView.nextHandle) + i, Visible(allResources, currentFilter)[i], true)
      ensures forall m :: m in old(mapView.resourceMarkers) ==> m.handle !in mapView.layers
      ensures mapView.initialized == old(mapView.initialized) && mapView.userMarker == old(mapView.userMarker)
      ensures mapView.center == old(mapView.center) && mapView.zoom == old(mapView.zoom)
    {
      var filtered := Visible(allResources, currentFilter);
      if filtered != [] {
        assert filtered[0] in allResources;
      }
      mapView.AddResourceMarkers(filtered, true);
      listView := BuildList(filtered);
    }

    /** The filter buttons' handler: set the filter and render again. */
    method SetFilter(f: string)
      requires Valid()
      modifies this`currentFilter, this`listView, mapView
      ensures Valid()
      ensures currentFilter == f
      ensures allResources == old(allResources) && userLocation == old(userLocation)
      ensures ListShows(listView, Visible(allResources, f))
      ensures |mapView.resourceMarkers| == |Visible(allResources, f)|
      ensures forall i :: 0 <= i < |mapView.resourceMarkers| ==>
        mapView.resourceMarkers[i] == MarkerFor(old(mapView.nextHandle) + i, Visible(allResources, f)[i], true)
      ensures forall m :: m in old(mapView.resourceMarkers) ==> m.handle !in mapView.layers
    {
      currentFilter := f;
      Render();
    }

    /**
     * startApp, with the 500 ms timer run at once: record the location, set up
     * the map, generate, annotate and sort the resources, and render.
     */
    method StartApp(c: Coord, draws: seq<Draw>, dist: (Coord, Coord) -> nat)
      requires Valid()
      requires ValidDraws(draws)
      modifies this, mapView
      ensures Valid()
      ensures userLocation == c && currentFilter == old(currentFilter)
      ensures mapView.initialized
      ensures !old(mapView.initialized) ==> mapView.center == c
      ensures old(mapView.initialized) ==> mapView.center == old(mapView.center) && mapView.zoom == old(mapView.zoom)
      ensures allResources == StartList(c, draws, dist)
      ensures ListShows(listView, Visible(allResources, currentFilter))
      ensures |mapView.resourceMarkers| == |Visible(allResources, currentFilter)|
      ensures forall i :: 0 <= i < |mapView.resourceMarkers| ==>
        mapView.resourceMarkers[i] == MarkerFor(mapView.resourceMarkers[i].handle, Visible(allResources, currentFilter)[i], true)
      ensures forall m :: m in old(mapView.resourceMarkers) ==> m.handle !in mapView.layers
    {
      userLocation := c;
      mapView.InitMap(c);
      var generated := GenerateResources(c, draws);
      var annotated := Annotate(generated, c, dist);
      allResources := SortByDistance(annotated);
      Render();
    }

    /** A click on the i-th card of the list: the map flies to that resource, if it exists. */
    method SelectCard(i: nat)
      requires Valid()
      requires i < |Visible(allResources, currentFilter)|
      modifies mapView
      ensures Valid()
      ensures mapView.initialized ==> mapView.center == Coord(Visible(allResources, currentFilter)[i].lat, Visible(allResources, currentFilter)[i].lng) && mapView.zoom == 16
      ensures !mapView.initialized ==> unchanged(mapView)
      ensures mapView.resourceMarkers == old(mapView.resourceMarkers) && mapView.layers == old(mapView.layers)
    {
      var r := Visible(allResources, currentFilter)[i];
      mapView.FlyToLocation(Coord(r.lat, r.lng));
    }

    /** The find-help handler: start at the reported position, or at the fallback after an alert. */
    method FindHelp(o: GeoOutcome, draws: seq<Draw>, dist: (Coord, Coord) -> nat) returns (alert: Option<string>)
      requires Valid()
      requires ValidDraws(draws)
      modifies this, mapView
      ensures Valid()
      ensures alert == LocateStart(o).1
      ensures userLocation == LocateStart(o).0
      ensures !o.Located? ==> userLocation == FallbackLocation && alert.Some?
      ensures currentFilter == old(currentFilter) && mapView.initialized
      ensures !old(mapView.initialized) ==> mapView.center == LocateStart(o).0
      ensures old(mapView.initialized) ==> mapView.center == old(mapView.center) && mapView.zoom == old(mapView.zoom)
      ensures allResources == StartList(userLocation, draws, dist)
      ensures ListShows(listView, Visible(allResources, currentFilter))
      ensures |mapView.resourceMarkers| == |Visible(allResources, currentFilter)|
      ensures forall i :: 0 <= i < |mapView.resourceMarkers| ==>
        mapView.resourceMarkers[i] == MarkerFor(mapView.resourceMarkers[i].handle, Visible(allResources, currentFilter)[i], true)
      ensures forall m :: m in old(mapView.resourceMarkers) ==> m.handle !in mapView.layers
    {
      var start := LocateStart(o);
      alert := start.1;
      StartApp(start.0, draws, dist);
    }
  }

  /** The list the start step leaves, as a value. */
  function StartList(c: Coord, draws: seq<Draw>, dist: (Coord, Coord) -> nat): (rs: seq<Resource>)
    requires ValidDraws(draws)
    ensures |rs| == Count
  {
    SortByDistance(Annotate(Batch(c, draws), c, dist))
  }

  /** The list the start step leaves: 15 resources with distinct ids, a rearrangement of the annotated batch, ordered by distance. */
  lemma StartedList(c: Coord, draws: seq<Draw>, dist: (Coord, Coord) -> nat)
    requires ValidDraws(draws)
    ensures SortedByDistance(StartList(c, draws, dist))
    ensures multiset(StartList(c, draws, dist)) == multiset(Annotate(Batch(c, draws), c, dist))
    ensures |StartList(c, draws, dist)| == Count
    ensures DistinctIds(StartList(c, draws, dist))
  {
    var annotated := Annotate(Batch(c, draws), c, dist);
    var sorted := SortByDistance(annotated);
    SortByDistanceCorrect(annotated);
    BatchWellFormed(c, draws);
    AnnotateKeepsDistinct(Batch(c, draws), c, dist);
    SortKeepsDistinct(annotated);
    assert |sorted| == |multiset(sorted)| == |annotated|;
  }

  /** After the start step, whatever the filter, the id a marker click passes finds the card of that same resource. */
  lemma StartedMarkerFindsItsCard(c: Coord, draws: seq<Draw>, dist: (Coord, Coord) -> nat, filter: string, items: seq<ListItem>, i: nat)
    requires ValidDraws(draws)
    requires ListShows(items, Visible(StartList(c, draws, dist), filter))
    requires i < |Visible(StartList(c, draws, dist), filter)|
    ensures FindCard(items, CardId(Visible(StartList(c, draws, dist), filter)[i].id)) == Some(i)
  {
    StartedList(c, draws, dist);
    VisibleKeepsDistinct(StartList(c, draws, dist), filter);
    MarkerFindsItsCard(items, Visible(StartList(c, draws, dist), filter), i);
  }

  lemma AnnotateKeepsDistinct(rs: seq<Resource>, user: Coord, dist: (Coord, Coord) -> nat)
    requires DistinctIds(rs)
    ensures DistinctIds(Annotate(rs, user, dist))
  {
    var out := Annotate(rs, user, dist);
    forall i, j | 0 <= i < |out| && 0 <= j < |out| && i != j ensures out[i].id != out[j].id {
      assert out[i].id == out[i].(distance := rs[i].distance).id == rs[i].id;
      assert out[j].id == out[j].(distance := rs[j].distance).id == rs[j].id;
    }
  }

  /** Switching to a type and back to 'all' shows the full list again and leaves the resources as they were. */
  method FilterRoundTrip(s: Session, t: string)
    requires s.Valid()
    modifies s`currentFilter, s`listView, s.mapView
    ensures s.Valid()
    ensures s.allResources == old(s.allResources) && s.currentFilter == All
    ensures ListShows(s.listView, old(s.allResources))
    ensures |s.mapView.resourceMarkers| == |old(s.allResources)|
    ensures forall i :: 0 <= i < |s.mapView.resourceMarkers| ==>
      s.mapView.resourceMarkers[i] == MarkerFor(s.mapView.resourceMarkers[i].handle, old(s.allResources)[i], true)
  {
    s.SetFilter(t);
    s.SetFilter(All);
  }
}
