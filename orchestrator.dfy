/** The page's orchestration state and its event handlers: the location
    callback, the three buttons, the search and route replies and the
    selection prompt's navigate button. */
module Orchestration {

  import opened Wrappers
  import opened Layers
  import opened Messages
  import opened Places
  import opened Selectors

  const GeolocationUnsupported := "\U{274C} Geolocation is not supported by this browser."
  const LocationDeniedAlert := "\U{274C} Location access denied! Enable location to see nearby places."
  const YouAreHere := "\U{1F4CD} You are here"
  const SosNeedsLocation := "\U{274C} Location not available! Enable location services."
  const SosConfirmation := "\U{1F6A8} SOS Activated! Live location sent to Police & Ambulance via WhatsApp."
  const SearchNeedsLocation := "\U{274C} Location not available! Please enable location services."
  const SearchError := "\U{274C} Error fetching nearby locations. Try again later."
  const RouteNeedsLocation := "\U{274C} Cannot calculate route without location access."
  const NoRouteFound := "\U{274C} No available route found."
  const RouteShown := "\U{1F697} Route displayed! Follow the blue line to reach your destination."
  const RouteError := "\U{274C} Error calculating the route. Try again later."

  function NoneFound(amenity: string): string
  {
    "\U{274C} No nearby " + amenity + "s found within 25 km."
  }

  /** A decoded geodata reply: the request or its JSON failed, the JSON has
      no `elements` list, or the list of elements. */
  datatype SearchReply = SearchFailed | NoElementList | Elements(elements: seq<Element>)

  /** A decoded routing reply: the request or its JSON failed (a reply
      without a `routes` list fails the same way), or the routes' geometries. */
  datatype RouteReply = RouteFailed | Routes(routes: seq<Geometry>) {
    predicate HasRoute()
    {
      Routes? && |routes| > 0
    }
  }

  /** The elements a parsed search reply gets markers for: all of them, up
      to the first one without tags, where the handler throws. */
  function ShownElements(reply: SearchReply): (els: seq<Element>)
    ensures AllTagged(els)
    ensures reply.Elements? && AllTagged(reply.elements) ==> els == reply.elements
    ensures !reply.Elements? ==> els == []
    ensures reply.Elements? ==> els <= reply.elements
    ensures reply.Elements? && |els| < |reply.elements| ==> reply.elements[|els|].tags.None?
  {
    if reply.Elements? then
      var k := FirstUntagged(reply.elements);
      assert AllTagged(reply.elements) ==> k == |reply.elements|;
      reply.elements[..k]
    else []
  }

  /** What the map holds agrees with the variables: every layer has a
      stamp already handed out, the place markers on the map are exactly
      the tracked markers, the only route line on the map is the tracked
      route, and the position marker is at the stored position. */
  ghost predicate LayersConsistent(userLocation: Option<Coord>, markers: seq<Layer>, routeLayer: Option<Layer>,
                                   mapLayers: set<Layer>, nextStamp: nat)
  {
    && (forall l :: l in mapLayers ==> l.stamp < nextStamp)
    && (forall i :: 0 <= i < |markers| ==> markers[i].kind.PlaceMarker? && markers[i] in mapLayers)
    && (forall l :: l in mapLayers && l.kind.PlaceMarker? ==> l in markers)
    && (forall l :: l in mapLayers && l.kind.RouteLine? ==> routeLayer == Some(l))
    && (forall l :: l in mapLayers && l.kind.UserMarker? ==> userLocation == Some(l.kind.at))
    && (routeLayer.Some? ==> routeLayer.value.kind.RouteLine? && routeLayer.value.stamp < nextStamp)
  }

  /** Every open prompt has a selected entry and only its own handler, and
      prompt ids are unique and already handed out. */
  ghost predicate PromptsConsistent(selectors: seq<Selector>, nextSelectorId: nat)
  {
    && AllWellFormed(selectors) && Owned(selectors)
    && (forall i :: 0 <= i < |selectors| ==> selectors[i].id < nextSelectorId)
  }

  /** Marking places on a cleared map keeps the map consistent. */
  lemma PlacingKeepsConsistent(userLocation: Option<Coord>, routeLayer: Option<Layer>, base: set<Layer>,
                               stamp: nat, placed: seq<Layer>, count: nat)
    requires LayersConsistent(userLocation, [], routeLayer, base, stamp)
    requires forall l :: l in base ==> l.kind.UserMarker?
    requires |placed| == count
    requires forall i :: 0 <= i < count ==>
               placed[i].stamp == stamp + i && placed[i].kind.PlaceMarker?
    ensures LayersConsistent(userLocation, placed, routeLayer, base + (set m | m in placed), stamp + count)
  {
  }

  /** The search handler's `forEach`: a marker and an option per element,
      in element order, until an element without tags makes it throw.
      `count` is the number of elements handled. */
  method MarkElements(els: seq<Element>, emoji: string, amenity: string, stamp: nat)
    returns (placed: seq<Layer>, options: seq<PlaceOption>, count: nat)
    ensures count == FirstUntagged(els)
    ensures placed == PlaceMarkers(els[..count], emoji, amenity, stamp)
    ensures options == PlaceOptions(els[..count], emoji, amenity)
    ensures forall i :: 0 <= i < count ==> placed[i].stamp == stamp + i && placed[i].kind.PlaceMarker?
  {
    placed, options, count := [], [], 0;
    while count < |els| && els[count].tags.Some?
      invariant 0 <= count <= |els|
      invariant AllTagged(els[..count])
      invariant placed == PlaceMarkers(els[..count], emoji, amenity, stamp)
      invariant options == PlaceOptions(els[..count], emoji, amenity)
      invariant forall i :: 0 <= i < count ==> placed[i].stamp == stamp + i && placed[i].kind.PlaceMarker?
    {
      assert AllTagged(els[..count + 1]);
      Extend(els, count, emoji, amenity, stamp);
      placed := placed + [MarkerFor(els[count], emoji, amenity, stamp + count)];
      options := options + [OptionFor(els[count], emoji, amenity)];
      count := count + 1;
    }
  }

  class Orchestrator {
    /** `encodeURIComponent`. */
    const encode: string -> string

    var userLocation: Option<Coord>
    var markers: seq<Layer>
    var routeLayer: Option<Layer>
    /** The layers on the Leaflet map (tiles aside). */
    var mapLayers: set<Layer>
    /** Leaflet's counter for layer stamps. */
    var nextStamp: nat
    /** The open selection prompts, in document order. */
    var selectors: seq<Selector>
    var nextSelectorId: nat

    /** What the page shows or sends: alerts, opened deep links, and the
        destinations it asks the routing service for. */
    var alerts: seq<string>
    var openedLinks: seq<string>
    var routeRequests: seq<Coord>

    /** The single geolocation request is still outstanding. */
    ghost var awaitingLocation: bool

    ghost predicate Valid()
      reads this`userLocation, this`markers, this`routeLayer, this`mapLayers, this`nextStamp
      reads this`selectors, this`nextSelectorId, this`awaitingLocation
    {
      && LayersConsistent(userLocation, markers, routeLayer, mapLayers, nextStamp)
      && PromptsConsistent(selectors, nextSelectorId)
      && (userLocation.None? ==> mapLayers == {} && markers == [] && routeLayer == None && selectors == [])
      && (awaitingLocation ==> userLocation.None?)
    }

    /** Page load: the geolocation request goes out when the browser
        offers geolocation, and an alert says so when it does not. */
    constructor (geolocationSupported: bool, encode: string -> string)
      ensures Valid()
      ensures this.encode == encode && awaitingLocation == geolocationSupported
      ensures userLocation == None && markers == [] && routeLayer == None && selectors == []
      ensures mapLayers == {} && openedLinks == [] && routeRequests == []
      ensures alerts == if geolocationSupported then [] else [GeolocationUnsupported]
    {
      this.encode := encode;
      userLocation := None;
      markers := [];
      routeLayer := None;
      mapLayers := {};
      nextStamp := 0;
      selectors := [];
      nextSelectorId := 0;
      alerts := if geolocationSupported then [] else [GeolocationUnsupported];
      openedLinks := [];
      routeRequests := [];
      awaitingLocation := geolocationSupported;
    }

    /** The geolocation success callback: the position is stored and marked. */
    method LocationGranted(c: Coord)
      requires Valid() && awaitingLocation
      modifies this`userLocation, this`mapLayers, this`nextStamp, this`awaitingLocation
      ensures Valid() && !awaitingLocation
      ensures userLocation == Some(c)
      ensures mapLayers == old(mapLayers) + {Layer(old(nextStamp), UserMarker(c, YouAreHere))}
      ensures nextStamp == old(nextStamp) + 1
    {
      userLocation := Some(c);
      mapLayers := mapLayers + {Layer(nextStamp, UserMarker(c, YouAreHere))};
      nextStamp := nextStamp + 1;
      awaitingLocation := false;
    }

    /** The geolocation error callback: an alert, and no position ever. */
    method LocationDenied()
      requires Valid() && awaitingLocation
      modifies this`alerts, this`awaitingLocation
      ensures Valid() && !awaitingLocation
      ensures alerts == old(alerts) + [LocationDeniedAlert]
    {
      alerts := alerts + [LocationDeniedAlert];
      awaitingLocation := false;
    }

    method SendWhatsAppMessage(number: string, message: string)
      modifies this`openedLinks
      ensures openedLinks == old(openedLinks) + [WhatsAppLink(number, encode(message))]
    {
      openedLinks := openedLinks + [WhatsAppLink(number, encode(message))];
    }

    /** The SOS button. Without a position: one alert and nothing opened.
        With one: the two deep links, police first, then the confirmation. */
    method SendWhatsAppLocation()
      requires Valid()
      modifies this`openedLinks, this`alerts
      ensures Valid()
      ensures userLocation.None? ==>
                alerts == old(alerts) + [SosNeedsLocation] && openedLinks == old(openedLinks)
      ensures userLocation.Some? ==>
                && openedLinks == old(openedLinks) + SosLinks(userLocation.value, encode)
                && alerts == old(alerts) + [SosConfirmation]
    {
      if userLocation.None? {
        alerts := alerts + [SosNeedsLocation];
        return;
      }
      var message := EmergencyMessage(userLocation.value);
      SendWhatsAppMessage(PoliceNumber, message);
      SendWhatsAppMessage(AmbulanceNumber, message);
      alerts := alerts + [SosConfirmation];
    }

    /** Takes every marker and the route line off the map and forgets the
        markers; the route variable keeps its value. */
    method ClearMarkers()
      requires Valid()
      modifies this`markers, this`mapLayers
      ensures Valid()
      ensures markers == []
      ensures mapLayers == old(mapLayers) - (set m | m in old(markers)) - Present(routeLayer)
      ensures forall l :: l in mapLayers ==> l.kind.UserMarker?
    {
      var i := 0;
      while i < |markers|
        invariant 0 <= i <= |markers| && markers == old(markers)
        invariant mapLayers == old(mapLayers) - set j | 0 <= j < i :: markers[j]
      {
        mapLayers := mapLayers - {markers[i]};
        i := i + 1;
      }
      assert (set j | 0 <= j < |markers| :: markers[j]) == set m | m in markers;
      assert forall l :: l in mapLayers ==> l !in markers;
      markers := [];
      if routeLayer.Some? {
        mapLayers := mapLayers - {routeLayer.value};
      }
    }

    /** Opens a prompt listing the options, with its handler bound to
        its own button. */
    method ShowLocationSelector(options: seq<PlaceOption>, amenity: string)
      requires Valid() && |options| > 0 && userLocation.Some?
      modifies this`selectors, this`nextSelectorId
      ensures Valid()
      ensures selectors == Show(old(selectors), Selector(old(nextSelectorId), amenity, options, 0, []))
      ensures nextSelectorId == old(nextSelectorId) + 1
    {
      var s := Selector(nextSelectorId, amenity, options, 0, []);
      ShowKeepsOwned(selectors, s);
      selectors := Show(selectors, s);
      nextSelectorId := nextSelectorId + 1;
    }

    /** The hospital and police buttons, with the reply to their query. */
    method FetchNearbyPlaces(amenity: string, emoji: string, reply: SearchReply)
      requires Valid()
      modifies this`markers, this`mapLayers, this`nextStamp, this`selectors, this`nextSelectorId, this`alerts
      ensures Valid()
      // Refused without a position, and nothing changes when the request fails.
      ensures userLocation.None? || reply.SearchFailed? ==>
                && alerts == old(alerts) + [if userLocation.None? then SearchNeedsLocation else SearchError]
                && markers == old(markers) && mapLayers == old(mapLayers) && nextStamp == old(nextStamp)
                && selectors == old(selectors) && nextSelectorId == old(nextSelectorId)
      // A parsed reply first takes the previous markers and route line off
      // the map, then marks the shown elements, in order, with fresh layers.
      ensures userLocation.Some? && !reply.SearchFailed? ==>
                && (forall m :: m in old(markers) ==> m !in mapLayers)
                && (old(routeLayer).Some? ==> old(routeLayer).value !in mapLayers)
                && markers == PlaceMarkers(ShownElements(reply), emoji, amenity, old(nextStamp))
                && mapLayers == old(mapLayers) - (set m | m in old(markers)) - Present(routeLayer)
                                + (set m | m in markers)
                && nextStamp == old(nextStamp) + |ShownElements(reply)|
      ensures userLocation.Some? && reply.NoElementList? ==> alerts == old(alerts) + [SearchError]
      ensures userLocation.Some? && reply.Elements? ==>
                Rendered(reply.elements, amenity, emoji, old(alerts), old(selectors), old(nextSelectorId))
      ensures !(userLocation.Some? && reply.Elements? && reply.elements != [] && AllTagged(reply.elements)) ==>
                selectors == old(selectors) && nextSelectorId == old(nextSelectorId)
    {
      if userLocation.None? {
        alerts := alerts + [SearchNeedsLocation];
        return;
      }
      if reply.SearchFailed? {
        alerts := alerts + [SearchError];
        return;
      }
      ClearMarkers();
      if reply.NoElementList? {
        alerts := alerts + [SearchError];
        return;
      }
      ShowPlaces(amenity, emoji, reply.elements);
    }

    /** What a reply's element list leads to: a "none found" alert when it
        is empty, an error alert when an element has no tags (the handler
        throws), and otherwise a new prompt listing every element. */
    ghost predicate Rendered(els: seq<Element>, amenity: string, emoji: string,
                             alerts0: seq<string>, selectors0: seq<Selector>, id0: nat)
      reads this
    {
      && (els == [] ==> alerts == alerts0 + [NoneFound(amenity)])
      && (els != [] && !AllTagged(els) ==> alerts == alerts0 + [SearchError])
      && (els != [] && AllTagged(els) ==>
            && alerts == alerts0 && |markers| == |els|
            && selectors == Show(selectors0, Selector(id0, amenity, PlaceOptions(els, emoji, amenity), 0, []))
            && nextSelectorId == id0 + 1)
    }

    /** Puts freshly stamped place markers on a cleared map and records them. */
    method AddMarkers(placed: seq<Layer>)
      requires Valid() && userLocation.Some? && markers == []
      requires forall l :: l in mapLayers ==> l.kind.UserMarker?
      requires forall i :: 0 <= i < |placed| ==> placed[i].stamp == nextStamp + i && placed[i].kind.PlaceMarker?
      modifies this`markers, this`mapLayers, this`nextStamp
      ensures Valid()
      ensures markers == placed && mapLayers == old(mapLayers) + (set m | m in placed)
      ensures nextStamp == old(nextStamp) + |placed|
      ensures forall m :: m in markers ==> m.stamp >= old(nextStamp)
    {
      PlacingKeepsConsistent(userLocation, routeLayer, mapLayers, nextStamp, placed, |placed|);
      markers := placed;
      mapLayers := mapLayers + set m | m in placed;
      nextStamp := nextStamp + |placed|;
    }

    /** The search handler once the map is cleared. */
    method ShowPlaces(amenity: string, emoji: string, els: seq<Element>)
      requires Valid() && userLocation.Some? && markers == []
      requires forall l :: l in mapLayers ==> l.kind.UserMarker?
      modifies this`markers, this`mapLayers, this`nextStamp, this`selectors, this`nextSelectorId, this`alerts
      ensures Valid()
      ensures markers == PlaceMarkers(els[..FirstUntagged(els)], emoji, amenity, old(nextStamp))
      ensures mapLayers == old(mapLayers) + set m | m in markers
      ensures forall m :: m in markers ==> m.stamp >= old(nextStamp)
      ensures nextStamp == old(nextStamp) + FirstUntagged(els)
      ensures Rendered(els, amenity, emoji, old(alerts), old(selectors), old(nextSelectorId))
      ensures !(els != [] && AllTagged(els)) ==> selectors == old(selectors) && nextSelectorId == old(nextSelectorId)
    {
      if |els| == 0 {
        alerts := alerts + [NoneFound(amenity)];
        return;
      }
      var placed, options, count := MarkElements(els, emoji, amenity, nextStamp);
      AddMarkers(placed);
      if count < |els| {
        // Reading `tags.name` of an element without tags throws.
        assert !AllTagged(els) by { assert els[count].tags.None?; }
        alerts := alerts + [SearchError];
        return;
      }
      assert els[..count] == els;
      assert AllTagged(els);
      ShowLocationSelector(options, amenity);
    }

    /** Asks for a route from the user's position to `dest` and handles
        the reply. A drawn route replaces the previous route line. */
    method CalculateShortestRoute(dest: Coord, reply: RouteReply)
      requires Valid()
      modifies this`routeLayer, this`mapLayers, this`nextStamp, this`alerts, this`routeRequests
      ensures Valid()
      ensures userLocation.None? ==>
                && alerts == old(alerts) + [RouteNeedsLocation] && routeRequests == old(routeRequests)
                && routeLayer == old(routeLayer) && mapLayers == old(mapLayers) && nextStamp == old(nextStamp)
      ensures userLocation.Some? ==> routeRequests == old(routeRequests) + [dest]
      ensures userLocation.Some? && !reply.HasRoute() ==>
                && alerts == old(alerts) + [if reply.RouteFailed? then RouteError else NoRouteFound]
                && routeLayer == old(routeLayer) && mapLayers == old(mapLayers) && nextStamp == old(nextStamp)
      ensures userLocation.Some? && reply.HasRoute() ==>
                && routeLayer == Some(Layer(old(nextStamp), RouteLine(reply.routes[0])))
                && mapLayers == old(mapLayers) - Present(old(routeLayer)) + {routeLayer.value}
                && nextStamp == old(nextStamp) + 1
                // Fitting the view to an empty path throws after the line is drawn.
                && alerts == old(alerts) + [if reply.routes[0] == [] then RouteError else RouteShown]
    {
      if userLocation.None? {
        alerts := alerts + [RouteNeedsLocation];
        return;
      }
      routeRequests := routeRequests + [dest];
      match reply
      case RouteFailed =>
        alerts := alerts + [RouteError];
      case Routes(routes) =>
        if |routes| == 0 {
          alerts := alerts + [NoRouteFound];
          return;
        }
        DrawRoute(routes[0]);
        if routes[0] == [] {
          // `fitBounds` rejects the empty bounds of an empty path.
          alerts := alerts + [RouteError];
        } else {
          alerts := alerts + [RouteShown];
        }
    }

    /** Replaces the route line on the map by a fresh one along `path`. */
    method DrawRoute(path: Geometry)
      requires Valid() && userLocation.Some?
      modifies this`routeLayer, this`mapLayers, this`nextStamp
      ensures Valid()
      ensures routeLayer == Some(Layer(old(nextStamp), RouteLine(path)))
      ensures mapLayers == old(mapLayers) - Present(old(routeLayer)) + {routeLayer.value}
      ensures nextStamp == old(nextStamp) + 1
    {
      if routeLayer.Some? {
        mapLayers := mapLayers - {routeLayer.value};
      }
      var line := Layer(nextStamp, RouteLine(path));
      nextStamp := nextStamp + 1;
      routeLayer := Some(line);
      mapLayers := mapLayers + {line};
    }

    /** The user picks entry `j` in the `k`-th prompt's dropdown. */
    method Choose(k: nat, j: nat)
      requires Valid() && k < |selectors| && j < |selectors[k].options|
      modifies this`selectors
      ensures Valid()
      ensures selectors == old(selectors)[k := old(selectors)[k].(choice := j)]
    {
      selectors := selectors[k := selectors[k].(choice := j)];
    }

    /** The navigate button of the `k`-th prompt: a route to the prompt's
        choice, and the prompt closes whatever the route reply is. */
    method Navigate(k: nat, reply: RouteReply)
      requires Valid() && k < |selectors|
      modifies this`selectors, this`routeLayer, this`mapLayers, this`nextStamp, this`alerts, this`routeRequests
      ensures Valid()
      ensures selectors == old(selectors)[..k] + old(selectors)[k + 1..]
      ensures routeRequests == old(routeRequests) + [Selected(old(selectors)[k])]
      ensures !reply.HasRoute() ==>
                && alerts == old(alerts) + [if reply.RouteFailed? then RouteError else NoRouteFound]
                && routeLayer == old(routeLayer) && mapLayers == old(mapLayers) && nextStamp == old(nextStamp)
      ensures reply.HasRoute() ==>
                && routeLayer == Some(Layer(old(nextStamp), RouteLine(reply.routes[0])))
                && mapLayers == old(mapLayers) - Present(old(routeLayer)) + {routeLayer.value}
                && nextStamp == old(nextStamp) + 1
                // Fitting the view to an empty path throws after the line is drawn.
                && alerts == old(alerts) + [if reply.routes[0] == [] then RouteError else RouteShown]
    {
      ClickRoutesOwnChoice(selectors, k);
      RemoveAtKeepsOwned(selectors, k);
      var click := Click(selectors, k);
      CalculateShortestRoute(click.0[0], reply);
      selectors := click.1;
    }

    /** The map never shows more than one route line. */
    lemma AtMostOneRouteLine()
      requires Valid()
      ensures |set l | l in mapLayers && l.kind.RouteLine?| <= 1
    {
      var lines := set l | l in mapLayers && l.kind.RouteLine?;
      if routeLayer.None? {
        assert lines == {};
      } else if routeLayer.value in lines {
        assert lines == {routeLayer.value};
      } else {
        assert lines == {};
      }
    }
  }
}
