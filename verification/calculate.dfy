/** `handleCalculate` (App.tsx:92-155) with the awaited lookups replaced by the
    collaborators' answers: guards, address completion, quote assembly and the
    history update. */
module Calculation {
  import opened Wrappers
  import opened Types
  import opened Collaborators
  import opened Address
  import opened History
  import opened DraftState

  /** Why a calculation stopped before producing a quote (the three alerts). */
  datatype Abort = MissingAddress | AddressNotFound | NoRoute

  datatype Outcome = Quoted(quote: Quote) | Aborted(reason: Abort)

  /** The session after the handler, and what it produced. */
  datatype Step = Step(next: Session, outcome: Outcome)

  /** Rounds a non-negative magnitude half up to a whole number. */
  function RoundHalfUp(y: real): (n: int)
    ensures y - 0.5 < n as real <= y + 0.5
  {
    (y + 0.5).Floor
  }

  /** A non-negative magnitude rounded half up to a multiple of 0.01. */
  function Cents(y: real): (r: real)
    requires y >= 0.0
    ensures (r * 100.0).Floor as real == r * 100.0
    ensures -0.005 < r - y <= 0.005
    ensures r >= 0.0
  {
    var n := RoundHalfUp(y * 100.0);
    var r := n as real / 100.0;
    assert r * 100.0 == n as real;
    assert y * 100.0 - 0.5 < r * 100.0 <= y * 100.0 + 0.5;
    r
  }

  /** `parseFloat(x.toFixed(2))` on an exact real: the nearest multiple of 0.01, ties
      going away from zero (the magnitude is rounded half up). */
  function ToFixed2(x: real): (r: real)
    ensures (r * 100.0).Floor as real == r * 100.0
    ensures x >= 0.0 ==> -0.005 < r - x <= 0.005
    ensures x < 0.0 ==> -0.005 <= r - x < 0.005
    ensures x >= 0.0 ==> r >= 0.0
  {
    if x >= 0.0 then Cents(x)
    else
      var m := Cents(-x);
      var k := (m * 100.0).Floor;
      assert (-m) * 100.0 == (-k) as real;
      assert ((-k) as real).Floor == -k;
      -m
  }

  /** What the courier collects for the goods (App.tsx:142). */
  function CollectAmount(d: Draft): (c: real)
    ensures d.isItemPaid ==> c == 0.0
    ensures !d.isItemPaid ==> c == d.itemAmount
    ensures d.itemAmount >= 0.0 ==> 0.0 <= c <= d.itemAmount
  {
    if d.isItemPaid then 0.0 else d.itemAmount
  }

  /** The quote literal of App.tsx:127-148, built from the draft, the two located
      endpoints and the route. */
  function BuildQuote(d: Draft, svc: Services, id: string, timestamp: string,
                      origin: Location, dest: Location, route: RouteInfo): (q: Quote)
    ensures q.passesDonBosco == svc.checkPassesDonBosco(route.geometry)
    ensures q.isInSpecialZone == svc.checkSpecialZones(dest)
    ensures q.shippingFee
              == svc.calculateShippingFee(route.distanceKm, d.tariffType, q.passesDonBosco, q.isInSpecialZone)
    ensures q.tariffType == d.tariffType && q.paymentMethod == d.paymentMethod
    ensures q.estimatedTimeMin == svc.estimateTime(route.distanceKm)
    ensures q.distanceKm == ToFixed2(route.distanceKm)
    ensures q.id == id && q.timestamp == timestamp
    ensures q.clientName == d.clientName && q.senderPhone == d.senderPhone
    ensures q.recipientPhone == d.recipientPhone && q.description == d.description
    ensures q.dwellingType == d.dwellingType && q.dwellingDetail == d.dwellingDetail
    ensures q.collectAmount == (if d.isItemPaid then 0.0 else d.itemAmount)
    ensures q.totalToCollect == q.collectAmount + q.shippingFee
    ensures d.itemAmount >= 0.0 ==> q.totalToCollect >= q.shippingFee
    ensures q.paymentType == CollectAtDest
    ensures q.origin == origin && q.destination == dest
  {
    var passes := svc.checkPassesDonBosco(route.geometry);
    var special := svc.checkSpecialZones(dest);
    var fee := svc.calculateShippingFee(route.distanceKm, d.tariffType, passes, special);
    Quote(
      id := id,
      timestamp := timestamp,
      origin := origin,
      destination := dest,
      clientName := d.clientName,
      senderPhone := d.senderPhone,
      recipientPhone := d.recipientPhone,
      description := d.description,
      dwellingType := d.dwellingType,
      dwellingDetail := d.dwellingDetail,
      tariffType := d.tariffType,
      distanceKm := ToFixed2(route.distanceKm),
      shippingFee := fee,
      estimatedTimeMin := svc.estimateTime(route.distanceKm),
      collectAmount := CollectAmount(d),
      paymentType := CollectAtDest,
      paymentMethod := d.paymentMethod,
      totalToCollect := CollectAmount(d) + fee,
      passesDonBosco := passes,
      isInSpecialZone := special)
  }

  /** The located endpoint: the geocoder's coordinates with the completed address. */
  function Locate(hit: GeocodeHit, finalAddr: string): Location {
    Location(hit.lat, hit.lng, Some(finalAddr))
  }

  /** The calculation succeeds exactly when both addresses were typed, both completed
      addresses geocode, and a route joins the two points. */
  predicate Succeeds(d: Draft, svc: Services) {
    && d.originAddr != "" && d.destAddr != ""
    && var fo, fd := Normalize(d.originAddr), Normalize(d.destAddr);
    && svc.geocodeOrigin(fo).Some? && svc.geocodeDestination(fd).Some?
    && svc.getRouteData(Locate(svc.geocodeOrigin(fo).value, fo),
                        Locate(svc.geocodeDestination(fd).value, fd)).Some?
  }

  /** `handleCalculate`. `id` and `timestamp` stand for the random identifier and the
      clock reading of App.tsx:128-129. */
  function Calculate(s: Session, svc: Services, id: string, timestamp: string): (r: Step)
    ensures r.outcome.Quoted? <==> Succeeds(s.draft, svc)
    ensures s.draft.originAddr == "" || s.draft.destAddr == "" ==>
              r == Step(s, Aborted(MissingAddress))
    ensures r.outcome.Aborted? ==>
              (r.outcome.reason == MissingAddress <==> s.draft.originAddr == "" || s.draft.destAddr == "")
    ensures s.draft.originAddr != "" && s.draft.destAddr != "" &&
            (svc.geocodeOrigin(Normalize(s.draft.originAddr)).None? ||
             svc.geocodeDestination(Normalize(s.draft.destAddr)).None?) ==>
              r == Step(s, Aborted(AddressNotFound))
    ensures r.outcome.Aborted? ==>
              && r.next.history == s.history
              && r.next.draft.activeQuote == s.draft.activeQuote
              && r.next.draft.routeGeometry == s.draft.routeGeometry
    ensures r.outcome.Quoted? ==>
              && r.next.history == Push(r.outcome.quote, s.history)
              && r.next.draft.activeQuote == Some(r.outcome.quote)
    ensures r.outcome.Quoted? ==>
              var q := r.outcome.quote;
              var routeInfo := svc.getRouteData(q.origin, q.destination);
              && routeInfo.Some?
              && q == BuildQuote(s.draft, svc, id, timestamp, q.origin, q.destination, routeInfo.value)
              && r.next.draft.origin == Some(q.origin)
              && r.next.draft.destination == Some(q.destination)
              && r.next.draft.routeGeometry == Some(routeInfo.value.geometry)
    ensures r.outcome == Aborted(NoRoute) ==>
              var fo, fd := Normalize(s.draft.originAddr), Normalize(s.draft.destAddr);
              && svc.geocodeOrigin(fo).Some? && svc.geocodeDestination(fd).Some?
              && r.next.draft.origin == Some(Locate(svc.geocodeOrigin(fo).value, fo))
              && r.next.draft.destination == Some(Locate(svc.geocodeDestination(fd).value, fd))
              && svc.getRouteData(r.next.draft.origin.value, r.next.draft.destination.value).None?
    ensures r.outcome == Aborted(AddressNotFound) ==> r.next == s
    ensures r.outcome == Aborted(AddressNotFound) ==>
              svc.geocodeOrigin(Normalize(s.draft.originAddr)).None? ||
              svc.geocodeDestination(Normalize(s.draft.destAddr)).None?
    ensures r.outcome.Quoted? ==>
              var fo, fd := Normalize(s.draft.originAddr), Normalize(s.draft.destAddr);
              && svc.geocodeOrigin(fo).Some? && svc.geocodeDestination(fd).Some?
              && r.outcome.quote.origin == Locate(svc.geocodeOrigin(fo).value, fo)
              && r.outcome.quote.destination == Locate(svc.geocodeDestination(fd).value, fd)
    ensures SameInputs(r.next.draft, s.draft) && r.next.showHistory == s.showHistory
  {
    var d := s.draft;
    if d.originAddr == "" || d.destAddr == "" then Step(s, Aborted(MissingAddress))
    else
      var finalOrigin := Normalize(d.originAddr);
      var finalDest := Normalize(d.destAddr);
      var resO := svc.geocodeOrigin(finalOrigin);
      var resD := svc.geocodeDestination(finalDest);
      if resO.None? || resD.None? then Step(s, Aborted(AddressNotFound))
      else
        var origin := Locate(resO.value, finalOrigin);
        var dest := Locate(resD.value, finalDest);
        var located := d.(origin := Some(origin), destination := Some(dest));
        var routeInfo := svc.getRouteData(origin, dest);
        if routeInfo.None? then Step(s.(draft := located), Aborted(NoRoute))
        else
          var route := routeInfo.value;
          var q := BuildQuote(d, svc, id, timestamp, origin, dest, route);
          var next := located.(routeGeometry := Some(route.geometry), activeQuote := Some(q));
          Step(Session(next, Push(q, s.history), s.showHistory), Quoted(q))
  }
}
