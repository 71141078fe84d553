/**
 * The route-optimization view: a list of routes whose status and score are changed
 * by id (assign, reset) or all at once (optimize), the route currently shown, and
 * the map markers built from its points.
 *
 * `Math.random()` draws are parameters: one `Draw` per route, each value in [0, 1).
 */
module RouteOptimization {
  import opened Wrappers
  import Records
  import GoogleMap

  datatype PointKind = Pickup | DeliveryStop | Warehouse

  datatype Priority = Low | Medium | High

  datatype RoutePoint = RoutePoint(
    id: string,
    address: string,
    lat: real,
    lng: real,
    kind: PointKind,
    priority: Priority,
    timeWindow: Option<string>,
    estimatedTime: Option<int>)

  datatype RouteStatus = Draft | Optimizing | Optimized | Assigned

  datatype OptimizedRoute = OptimizedRoute(
    id: string,
    driverId: string,
    driverName: string,
    points: seq<RoutePoint>,
    totalDistance: real,
    estimatedDuration: int,
    optimizationScore: real,
    status: RouteStatus)

  /** The three `Math.random()` values the optimizer draws for one route. */
  datatype Draw = Draw(score: real, distance: real, duration: real)

  /** The per-route buttons: Assign and Reset. */
  datatype RouteAction = Assign | Reset

  const MaxScore: real := 100.0
  const ResetScore: real := 75.0

  predicate InUnitInterval(x: real) {
    0.0 <= x < 1.0
  }

  predicate ValidDraw(d: Draw) {
    InUnitInterval(d.score) && InUnitInterval(d.distance) && InUnitInterval(d.duration)
  }

  /** `Math.min(score + random * 10, 100)`. */
  function OptimizedScore(score: real, draw: real): (r: real)
    ensures r <= MaxScore && r <= score + draw * 10.0
    ensures r == MaxScore || r == score + draw * 10.0
  {
    var raised := score + draw * 10.0;
    if raised <= MaxScore then raised else MaxScore
  }

  /** The optimized score never exceeds 100 and never falls below a score that was at most 100. */
  lemma ScoreCapped(score: real, draw: real)
    requires InUnitInterval(draw)
    ensures OptimizedScore(score, draw) <= MaxScore
    ensures score <= MaxScore ==> score <= OptimizedScore(score, draw)
    ensures OptimizedScore(score, draw) < score + 10.0
  {
  }

  /** The factor the distance is multiplied by: `0.9 + random * 0.1`. */
  function DistanceFactor(d: Draw): (r: real)
    requires ValidDraw(d)
    ensures 0.9 <= r < 1.0
  {
    0.9 + d.distance * 0.1
  }

  /** The factor the duration is multiplied by before rounding down: `0.85 + random * 0.15`. */
  function DurationFactor(d: Draw): (r: real)
    requires ValidDraw(d)
    ensures 0.85 <= r < 1.0
  {
    0.85 + d.duration * 0.15
  }

  /** One route after optimization: a higher score, a shorter distance and duration, status `optimized`. */
  function OptimizeOne(route: OptimizedRoute, d: Draw): (r: OptimizedRoute)
    requires ValidDraw(d)
    ensures r.status == Optimized
    ensures r == route.(optimizationScore := r.optimizationScore, totalDistance := r.totalDistance,
                        estimatedDuration := r.estimatedDuration, status := Optimized)
  {
    route.(
      optimizationScore := OptimizedScore(route.optimizationScore, d.score),
      totalDistance := route.totalDistance * DistanceFactor(d),
      estimatedDuration := ((route.estimatedDuration as real) * DurationFactor(d)).Floor,
      status := Optimized)
  }

  /** Optimizing never lengthens a route, and a non-negative distance stays non-negative. */
  lemma DistanceShrinks(route: OptimizedRoute, d: Draw)
    requires ValidDraw(d) && route.totalDistance >= 0.0
    ensures 0.0 <= OptimizeOne(route, d).totalDistance <= route.totalDistance
  {
    var f := DistanceFactor(d);
    ScaledDown(route.totalDistance, f);
    calc {
      OptimizeOne(route, d).totalDistance;
    ==
      route.totalDistance * f;
    <=
      route.totalDistance;
    }
  }

  /** Optimizing never lengthens the estimated duration, and a non-negative one stays non-negative. */
  lemma DurationShrinks(route: OptimizedRoute, d: Draw)
    requires ValidDraw(d) && route.estimatedDuration >= 0
    ensures 0 <= OptimizeOne(route, d).estimatedDuration <= route.estimatedDuration
  {
    var g := DurationFactor(d);
    FloorOfScaled(route.estimatedDuration, g);
    calc {
      OptimizeOne(route, d).estimatedDuration;
    ==
      ((route.estimatedDuration as real) * g).Floor;
    <=
      route.estimatedDuration;
    }
  }

  /** Rounding down a count scaled by a factor in [0, 1] stays between 0 and the count. */
  lemma FloorOfScaled(n: int, g: real)
    requires 0 <= n && 0.0 <= g <= 1.0
    ensures 0 <= ((n as real) * g).Floor <= n
  {
    var y := (n as real) * g;
    ScaledDown(n as real, g);
    assert 0.0 <= y <= n as real;
  }

  lemma ScaledDown(x: real, f: real)
    requires 0.0 <= x && 0.0 <= f <= 1.0
    ensures 0.0 <= x * f <= x
  {
    assert x - x * f == x * (1.0 - f);
  }

  /** The optimization timeout: every route rebuilt from its own draw. */
  function OptimizeAll(routes: seq<OptimizedRoute>, draws: seq<Draw>): (r: seq<OptimizedRoute>)
    requires |draws| == |routes|
    requires forall i :: 0 <= i < |draws| ==> ValidDraw(draws[i])
    ensures |r| == |routes|
    ensures forall i :: 0 <= i < |routes| ==> r[i] == OptimizeOne(routes[i], draws[i])
  {
    if routes == [] then []
    else [OptimizeOne(routes[0], draws[0])] + OptimizeAll(routes[1..], draws[1..])
  }

  /**
   * After optimization every route is `optimized` with its id, driver and points
   * unchanged, and no score exceeds 100.
   */
  lemma OptimizeAllEffects(routes: seq<OptimizedRoute>, draws: seq<Draw>)
    requires |draws| == |routes|
    requires forall i :: 0 <= i < |draws| ==> ValidDraw(draws[i])
    ensures forall i :: 0 <= i < |routes| ==>
              var r := OptimizeAll(routes, draws)[i];
              && r.status == Optimized
              && r.id == routes[i].id && r.driverId == routes[i].driverId
              && r.driverName == routes[i].driverName && r.points == routes[i].points
              && r.optimizationScore <= MaxScore
              && (routes[i].optimizationScore <= MaxScore ==> routes[i].optimizationScore <= r.optimizationScore)
  {
    forall i | 0 <= i < |routes|
      ensures OptimizeAll(routes, draws)[i].optimizationScore <= MaxScore
      ensures routes[i].optimizationScore <= MaxScore ==>
                routes[i].optimizationScore <= OptimizeAll(routes, draws)[i].optimizationScore
    {
      ScoreCapped(routes[i].optimizationScore, draws[i].score);
    }
  }

  /** `handleAssignRoute(id)`. */
  function AssignRoute(routes: seq<OptimizedRoute>, id: string): (r: seq<OptimizedRoute>)
    ensures |r| == |routes|
    ensures forall i :: 0 <= i < |routes| && routes[i].id == id ==> r[i] == routes[i].(status := Assigned)
    ensures forall i :: 0 <= i < |routes| && routes[i].id != id ==> r[i] == routes[i]
  {
    Records.MapWhere(routes, (x: OptimizedRoute) => x.id == id, (x: OptimizedRoute) => x.(status := Assigned))
  }

  /** `handleResetRoute(id)`. */
  function ResetRoute(routes: seq<OptimizedRoute>, id: string): (r: seq<OptimizedRoute>)
    ensures |r| == |routes|
    ensures forall i :: 0 <= i < |routes| && routes[i].id == id ==>
              r[i] == routes[i].(status := Draft, optimizationScore := ResetScore)
    ensures forall i :: 0 <= i < |routes| && routes[i].id != id ==> r[i] == routes[i]
  {
    Records.MapWhere(routes, (x: OptimizedRoute) => x.id == id,
      (x: OptimizedRoute) => x.(status := Draft, optimizationScore := ResetScore))
  }

  /** A reset keeps a route's points, distance, duration and driver; only status and score change. */
  lemma ResetKeepsPlan(routes: seq<OptimizedRoute>, id: string)
    ensures forall i :: 0 <= i < |routes| ==>
              var r := ResetRoute(routes, id)[i];
              && r.id == routes[i].id && r.points == routes[i].points
              && r.totalDistance == routes[i].totalDistance
              && r.estimatedDuration == routes[i].estimatedDuration
              && r.driverId == routes[i].driverId && r.driverName == routes[i].driverName
              && (routes[i].id == id ==> r.status == Draft && r.optimizationScore == ResetScore)
  {
  }

  /** The buttons a route card renders for a status. */
  function RouteActions(s: RouteStatus): set<RouteAction> {
    (if s == Optimized then {Assign} else {}) + (if s != Draft then {Reset} else {})
  }

  /** The per-route buttons follow the status: assign only when optimized, reset unless a draft. */
  lemma RouteButtonGuards(s: RouteStatus)
    ensures Assign in RouteActions(s) <==> s == Optimized
    ensures Reset in RouteActions(s) <==> s != Draft
  {
  }

  /** `routes.find(r => r.id === id)`: the first route with that id. */
  function FindRoute(routes: seq<OptimizedRoute>, id: string): (r: Option<OptimizedRoute>)
    ensures r.Some? <==> exists i :: 0 <= i < |routes| && routes[i].id == id
    ensures r.Some? ==> exists i :: 0 <= i < |routes| && routes[i] == r.value &&
                          r.value.id == id && forall j :: 0 <= j < i ==> routes[j].id != id
  {
    if routes == [] then None
    else if routes[0].id == id then Some(routes[0])
    else
      var rest := FindRoute(routes[1..], id);
      assert forall i :: 1 <= i < |routes| ==> routes[i] == routes[1..][i - 1];
      rest
  }

  /** `selectedRoute ? routes.find(...) : routes[0]`; the empty id is falsy like no selection. */
  function SelectedRouteData(routes: seq<OptimizedRoute>, selected: Option<string>): (r: Option<OptimizedRoute>)
    ensures selected.Some? && selected.value != "" ==> r == FindRoute(routes, selected.value)
    ensures (selected.None? || selected.value == "") && routes != [] ==> r == Some(routes[0])
    ensures (selected.None? || selected.value == "") && routes == [] ==> r == None
  {
    if selected.Some? && selected.value != "" then FindRoute(routes, selected.value)
    else if |routes| > 0 then Some(routes[0])
    else None
  }

  function PointKindName(k: PointKind): string {
    match k
    case Pickup => "pickup"
    case DeliveryStop => "delivery"
    case Warehouse => "warehouse"
  }

  function PriorityName(p: Priority): string {
    match p
    case Low => "low"
    case Medium => "medium"
    case High => "high"
  }

  /** One point as a map marker. */
  function PointMarker(p: RoutePoint): (r: GoogleMap.MapMarker)
    ensures r.id == p.id && r.lat == p.lat && r.lng == p.lng && r.title == p.address
    ensures r.kind == GoogleMap.Warehouse <==> p.kind == Warehouse
    ensures r.kind == GoogleMap.Delivery <==> p.kind != Warehouse
    ensures r.status == Some(PriorityName(p.priority))
  {
    GoogleMap.MapMarker(
      p.id, p.lat, p.lng,
      if p.kind == Warehouse then GoogleMap.Warehouse else GoogleMap.Delivery,
      p.address,
      Some(PriorityName(p.priority)),
      Some(PointKindName(p.kind) + " - " + PriorityName(p.priority) + " priority"),
      None, None)
  }

  /** `mapMarkers`: one marker per point of the shown route, in point order; none without a route. */
  function MapMarkers(shown: Option<OptimizedRoute>): (r: seq<GoogleMap.MapMarker>)
    ensures shown.None? ==> r == []
    ensures shown.Some? ==> |r| == |shown.value.points|
    ensures shown.Some? ==> forall i :: 0 <= i < |r| ==>
              var p := shown.value.points[i];
              && r[i].id == p.id && r[i].lat == p.lat && r[i].lng == p.lng && r[i].title == p.address
              && (r[i].kind == GoogleMap.Warehouse <==> p.kind == Warehouse)
              && (r[i].kind == GoogleMap.Delivery <==> p.kind != Warehouse)
  {
    if shown.None? then []
    else seq(|shown.value.points|, i requires 0 <= i < |shown.value.points| => PointMarker(shown.value.points[i]))
  }

  /**
   * A route marker carries the point's priority as its status, which is never
   * `pending`: with the map's colour rule every marker of a route is blue.
   */
  lemma RouteMarkersAreBlue(shown: Option<OptimizedRoute>)
    ensures forall m :: m in MapMarkers(shown) ==> GoogleMap.MarkerColor(m.kind, m.status) == GoogleMap.Blue
  {
    forall m | m in MapMarkers(shown)
      ensures GoogleMap.MarkerColor(m.kind, m.status) == GoogleMap.Blue
    {
      var i :| 0 <= i < |MapMarkers(shown)| && MapMarkers(shown)[i] == m;
      var p := shown.value.points[i];
      assert m == PointMarker(p);
      assert PriorityName(p.priority) != "pending" by {
        assert PriorityName(p.priority)[0] != 'p';
      }
    }
  }

  /** The two routes the view starts with. */
  function InitialRoutes(): seq<OptimizedRoute> {
    [
      OptimizedRoute("ROUTE-001", "DRV-001", "Mike Wilson",
        [
          RoutePoint("P1", "Warehouse A", 40.7128, -74.0060, Warehouse, High, None, None),
          RoutePoint("P2", "123 Main St", 40.7282, -73.7949, DeliveryStop, High, Some("9:00-11:00"), None),
          RoutePoint("P3", "456 Oak Ave", 40.7614, -73.9776, DeliveryStop, Medium, Some("11:00-13:00"), None),
          RoutePoint("P4", "789 Pine Rd", 40.6782, -73.9442, DeliveryStop, Low, Some("13:00-15:00"), None)
        ],
        45.2, 180, 94.0, Optimized),
      OptimizedRoute("ROUTE-002", "DRV-002", "Lisa Chen",
        [
          RoutePoint("P5", "Warehouse B", 40.7589, -73.9851, Warehouse, High, None, None),
          RoutePoint("P6", "321 Elm St", 40.7505, -73.9934, Pickup, High, Some("8:00-10:00"), None),
          RoutePoint("P7", "654 Maple Dr", 40.7831, -73.9712, DeliveryStop, Medium, Some("10:00-12:00"), None)
        ],
        28.7, 120, 89.0, Assigned)
    ]
  }

  class RouteOptimizationView {
    var routes: seq<OptimizedRoute>
    var selectedRoute: Option<string>
    var isOptimizing: bool

    constructor ()
      ensures routes == InitialRoutes() && selectedRoute == None && !isOptimizing
    {
      routes := InitialRoutes();
      selectedRoute := None;
      isOptimizing := false;
    }

    /** `handleOptimizeRoutes`, first half: mark the run in progress and start the timer. */
    method StartOptimization()
      modifies this`isOptimizing
      ensures isOptimizing
    {
      isOptimizing := true;
    }

    /** `handleOptimizeRoutes`, the timer callback: rebuild every route, then stop. */
    method FinishOptimization(draws: seq<Draw>)
      requires |draws| == |routes|
      requires forall i :: 0 <= i < |draws| ==> ValidDraw(draws[i])
      modifies this`routes, this`isOptimizing
      ensures routes == OptimizeAll(old(routes), draws) && !isOptimizing
    {
      routes := OptimizeAll(routes, draws);
      isOptimizing := false;
    }

    method AssignRouteById(id: string)
      modifies this`routes
      ensures routes == AssignRoute(old(routes), id)
    {
      routes := AssignRoute(routes, id);
    }

    method ResetRouteById(id: string)
      modifies this`routes
      ensures routes == ResetRoute(old(routes), id)
    {
      routes := ResetRoute(routes, id);
    }

    /** Clicking a route card selects it. */
    method SelectRoute(id: string)
      modifies this`selectedRoute
      ensures selectedRoute == Some(id)
    {
      selectedRoute := Some(id);
    }
  }
}
