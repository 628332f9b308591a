/** The departure-lookup pipeline of next_bus.py: four dependent lookups
    against the NexTrip API (route, direction, stop, departure time), each
    a filter over the endpoint's records followed by a none/one/many
    policy, and the arithmetic that turns a scheduled timestamp into
    "N Min". HTTP is an `Api` value of four functions from URL to response,
    the clock a parameter, and `logging.error` + `sys.exit(1)` a returned
    `Err`. */
module NextBus {
  import opened PyText
  import opened PyInt

  // Endpoint paths appended to the host.
  const RoutePath: string := "/NexTrip/Routes"
  const DirectionPath: string := "/NexTrip/Directions"
  const StopPath: string := "/NexTrip/Stops"
  const TimePath: string := "/NexTrip"

  /** One element of the Routes endpoint (JSON keys Description, ProviderID, Route). */
  datatype Route = Route(description: string, providerId: string, routeId: string)

  /** One element of the Directions or Stops endpoint (JSON keys Text, Value). */
  datatype TextValue = TextValue(text: string, value: string)

  /** One element of the departures endpoint: the fields the program reads
      (JSON keys Actual, DepartureText, DepartureTime). */
  datatype Departure = Departure(actual: bool, departureText: string, departureTime: string)

  /** An HTTP response: its status code and its decoded JSON list. */
  datatype Response<T> = Response(status: int, body: seq<T>)

  /** What `requests.get` answers for each URL, per endpoint. */
  datatype Api = Api(
    routes: string -> Response<Route>,
    directions: string -> Response<TextValue>,
    stops: string -> Response<TextValue>,
    times: string -> Response<Departure>)

  datatype Stage = RouteStage | DirectionStage | StopStage | TimeStage

  /** The stages that select one record by pattern. */
  type MatchStage = s: Stage | !s.TimeStage? witness RouteStage

  /** Python exceptions the code does not catch. */
  datatype Exception = IndexError | ValueError

  datatype Failure =
    | Misbehaved(stage: Stage)
    | NotFound(lookup: MatchStage)
    | Ambiguous(lookup: MatchStage)
    | NoDeparturesRemain
    | Uncaught(exception: Exception)

  datatype Result<T> = Ok(value: T) | Err(failure: Failure) {
    predicate IsFailure() {
      Err?
    }

    function PropagateFailure<U>(): Result<U>
      requires Err?
    {
      Err(failure)
    }

    function Extract(): T
      requires Ok?
    {
      value
    }
  }

  /** The one line written to standard error for each failure: the text
      given to `logging.error`, or the last line of Python's traceback for
      an uncaught exception. */
  function Message(f: Failure): (m: string)
    ensures !f.Uncaught? ==> |m| > 7 && m[..7] == "ERROR: "
    ensures !f.Uncaught? ==> m == "ERROR: " + Logged(f)
  {
    match f
    case Uncaught(IndexError) => "IndexError: list index out of range"
    case Uncaught(ValueError) => "ValueError: invalid literal for int() with base 10"
    case _ =>
      var m := "ERROR: " + Logged(f);
      assert m[..7] == "ERROR: ";
      m
  }

  /** The text after "ERROR: " in each `logging.error` call. */
  function Logged(f: Failure): (l: string)
    requires !f.Uncaught?
    ensures f.Misbehaved? ==> |l| > 20 && l[|l| - 20..] == " endpoint misbehaved"
    ensures f.NotFound? ==> |l| > 10 && l[|l| - 10..] == " not found"
    ensures f.Ambiguous? ==> |l| > 14 && l[..14] == "More than one "
  {
    match f
    case Misbehaved(stage) =>
      var l := Subject(stage) + " endpoint misbehaved";
      assert l[|l| - 20..] == " endpoint misbehaved";
      l
    case NotFound(lookup) =>
      var l := Subject(lookup) + " not found";
      assert l[|l| - 10..] == " not found";
      l
    case Ambiguous(lookup) =>
      var l := "More than one " + AmbiguityDetail(lookup);
      assert l[..14] == "More than one ";
      l
    case NoDeparturesRemain => "No scheduled departures remain"
  }

  /** How the messages name each stage's endpoint. */
  function Subject(stage: Stage): string {
    match stage
    case RouteStage => "Route"
    case DirectionStage => "Direction"
    case StopStage => "Stop"
    case TimeStage => "Time"
  }

  /** The rest of each "More than one ..." message. */
  function AmbiguityDetail(lookup: MatchStage): string {
    match lookup
    case RouteStage => "route found. Please refine route"
    case DirectionStage => "direction matched. Please refine direction"
    case StopStage => "stop matched. Please refine stop"
  }

  // The exact line each stage logs, as next_bus.py writes it.

  lemma RouteLines()
    ensures Logged(Misbehaved(RouteStage)) == "Route" + " endpoint misbehaved"
    ensures Logged(NotFound(RouteStage)) == "Route" + " not found"
    ensures Logged(Ambiguous(RouteStage)) == "More than one " + "route found. Please refine route"
  {
  }

  lemma DirectionLines()
    ensures Logged(Misbehaved(DirectionStage)) == "Direction" + " endpoint misbehaved"
    ensures Logged(NotFound(DirectionStage)) == "Direction" + " not found"
    ensures Logged(Ambiguous(DirectionStage)) == "More than one " + "direction matched. Please refine direction"
  {
  }

  lemma StopLines()
    ensures Logged(Misbehaved(StopStage)) == "Stop" + " endpoint misbehaved"
    ensures Logged(NotFound(StopStage)) == "Stop" + " not found"
    ensures Logged(Ambiguous(StopStage)) == "More than one " + "stop matched. Please refine stop"
  {
  }

  lemma TimeLines()
    ensures Logged(Misbehaved(TimeStage)) == "Time" + " endpoint misbehaved"
    ensures Logged(NoDeparturesRemain) == "No scheduled departures remain"
  {
  }

  // ---------------------------------------------------------------------
  // Selecting one record

  /** Positions of the records the filter keeps. */
  ghost function Hits<T>(s: seq<T>, keep: T -> bool): set<int> {
    set i | 0 <= i < |s| && keep(s[i])
  }

  /** `i` is the one and only position whose record the filter keeps. */
  ghost predicate UniqueHit<T>(s: seq<T>, keep: T -> bool, i: int) {
    0 <= i < |s| && keep(s[i]) && forall j :: 0 <= j < |s| && keep(s[j]) ==> j == i
  }

  /** The list comprehension `[x for x in s if keep(x)]`. */
  function Filter<T>(s: seq<T>, keep: T -> bool): (r: seq<T>)
    ensures forall k :: 0 <= k < |r| ==> r[k] in s && keep(r[k])
    ensures forall i :: 0 <= i < |s| && keep(s[i]) ==> s[i] in r
    ensures |r| == |Hits(s, keep)|
  {
    if s == [] then
      assert Hits(s, keep) == {};
      []
    else
      var n := |s| - 1;
      var init := Filter(s[..n], keep);
      assert s == s[..n] + [s[n]];
      HitsSnoc(s, keep);
      if keep(s[n]) then init + [s[n]] else init
  }

  /** The filter keeps each record at most as often as the input holds it;
      with `|Filter(s, keep)| == |Hits(s, keep)|` this fixes how many copies
      of every kept record the result holds. */
  lemma {:induction false} FilterSubMultiset<T>(s: seq<T>, keep: T -> bool)
    ensures multiset(Filter(s, keep)) <= multiset(s)
  {
    if s != [] {
      var n := |s| - 1;
      FilterSubMultiset(s[..n], keep);
      assert s == s[..n] + [s[n]];
      assert multiset(s) == multiset(s[..n]) + multiset{s[n]};
    }
  }

  /** The last record adds its own position to the hits of the records before it, or nothing. */
  lemma HitsSnoc<T>(s: seq<T>, keep: T -> bool)
    requires |s| > 0
    ensures Hits(s, keep) == Hits(s[..|s| - 1], keep) + (if keep(s[|s| - 1]) then {|s| - 1} else {})
    ensures |s| - 1 !in Hits(s[..|s| - 1], keep)
  {
  }

  /** The policy every lookup applies: a failing status is reported whatever
      the body; otherwise no hit is "not found", two or more hits are
      ambiguous, and a single hit is the record returned. */
  ghost predicate ThreeWay<T>(response: Response<T>, keep: T -> bool, lookup: MatchStage, r: Result<T>) {
    if response.status != 200 then r == Err(Misbehaved(lookup))
    else
      var n := |Hits(response.body, keep)|;
      && (r == Err(NotFound(lookup)) <==> n == 0)
      && (r == Err(Ambiguous(lookup)) <==> n >= 2)
      && (r.Ok? <==> n == 1)
      && (r.Ok? ==> exists i :: UniqueHit(response.body, keep, i) && r.value == response.body[i])
  }

  lemma SingletonSet(s: set<int>, j: int)
    requires |s| == 1 && j in s
    ensures s == {j}
  {
    assert |s - {j}| == 0;
  }

  /** A filter that keeps one record keeps the record at the only hit position. */
  lemma SingleMatch<T>(s: seq<T>, keep: T -> bool)
    requires |Filter(s, keep)| == 1
    ensures exists i :: UniqueHit(s, keep, i) && Filter(s, keep)[0] == s[i]
  {
    var r := Filter(s, keep);
    var x := r[0];
    assert x in s && keep(x);
    var i :| 0 <= i < |s| && s[i] == x;
    assert i in Hits(s, keep);
    SingletonSet(Hits(s, keep), i);
    assert UniqueHit(s, keep, i);
  }

  /** Status check, filter and three-way policy shared by the three lookups. */
  function Select<T>(response: Response<T>, keep: T -> bool, lookup: MatchStage): (r: Result<T>)
    ensures ThreeWay(response, keep, lookup, r)
  {
    if response.status != 200 then Err(Misbehaved(lookup))
    else
      var matches := Filter(response.body, keep);
      if |matches| == 1 then
        SingleMatch(response.body, keep);
        Ok(matches[0])
      else if |matches| == 0 then Err(NotFound(lookup))
      else Err(Ambiguous(lookup))
  }

  /** A record kept at exactly one position is the one selected. */
  lemma UniqueHitIsSelected<T>(response: Response<T>, keep: T -> bool, lookup: MatchStage, r: Result<T>, i: int)
    requires ThreeWay(response, keep, lookup, r)
    requires response.status == 200 && UniqueHit(response.body, keep, i)
    ensures r == Ok(response.body[i])
  {
    assert Hits(response.body, keep) == {i};
    var i' :| UniqueHit(response.body, keep, i') && r.value == response.body[i'];
  }

  /** When no record is kept the lookup reports "not found". */
  lemma NoHitIsNotFound<T>(response: Response<T>, keep: T -> bool, lookup: MatchStage, r: Result<T>)
    requires ThreeWay(response, keep, lookup, r)
    requires response.status == 200 && forall j :: 0 <= j < |response.body| ==> !keep(response.body[j])
    ensures r == Err(NotFound(lookup))
  {
    assert Hits(response.body, keep) == {};
  }

  /** When two positions are kept the lookup reports ambiguity. */
  lemma TwoHitsAreAmbiguous<T>(response: Response<T>, keep: T -> bool, lookup: MatchStage, r: Result<T>, i: int, j: int)
    requires ThreeWay(response, keep, lookup, r)
    requires response.status == 200 && i != j
    requires 0 <= i < |response.body| && keep(response.body[i])
    requires 0 <= j < |response.body| && keep(response.body[j])
    ensures r == Err(Ambiguous(lookup))
  {
    var h := Hits(response.body, keep);
    assert j in h - {i};
    assert |h - {i}| >= 1;
  }

  /** Routes match when the pattern occurs in their Description, case-sensitively. */
  function RouteMatcher(routePattern: string): (m: Route -> bool)
    ensures forall route: Route :: m(route) <==> exists i :: OccursAt(routePattern, route.description, i)
  {
    (route: Route) => Contains(routePattern, route.description)
  }

  /** Directions match when the pattern occurs in their Text up to ASCII case
      (the source lower-cases both sides before the `in` test). */
  function DirectionMatcher(directionPattern: string): (m: TextValue -> bool)
    ensures forall direction: TextValue :: m(direction) <==>
              exists i :: OccursIgnoringCaseAt(directionPattern, direction.text, i)
  {
    assert forall direction: TextValue :: Contains(Lower(directionPattern), Lower(direction.text)) <==>
             exists i :: OccursIgnoringCaseAt(directionPattern, direction.text, i) by {
      forall direction: TextValue {
        LowerContainsIgnoresCase(directionPattern, direction.text);
      }
    }
    (direction: TextValue) => Contains(Lower(directionPattern), Lower(direction.text))
  }

  /** Stops match when the pattern occurs in their Text, case-sensitively. */
  function StopMatcher(stopPattern: string): (m: TextValue -> bool)
    ensures forall stop: TextValue :: m(stop) <==> exists i :: OccursAt(stopPattern, stop.text, i)
  {
    (stop: TextValue) => Contains(stopPattern, stop.text)
  }

  // ---------------------------------------------------------------------
  // Request URLs

  /** `url + "/" + segment`: a slash-free segment becomes exactly one more path piece. */
  function AppendSegment(url: string, segment: string): (r: string)
    ensures '/' !in segment ==> Split(r, '/') == Split(url, '/') + [segment]
  {
    AppendSegmentPieces(url, segment);
    assert '/' !in segment ==> Split(segment, '/') == [segment] by {
      if '/' !in segment { SplitNoSeparator(segment, '/'); }
    }
    url + "/" + segment
  }

  /** Whatever the segment holds, its path pieces follow those of the URL. */
  lemma AppendSegmentPieces(url: string, segment: string)
    ensures Split(url + "/" + segment, '/') == Split(url, '/') + Split(segment, '/')
  {
    SplitAround(url, segment, '/');
  }

  /** The Directions request of a route. */
  function DirectionsUrl(dirUrl: string, route: Route): string {
    AppendSegment(dirUrl, route.routeId)
  }

  /** The Stops request of a route and direction. */
  function StopsUrl(stopUrl: string, route: Route, direction: TextValue): string {
    AppendSegment(AppendSegment(stopUrl, route.routeId), direction.value)
  }

  /** The departures request of a route, direction and stop. */
  function TimesUrl(timeUrl: string, route: Route, direction: TextValue, stop: TextValue): string {
    AppendSegment(AppendSegment(AppendSegment(timeUrl, route.routeId), direction.value), stop.value)
  }

  /** The directions request is the directions URL followed by the route id's path pieces. */
  lemma DirectionsUrlPieces(dirUrl: string, route: Route)
    ensures Split(DirectionsUrl(dirUrl, route), '/') == Split(dirUrl, '/') + Split(route.routeId, '/')
  {
    AppendSegmentPieces(dirUrl, route.routeId);
  }

  /** The stops request adds the pieces of the route id, then of the direction value. */
  lemma StopsUrlPieces(stopUrl: string, route: Route, direction: TextValue)
    ensures Split(StopsUrl(stopUrl, route, direction), '/') ==
            Split(stopUrl, '/') + Split(route.routeId, '/') + Split(direction.value, '/')
  {
    var withRoute := AppendSegment(stopUrl, route.routeId);
    AppendSegmentPieces(stopUrl, route.routeId);
    AppendSegmentPieces(withRoute, direction.value);
  }

  /** The departures request adds the pieces of the route id, the direction value and the stop value. */
  lemma TimesUrlPieces(timeUrl: string, route: Route, direction: TextValue, stop: TextValue)
    ensures Split(TimesUrl(timeUrl, route, direction, stop), '/') ==
            Split(timeUrl, '/') + Split(route.routeId, '/') + Split(direction.value, '/') + Split(stop.value, '/')
  {
    var withRoute := AppendSegment(timeUrl, route.routeId);
    var withDirection := AppendSegment(withRoute, direction.value);
    AppendSegmentPieces(timeUrl, route.routeId);
    AppendSegmentPieces(withRoute, direction.value);
    AppendSegmentPieces(withDirection, stop.value);
  }

  // ---------------------------------------------------------------------
  // The three selecting lookups

  function LookupRoute(routePattern: string, routeUrl: string, get: string -> Response<Route>): (r: Result<Route>)
    ensures ThreeWay(get(routeUrl), RouteMatcher(routePattern), RouteStage, r)
  {
    Select(get(routeUrl), RouteMatcher(routePattern), RouteStage)
  }

  function LookupDirection(directionPattern: string, route: Route, dirUrl: string,
                           get: string -> Response<TextValue>): (r: Result<TextValue>)
    ensures ThreeWay(get(DirectionsUrl(dirUrl, route)), DirectionMatcher(directionPattern), DirectionStage, r)
  {
    Select(get(DirectionsUrl(dirUrl, route)), DirectionMatcher(directionPattern), DirectionStage)
  }

  function LookupStop(stopPattern: string, route: Route, direction: TextValue, stopUrl: string,
                      get: string -> Response<TextValue>): (r: Result<TextValue>)
    ensures ThreeWay(get(StopsUrl(stopUrl, route, direction)), StopMatcher(stopPattern), StopStage, r)
  {
    Select(get(StopsUrl(stopUrl, route, direction)), StopMatcher(stopPattern), StopStage)
  }

  // ---------------------------------------------------------------------
  // Departure time

  /** The wrapped-timestamp shape: `millis` follows the first "(" and runs up
      to the next "-" or "(" or to the end. */
  ghost predicate WrapsAt(s: string, before: string, millis: string, after: string) {
    && s == before + "(" + millis + after
    && '(' !in before && '(' !in millis && '-' !in millis
    && (after == [] || after[0] == '(' || after[0] == '-')
  }

  /** `departure_time.split('(')[1].split('-')[0]`; the IndexError of `[1]`
      when there is no "(" is an `Uncaught(IndexError)`. */
  function ExtractDateTime(departureTime: string): (r: Result<string>)
    ensures r.Err? <==> '(' !in departureTime
    ensures r.Err? ==> r.failure == Uncaught(IndexError)
    ensures r.Ok? ==> '(' !in r.value && '-' !in r.value
  {
    var pieces := Split(departureTime, '(');
    SplitCount(departureTime, '(');
    SplitPiecesFree(departureTime, '(');
    if |pieces| < 2 then
      Err(Uncaught(IndexError))
    else
      var millis := Split(pieces[1], '-')[0];
      SplitFirstIsPrefix(pieces[1], '-');
      SplitPiecesFree(pieces[1], '-');
      assert forall q :: 0 <= q < |millis| ==> millis[q] == pieces[1][q];
      Ok(millis)
  }

  /** Whatever has the wrapped shape yields exactly its millisecond text. */
  lemma ExtractDateTimeFinds(s: string, before: string, millis: string, after: string)
    requires WrapsAt(s, before, millis, after)
    ensures ExtractDateTime(s) == Ok(millis)
  {
    var rest := millis + after;
    assert s == before + ['('] + rest;
    SplitAfterFirst(before, rest, '(');
    var head, tail := CutAtFirst(after, '(');
    assert head == [] || head[0] == after[0] == '-';
    assert rest == (millis + head) + tail;
    SplitFirstIs(millis + head, tail, '(');
    SplitFirstIs(millis, head, '-');
  }

  /** Every string holding a "(" has the wrapped shape, cut at its first "(" and the next "(" or "-". */
  lemma CutWrapped(s: string) returns (before: string, millis: string, after: string)
    requires '(' in s
    ensures WrapsAt(s, before, millis, after)
  {
    var fromParen;
    before, fromParen := CutAtFirst(s, '(');
    assert fromParen != [];
    var rest := fromParen[1..];
    var second, next := CutAtFirst(rest, '(');
    var dash;
    millis, dash := CutAtFirst(second, '-');
    assert '(' !in millis by {
      assert forall q :: 0 <= q < |millis| ==> millis[q] == second[q];
    }
    after := dash + next;
    assert s == before + "(" + millis + after;
  }

  /** Whatever ExtractDateTime returns is the millisecond text of a wrapped shape. */
  lemma ExtractDateTimeSound(s: string)
    requires ExtractDateTime(s).Ok?
    ensures exists before, after :: WrapsAt(s, before, ExtractDateTime(s).value, after)
  {
    var before, millis, after := CutWrapped(s);
    ExtractDateTimeFinds(s, before, millis, after);
    assert WrapsAt(s, before, ExtractDateTime(s).value, after);
  }

  /** `math.floor((departure - reference) / 1000 / 60)` computed exactly. */
  function MinutesUntil(departure: int, reference: int): (m: int)
    ensures m * 60000 <= departure - reference < m * 60000 + 60000
    ensures departure < reference ==> m < 0
  {
    (departure - reference) / 60000
  }

  /** The reference instant as text: the caller's date-time, or else
      `str(int(time.time()) * 1000)` for a clock reading in whole seconds. */
  function ReferenceText(dateTime: Option<string>, clockSeconds: int): (t: string)
    ensures dateTime.Some? ==> t == dateTime.value
    ensures dateTime.None? ==> ParseInt(t) == Some(clockSeconds * 1000)
  {
    match dateTime
    case Some(text) => text
    case None =>
      FormatParseRoundTrip(clockSeconds * 1000);
      FormatInt(clockSeconds * 1000)
  }

  /** Without a date-time the reference text is the clock reading in seconds
      with three zeros appended (for a reading of zero it is just "0"). */
  lemma ClockReferenceText(clockSeconds: int)
    ensures clockSeconds != 0 ==> ReferenceText(None, clockSeconds) == FormatInt(clockSeconds) + "000"
    ensures clockSeconds == 0 ==> ReferenceText(None, clockSeconds) == "0"
  {
    if clockSeconds != 0 {
      FormatThousandfold(clockSeconds);
    }
  }

  /** `compute_time_to_departure`: whole minutes from the reference instant
      to the departure, rounded down, followed by " Min". */
  function ComputeTimeToDeparture(departureTime: string, dateTime: Option<string>, clockSeconds: int): (r: Result<string>)
    ensures '(' !in departureTime ==> r == Err(Uncaught(IndexError))
    ensures '(' in departureTime ==>
      var departure := ParseInt(ExtractDateTime(departureTime).value);
      var reference := ParseInt(ReferenceText(dateTime, clockSeconds));
      && (r.Ok? <==> departure.Some? && reference.Some?)
      && (r.Err? ==> r.failure == Uncaught(ValueError))
      && (r.Ok? ==> exists m :: r.value == FormatInt(m) + " Min" &&
                       m * 60000 <= departure.value - reference.value < m * 60000 + 60000)
  {
    var millis :- ExtractDateTime(departureTime);
    var reference := ReferenceText(dateTime, clockSeconds);
    match (ParseInt(millis), ParseInt(reference))
    case (Some(d), Some(t)) => Ok(FormatInt(MinutesUntil(d, t)) + " Min")
    case _ => Err(Uncaught(ValueError))
  }

  /** On a timestamp that wraps the decimal text of a non-negative count of
      milliseconds, the result is the floor of the minutes from the reference
      instant to that count. */
  lemma ComputeOnTimestamp(departureTime: string, before: string, after: string, departure: nat,
                           dateTime: Option<string>, clockSeconds: int, reference: int)
    requires WrapsAt(departureTime, before, FormatInt(departure), after)
    requires ParseInt(ReferenceText(dateTime, clockSeconds)) == Some(reference)
    ensures ComputeTimeToDeparture(departureTime, dateTime, clockSeconds) ==
            Ok(FormatInt(MinutesUntil(departure, reference)) + " Min")
  {
    ExtractDateTimeFinds(departureTime, before, FormatInt(departure), after);
    FormatParseRoundTrip(departure);
    assert departureTime[|before|] == '(';
  }

  /** `lookup_next_time`: the departures request, then only its first record
      decides: the agency's own text when it is a live estimate, otherwise
      the minutes computed from its scheduled time. */
  function LookupNextTime(dateTime: Option<string>, route: Route, direction: TextValue, stop: TextValue,
                          timeUrl: string, get: string -> Response<Departure>, clockSeconds: int): (r: Result<string>)
    ensures var response := get(TimesUrl(timeUrl, route, direction, stop));
      && (response.status != 200 ==> r == Err(Misbehaved(TimeStage)))
      && (response.status == 200 && response.body == [] ==> r == Err(NoDeparturesRemain))
      && (r.Ok? ==> response.status == 200 && response.body != [])
      && (response.status == 200 && response.body != [] && response.body[0].actual ==>
            r == Ok(response.body[0].departureText))
      && (response.status == 200 && response.body != [] && !response.body[0].actual ==>
            r == ComputeTimeToDeparture(response.body[0].departureTime, dateTime, clockSeconds))
  {
    var response := get(TimesUrl(timeUrl, route, direction, stop));
    if response.status != 200 then Err(Misbehaved(TimeStage))
    else if |response.body| == 0 then Err(NoDeparturesRemain)
    else if response.body[0].actual then Ok(response.body[0].departureText)
    else ComputeTimeToDeparture(response.body[0].departureTime, dateTime, clockSeconds)
  }

  // ---------------------------------------------------------------------
  // The pipeline

  /** `next_bus`: route, then direction, then stop, then time; the first
      failure ends the run, so a result is printed only when every lookup
      has succeeded. Arguments in the command line's order. */
  function NextBus(route: string, stop: string, direction: string, dateTime: Option<string>,
                   host: string, api: Api, clockSeconds: int): (r: Result<string>)
    ensures var routes := LookupRoute(route, host + RoutePath, api.routes);
      && (routes.Err? ==> r == Err(routes.failure))
      && (r.Ok? ==> routes.Ok?)
      && (r.Ok? ==> LookupDirection(direction, routes.value, host + DirectionPath, api.directions).Ok?)
      && (r.Ok? ==> LookupStop(stop, routes.value,
                               LookupDirection(direction, routes.value, host + DirectionPath, api.directions).value,
                               host + StopPath, api.stops).Ok?)
  {
    var routeDetails :- LookupRoute(route, host + RoutePath, api.routes);
    var directionDetails :- LookupDirection(direction, routeDetails, host + DirectionPath, api.directions);
    var stopDetails :- LookupStop(stop, routeDetails, directionDetails, host + StopPath, api.stops);
    LookupNextTime(dateTime, routeDetails, directionDetails, stopDetails, host + TimePath, api.times, clockSeconds)
  }

  /** The first three stages select `rd`, `dd` and `sd`. */
  ghost predicate Resolved(route: string, stop: string, direction: string, host: string, api: Api,
                           rd: Route, dd: TextValue, sd: TextValue) {
    && LookupRoute(route, host + RoutePath, api.routes) == Ok(rd)
    && LookupDirection(direction, rd, host + DirectionPath, api.directions) == Ok(dd)
    && LookupStop(stop, rd, dd, host + StopPath, api.stops) == Ok(sd)
  }

  /** Once the selections are made, the run's result is the time stage's,
      asked about exactly those records. */
  lemma NextBusUsesSelections(route: string, stop: string, direction: string, dateTime: Option<string>,
                              host: string, api: Api, clockSeconds: int, rd: Route, dd: TextValue, sd: TextValue)
    requires Resolved(route, stop, direction, host, api, rd, dd, sd)
    ensures NextBus(route, stop, direction, dateTime, host, api, clockSeconds) ==
            LookupNextTime(dateTime, rd, dd, sd, host + TimePath, api.times, clockSeconds)
  {
  }

  /** A result is printed only when all four stages succeed, each of the
      three lookups having found exactly one matching record. */
  lemma NextBusOkNeedsEveryStage(route: string, stop: string, direction: string, dateTime: Option<string>,
                                 host: string, api: Api, clockSeconds: int)
    requires NextBus(route, stop, direction, dateTime, host, api, clockSeconds).Ok?
    ensures exists rd, dd, sd ::
      && Resolved(route, stop, direction, host, api, rd, dd, sd)
      && (exists i :: UniqueHit(api.routes(host + RoutePath).body, RouteMatcher(route), i))
      && (exists i :: UniqueHit(api.directions(DirectionsUrl(host + DirectionPath, rd)).body,
                                DirectionMatcher(direction), i))
      && (exists i :: UniqueHit(api.stops(StopsUrl(host + StopPath, rd, dd)).body, StopMatcher(stop), i))
      && LookupNextTime(dateTime, rd, dd, sd, host + TimePath, api.times, clockSeconds) ==
         NextBus(route, stop, direction, dateTime, host, api, clockSeconds)
  {
    var rd := LookupRoute(route, host + RoutePath, api.routes).value;
    var dd := LookupDirection(direction, rd, host + DirectionPath, api.directions).value;
    var sd := LookupStop(stop, rd, dd, host + StopPath, api.stops).value;
    assert Resolved(route, stop, direction, host, api, rd, dd, sd);
  }

  /** A failed route lookup is the run's only error; no later endpoint is consulted. */
  lemma RouteFailureEndsRun(route: string, stop: string, direction: string, dateTime: Option<string>,
                            host: string, api: Api, clockSeconds: int,
                            directions: string -> Response<TextValue>, stops: string -> Response<TextValue>,
                            times: string -> Response<Departure>)
    requires LookupRoute(route, host + RoutePath, api.routes).Err?
    ensures NextBus(route, stop, direction, dateTime, host, api, clockSeconds) ==
            Err(LookupRoute(route, host + RoutePath, api.routes).failure)
    ensures NextBus(route, stop, direction, dateTime, host,
                    api.(directions := directions, stops := stops, times := times), clockSeconds) ==
            NextBus(route, stop, direction, dateTime, host, api, clockSeconds)
  {
  }

  /** A failed direction lookup is the run's only error; stops and times are not consulted. */
  lemma DirectionFailureEndsRun(route: string, stop: string, direction: string, dateTime: Option<string>,
                                host: string, api: Api, clockSeconds: int, rd: Route,
                                stops: string -> Response<TextValue>, times: string -> Response<Departure>)
    requires LookupRoute(route, host + RoutePath, api.routes) == Ok(rd)
    requires LookupDirection(direction, rd, host + DirectionPath, api.directions).Err?
    ensures NextBus(route, stop, direction, dateTime, host, api, clockSeconds) ==
            Err(LookupDirection(direction, rd, host + DirectionPath, api.directions).failure)
    ensures NextBus(route, stop, direction, dateTime, host, api.(stops := stops, times := times), clockSeconds) ==
            NextBus(route, stop, direction, dateTime, host, api, clockSeconds)
  {
  }

  /** A failed stop lookup is the run's only error; departures are not consulted. */
  lemma StopFailureEndsRun(route: string, stop: string, direction: string, dateTime: Option<string>,
                           host: string, api: Api, clockSeconds: int, rd: Route, dd: TextValue,
                           times: string -> Response<Departure>)
    requires LookupRoute(route, host + RoutePath, api.routes) == Ok(rd)
    requires LookupDirection(direction, rd, host + DirectionPath, api.directions) == Ok(dd)
    requires LookupStop(stop, rd, dd, host + StopPath, api.stops).Err?
    ensures NextBus(route, stop, direction, dateTime, host, api, clockSeconds) ==
            Err(LookupStop(stop, rd, dd, host + StopPath, api.stops).failure)
    ensures NextBus(route, stop, direction, dateTime, host, api.(times := times), clockSeconds) ==
            NextBus(route, stop, direction, dateTime, host, api, clockSeconds)
  {
  }

  /** How the process ends: exit status, standard output, standard error. */
  datatype Exit = Exit(code: int, stdout: string, stderr: string)

  /** `print(next_time)` on success; otherwise the error line and `sys.exit(1)`. */
  function Finish(r: Result<string>): (e: Exit)
    ensures e.code == 0 <==> r.Ok?
    ensures r.Ok? ==> e.stdout == r.value + "\n" && e.stderr == ""
    ensures r.Err? ==> e.code == 1 && e.stdout == "" && e.stderr == Message(r.failure) + "\n"
  {
    match r
    case Ok(text) => Exit(0, text + "\n", "")
    case Err(f) => Exit(1, "", Message(f) + "\n")
  }
}
