/** The concrete cases of the repository's unit and command-line tests,
    stated against the model: the NexTrip fixtures, the record or error
    each lookup yields, the timestamp examples and whole runs of the
    command. A unit-test mock answers only at the URL the test registers;
    a command-line mock answers every request to its endpoint. */
module NextBusScenarios {
  import opened PyText
  import opened PyInt
  import opened NextBus

  const FakeHost: string := "http://fake.fake"

  const BrklynCenter: string := "Brklyn Center"
  const Route5Head: string := "5 - "
  const Route5Tail: string := " - Fremont - 26th Av - Chicago - MOA"

  const Routes: seq<Route> := [
    Route("METRO Blue Line", "8", "901"),
    Route("METRO Green Line", "8", "902"),
    Route(Route5Head + BrklynCenter + Route5Tail, "8", "5")]

  const Directions: seq<TextValue> := [
    TextValue("NORTHBOUND", "4"),
    TextValue("SOUTHBOUND", "1")]

  const Stops: seq<TextValue> := [
    TextValue("44th Ave  and Fremont Ave ", "44FM"),
    TextValue("Osseo Rd and " + "47th Ave ", "47OS"),
    TextValue("Brooklyn Center Transit Center", "BCTC")]

  /** The millisecond counts the fixtures use, as text and as numbers. */
  const DepartureDigits: string := "1538971260000"
  const ReferenceDigits: string := "1538969940000"
  const DepartureMillis: int := 1538971260000
  const ReferenceMillis: int := 1538969940000

  /** What stands before each "/" of a departure time: the unit tests'
      records keep the JSON escape "\\/", while the command-line runs see
      the text `response.json()` has decoded, where it is gone. */
  const Escaped: string := "\\"
  const Decoded: string := ""

  /** A departure time as the agency writes it, "/Date(<millis>-0500)/". */
  function DateText(escape: string, millis: string): string {
    escape + "/Date(" + millis + "-0500)" + escape + "/"
  }

  function TimesActual(escape: string): seq<Departure> {
    [Departure(true, "16 Min", DateText(escape, DepartureDigits)),
     Departure(false, "11:44", DateText(escape, "1538973840000"))]
  }

  /** The scheduled-only fixture, its first departure at `departure` milliseconds. */
  function TimesScheduled(escape: string, departure: nat): seq<Departure> {
    [Departure(false, "11:01", DateText(escape, FormatInt(departure))),
     Departure(false, "11:44", DateText(escape, "1538973840000"))]
  }

  /** A unit-test mock: `status` and `body` at `url`, 404 anywhere else. */
  function MockAt<T>(url: string, status: int, body: seq<T>): string -> Response<T> {
    u => if u == url then Response(status, body) else Response(404, [])
  }

  /** A unit-test mock answering `body` with status 200 at `url`. */
  function ServeAt<T>(url: string, body: seq<T>): string -> Response<T> {
    MockAt(url, 200, body)
  }

  /** A command-line mock: the same answer for every URL of its endpoint. */
  function Serve<T>(status: int, body: seq<T>): string -> Response<T> {
    _ => Response(status, body)
  }

  // ---------------------------------------------------------------------
  // Which fixture records each pattern matches

  lemma RoutesWithoutJunk(k: int)
    requires 0 <= k < |Routes|
    ensures !RouteMatcher("junk")(Routes[k])
  {
    if k == 0 {
      StartAbsent("junk", Routes[0].description);
    } else if k == 1 {
      StartAbsent("junk", Routes[1].description);
    } else {
      JunkNotInRoute5();
    }
  }

  lemma JunkNotInRoute5()
    ensures !Contains("junk", Route5Head + BrklynCenter + Route5Tail)
  {
    var description := Route5Head + BrklynCenter + Route5Tail;
    assert 'j' !in description;
    AbsentBeforeTail("junk", description, "");
    assert description + "" == description;
  }

  lemma MetroRoutes()
    ensures RouteMatcher("METRO")(Routes[0]) && RouteMatcher("METRO")(Routes[1])
  {
    PrefixOccurs("METRO", Routes[0].description);
    PrefixOccurs("METRO", Routes[1].description);
  }

  lemma BrklynCenterRoutes()
    ensures !RouteMatcher(BrklynCenter)(Routes[0]) && !RouteMatcher(BrklynCenter)(Routes[1])
    ensures RouteMatcher(BrklynCenter)(Routes[2])
  {
    BrklynCenterNotInBlueLine();
    BrklynCenterNotInGreenLine();
    InfixOccurs(Route5Head, BrklynCenter, Route5Tail);
  }

  lemma BrklynCenterNotInBlueLine()
    ensures !Contains(BrklynCenter, "METRO Blue Line")
  {
    StartAbsent(BrklynCenter, "METRO Blue Line");
  }

  lemma BrklynCenterNotInGreenLine()
    ensures !Contains(BrklynCenter, "METRO Green Line")
  {
    StartAbsent(BrklynCenter, "METRO Green Line");
  }

  lemma LowerDirections()
    ensures Lower(Directions[0].text) == "northbound" && Lower(Directions[1].text) == "southbound"
  {
  }

  lemma DirectionsWithoutJunk()
    ensures forall k | 0 <= k < |Directions| :: !DirectionMatcher("junk")(Directions[k])
  {
    LowerDirections();
    assert Lower("junk") == "junk";
    JunkNotInDirection(0);
    JunkNotInDirection(1);
  }

  lemma JunkNotInDirection(k: int)
    requires 0 <= k < 2
    ensures !Contains("junk", if k == 0 then "northbound" else "southbound")
  {
    if k == 0 { StartAbsent("junk", "northbound"); } else { StartAbsent("junk", "southbound"); }
  }

  lemma DirectionsWithoutWest()
    ensures forall k | 0 <= k < |Directions| :: !DirectionMatcher("west")(Directions[k])
  {
    LowerDirections();
    assert Lower("west") == "west";
    WestNotInDirection(0);
    WestNotInDirection(1);
  }

  lemma WestNotInDirection(k: int)
    requires 0 <= k < 2
    ensures !Contains("west", if k == 0 then "northbound" else "southbound")
  {
    if k == 0 { StartAbsent("west", "northbound"); } else { StartAbsent("west", "southbound"); }
  }

  lemma BoundDirections(pattern: string)
    requires pattern == "BOUND" || pattern == "bound"
    ensures forall k | 0 <= k < |Directions| :: DirectionMatcher(pattern)(Directions[k])
  {
    LowerDirections();
    assert Lower(pattern) == "bound";
    assert OccursAt("bound", "northbound", 5) && OccursAt("bound", "southbound", 5);
  }

  lemma SouthDirections(pattern: string)
    requires pattern == "SOUTHBOUND" || pattern == "south"
    ensures !DirectionMatcher(pattern)(Directions[0]) && DirectionMatcher(pattern)(Directions[1])
  {
    LowerDirections();
    if pattern == "south" {
      assert Lower(pattern) == "south";
      SouthMatchesSouthbound();
    } else {
      assert Lower(pattern) == "southbound";
      SouthboundMatchesSouthbound();
    }
  }

  lemma SouthMatchesSouthbound()
    ensures !Contains("south", "northbound") && Contains("south", "southbound")
  {
    StartAbsent("south", "northbound");
    PrefixOccurs("south", "southbound");
  }

  lemma SouthboundMatchesSouthbound()
    ensures !Contains("southbound", "northbound") && Contains("southbound", "southbound")
  {
    StartAbsent("southbound", "northbound");
    PrefixOccurs("southbound", "southbound");
  }

  lemma NorthDirections()
    ensures DirectionMatcher("north")(Directions[0]) && !DirectionMatcher("north")(Directions[1])
  {
    LowerDirections();
    assert Lower("north") == "north";
    PrefixOccurs("north", "northbound");
    StartAbsent("north", "southbound");
  }

  lemma StopsWithoutJunk(k: int)
    requires 0 <= k < |Stops|
    ensures !StopMatcher("junk")(Stops[k])
  {
    if k == 0 { JunkNotAtStop0(); }
    else if k == 1 { JunkNotAtStop1(); }
    else { JunkNotAtStop2(); }
  }

  lemma JunkNotAtStop0()
    ensures !Contains("junk", "44th Ave  and Fremont Ave ")
  {
    StartAbsent("junk", "44th Ave  and Fremont Ave ");
  }

  lemma JunkNotAtStop1()
    ensures !Contains("junk", "Osseo Rd and " + "47th Ave ")
  {
    StartAbsent("junk", "Osseo Rd and " + "47th Ave ");
  }

  lemma JunkNotAtStop2()
    ensures !Contains("junk", "Brooklyn Center Transit Center")
  {
    StartAbsent("junk", "Brooklyn Center Transit Center");
  }

  lemma StopsWithoutNonExistant(k: int)
    requires 0 <= k < |Stops|
    ensures !StopMatcher("NON-EXISTANT")(Stops[k])
  {
    if k == 0 { NonExistantNotAtStop0(); }
    else if k == 1 { NonExistantNotAtStop1(); }
    else { NonExistantNotAtStop2(); }
  }

  lemma NonExistantNotAtStop0()
    ensures !Contains("NON-EXISTANT", "44th Ave  and Fremont Ave ")
  {
    AbsentBeforeTail("NON-EXISTANT", "44th Ave  and Fremont Ave ", "");
    assert "44th Ave  and Fremont Ave " + "" == "44th Ave  and Fremont Ave ";
  }

  lemma NonExistantNotAtStop1()
    ensures !Contains("NON-EXISTANT", "Osseo Rd and " + "47th Ave ")
  {
    AbsentBeforeTail("NON-EXISTANT", "Osseo Rd and " + "47th Ave ", "");
    assert "Osseo Rd and " + "47th Ave " + "" == "Osseo Rd and " + "47th Ave ";
  }

  lemma NonExistantNotAtStop2()
    ensures !Contains("NON-EXISTANT", "Brooklyn Center Transit Center")
  {
    AbsentBeforeTail("NON-EXISTANT", "Brooklyn Center Transit Center", "");
    assert "Brooklyn Center Transit Center" + "" == "Brooklyn Center Transit Center";
  }

  lemma AveStops()
    ensures StopMatcher("Ave")(Stops[0]) && StopMatcher("Ave")(Stops[1])
  {
    assert OccursAt("Ave", Stops[0].text, 5) && OccursAt("Ave", Stops[1].text, 18);
  }

  lemma BrooklynCenterStops(k: int)
    requires 0 <= k < |Stops|
    ensures StopMatcher("Brooklyn Center")(Stops[k]) <==> k == 2
  {
    if k == 0 {
      BrooklynCenterNotAtStop0();
    } else if k == 1 {
      BrooklynCenterNotAtStop1();
    } else {
      PrefixOccurs("Brooklyn Center", Stops[2].text);
    }
  }

  lemma BrooklynCenterNotAtStop0()
    ensures !Contains("Brooklyn Center", "44th Ave  and Fremont Ave ")
  {
    StartAbsent("Brooklyn Center", "44th Ave  and Fremont Ave ");
  }

  lemma BrooklynCenterNotAtStop1()
    ensures !Contains("Brooklyn Center", "Osseo Rd and " + "47th Ave ")
  {
    StartAbsent("Brooklyn Center", "Osseo Rd and " + "47th Ave ");
  }

  // ---------------------------------------------------------------------
  // lookup_route, lookup_direction and lookup_stop against the fixtures

  const RouteUrl: string := FakeHost + RoutePath

  lemma RouteJunkNotFound()
    ensures LookupRoute("junk", RouteUrl, ServeAt(RouteUrl, Routes)) == Err(NotFound(RouteStage))
  {
    forall k | 0 <= k < |Routes| ensures !RouteMatcher("junk")(Routes[k]) {
      RoutesWithoutJunk(k);
    }
    NoHitIsNotFound(Response(200, Routes), RouteMatcher("junk"), RouteStage,
                    LookupRoute("junk", RouteUrl, ServeAt(RouteUrl, Routes)));
  }

  lemma RouteEndpointDown()
    ensures LookupRoute("ignored", RouteUrl, MockAt(RouteUrl, 404, [])) == Err(Misbehaved(RouteStage))
  {
  }

  lemma RouteMetroAmbiguous()
    ensures LookupRoute("METRO", RouteUrl, ServeAt(RouteUrl, Routes)) == Err(Ambiguous(RouteStage))
  {
    MetroRoutes();
    TwoHitsAreAmbiguous(Response(200, Routes), RouteMatcher("METRO"), RouteStage,
                        LookupRoute("METRO", RouteUrl, ServeAt(RouteUrl, Routes)), 0, 1);
  }

  lemma RouteBrklynCenterFound()
    ensures LookupRoute(BrklynCenter, RouteUrl, ServeAt(RouteUrl, Routes)) == Ok(Routes[2])
  {
    var keep := RouteMatcher(BrklynCenter);
    BrklynCenterRoutes();
    forall j | 0 <= j < |Routes| && keep(Routes[j]) ensures j == 2 {
      assert j != 0 && j != 1;
    }
    assert UniqueHit(Routes, keep, 2);
    UniqueHitIsSelected(Response(200, Routes), RouteMatcher(BrklynCenter), RouteStage,
                        LookupRoute(BrklynCenter, RouteUrl, ServeAt(RouteUrl, Routes)), 2);
  }

  const DirUrl: string := FakeHost + DirectionPath

  /** The directions mock of the unit tests, registered for route 5. */
  function DirectionsAt5(): string -> Response<TextValue> {
    ServeAt(DirUrl + "/5", Directions)
  }

  lemma DirectionJunkNotFound()
    ensures LookupDirection("junk", Routes[2], DirUrl, DirectionsAt5()) == Err(NotFound(DirectionStage))
  {
    DirectionsWithoutJunk();
    NoHitIsNotFound(Response(200, Directions), DirectionMatcher("junk"), DirectionStage,
                    LookupDirection("junk", Routes[2], DirUrl, DirectionsAt5()));
  }

  lemma DirectionEndpointDown()
    ensures LookupDirection("ignored", Routes[2], DirUrl, MockAt(DirUrl + "/5", 404, [])) ==
            Err(Misbehaved(DirectionStage))
  {
  }

  lemma DirectionBoundAmbiguous()
    ensures LookupDirection("BOUND", Routes[2], DirUrl, DirectionsAt5()) == Err(Ambiguous(DirectionStage))
  {
    BoundDirections("BOUND");
    TwoHitsAreAmbiguous(Response(200, Directions), DirectionMatcher("BOUND"), DirectionStage,
                        LookupDirection("BOUND", Routes[2], DirUrl, DirectionsAt5()), 0, 1);
  }

  lemma DirectionSouthboundFound()
    ensures LookupDirection("SOUTHBOUND", Routes[2], DirUrl, DirectionsAt5()) == Ok(TextValue("SOUTHBOUND", "1"))
  {
    var keep := DirectionMatcher("SOUTHBOUND");
    SouthDirections("SOUTHBOUND");
    assert UniqueHit(Directions, keep, 1);
    UniqueHitIsSelected(Response(200, Directions), keep, DirectionStage,
                        LookupDirection("SOUTHBOUND", Routes[2], DirUrl, DirectionsAt5()), 1);
  }

  /** Directions match regardless of case: "north" selects NORTHBOUND. */
  lemma DirectionNorthFoundIgnoringCase()
    ensures LookupDirection("north", Routes[1], DirUrl, ServeAt(DirUrl + "/902", Directions)) ==
            Ok(TextValue("NORTHBOUND", "4"))
  {
    var keep := DirectionMatcher("north");
    NorthDirections();
    assert UniqueHit(Directions, keep, 0);
    UniqueHitIsSelected(Response(200, Directions), keep, DirectionStage,
                        LookupDirection("north", Routes[1], DirUrl, ServeAt(DirUrl + "/902", Directions)), 0);
  }

  const StopUrl: string := FakeHost + StopPath

  /** The stops mock of the unit tests, registered for route 5 southbound. */
  function StopsAt5South(): string -> Response<TextValue> {
    ServeAt(StopUrl + "/5/1", Stops)
  }

  lemma StopJunkNotFound()
    ensures LookupStop("junk", Routes[2], Directions[1], StopUrl, StopsAt5South()) == Err(NotFound(StopStage))
  {
    assert StopsUrl(StopUrl, Routes[2], Directions[1]) == StopUrl + "/5/1";
    var keep := StopMatcher("junk");
    forall k | 0 <= k < |Stops| ensures !keep(Stops[k]) {
      StopsWithoutJunk(k);
    }
    NoHitIsNotFound(Response(200, Stops), keep, StopStage,
                    LookupStop("junk", Routes[2], Directions[1], StopUrl, StopsAt5South()));
  }

  lemma StopEndpointDown()
    ensures LookupStop("ignored", Routes[2], Directions[1], StopUrl, MockAt(StopUrl + "/5/1", 404, [])) ==
            Err(Misbehaved(StopStage))
  {
  }

  lemma StopAveAmbiguous()
    ensures LookupStop("Ave", Routes[2], Directions[1], StopUrl, StopsAt5South()) == Err(Ambiguous(StopStage))
  {
    assert StopsUrl(StopUrl, Routes[2], Directions[1]) == StopUrl + "/5/1";
    var keep := StopMatcher("Ave");
    AveStops();
    assert keep(Stops[0]) && keep(Stops[1]);
    TwoHitsAreAmbiguous(Response(200, Stops), keep, StopStage,
                        LookupStop("Ave", Routes[2], Directions[1], StopUrl, StopsAt5South()), 0, 1);
  }

  lemma StopBrooklynCenterFound()
    ensures LookupStop("Brooklyn Center", Routes[2], Directions[1], StopUrl, StopsAt5South()) == Ok(Stops[2])
  {
    var keep := StopMatcher("Brooklyn Center");
    forall j | 0 <= j < |Stops| ensures keep(Stops[j]) <==> j == 2 {
      BrooklynCenterStops(j);
    }
    assert UniqueHit(Stops, keep, 2);
    UniqueHitIsSelected(Response(200, Stops), keep, StopStage,
                        LookupStop("Brooklyn Center", Routes[2], Directions[1], StopUrl, StopsAt5South()), 2);
  }

  // ---------------------------------------------------------------------
  // extract_date_time and compute_time_to_departure

  /** One more digit written after the digits of `n`. */
  lemma DigitsAppend(n: nat, s: string, d: nat, t: string)
    requires n >= 1 && d < 10 && NatDigits(n) == s && t == s + [DigitChar(d)]
    ensures NatDigits(n * 10 + d) == t
  {
    NatDigitsStep(n, d);
  }

  lemma Digits1538() ensures NatDigits(1538) == "1538" { }

  lemma DepartureMiddle() ensures NatDigits(1538971) == "1538971" {
    Digits1538();
    DigitsAppend(1538, "1538", 9, "15389");
    DigitsAppend(15389, "15389", 7, "153897");
    DigitsAppend(153897, "153897", 1, "1538971");
  }

  lemma DepartureHigh() ensures NatDigits(1538971260) == "1538971260" {
    DepartureMiddle();
    DigitsAppend(1538971, "1538971", 2, "15389712");
    DigitsAppend(15389712, "15389712", 6, "153897126");
    DigitsAppend(153897126, "153897126", 0, "1538971260");
  }


  lemma ReferenceMiddle() ensures NatDigits(1538969) == "1538969" {
    Digits1538();
    DigitsAppend(1538, "1538", 9, "15389");
    DigitsAppend(15389, "15389", 6, "153896");
    DigitsAppend(153896, "153896", 9, "1538969");
  }

  lemma ReferenceHigh() ensures NatDigits(1538969940) == "1538969940" {
    ReferenceMiddle();
    DigitsAppend(1538969, "1538969", 9, "15389699");
    DigitsAppend(15389699, "15389699", 4, "153896994");
    DigitsAppend(153896994, "153896994", 0, "1538969940");
  }


  /** `str()` of the fixtures' millisecond counts, digit strings too long to evaluate directly. */
  lemma DepartureMillisText(d: nat)
    requires d == DepartureMillis
    ensures FormatInt(d) == DepartureDigits
  {
    var high: nat := d / 1000;
    assert high == 1538971260 && d == high * 1000;
    DepartureHigh();
    NatDigitsThousandfold(high);
    DepartureDigitsSplit();
  }

  lemma DepartureDigitsSplit() ensures DepartureDigits == "1538971260" + "000" {
  }

  lemma ReferenceMillisText(r: nat)
    requires r == ReferenceMillis
    ensures FormatInt(r) == ReferenceDigits
  {
    var high: nat := r / 1000;
    assert high == 1538969940 && r == high * 1000;
    ReferenceHigh();
    NatDigitsThousandfold(high);
    ReferenceDigitsSplit();
  }

  lemma ReferenceDigitsSplit() ensures ReferenceDigits == "1538969940" + "000" {
  }

  /** `DateText` wraps the digits of a non-negative count the way the agency does. */
  lemma DateTextWraps(escape: string, millis: nat)
    requires '(' !in escape
    ensures WrapsAt(DateText(escape, FormatInt(millis)), escape + "/Date", FormatInt(millis), "-0500)" + escape + "/")
  {
  }

  /** The millisecond count is cut out of the fixture's departure time. */
  lemma ExtractFixture(d: nat)
    requires d == DepartureMillis
    ensures ExtractDateTime(DateText(Escaped, FormatInt(d))) == Ok(DepartureDigits)
  {
    DateTextWraps(Escaped, d);
    ExtractDateTimeFinds(DateText(Escaped, FormatInt(d)), Escaped + "/Date", FormatInt(d), "-0500)" + Escaped + "/");
    DepartureMillisText(d);
  }

  /** A departure 22 minutes after the reference instant passed in, as with
      the fixture's departure 1538971260000 and reference 1538969940000. */
  lemma ComputeWithDateTime(d: nat, r: int, clockSeconds: int)
    requires d - r == DepartureMillis - ReferenceMillis
    ensures ComputeTimeToDeparture(DateText(Escaped, FormatInt(d)), Some(FormatInt(r)), clockSeconds) == Ok("22 Min")
  {
    DateTextWraps(Escaped, d);
    FormatParseRoundTrip(r);
    ComputeOnTimestamp(DateText(Escaped, FormatInt(d)), Escaped + "/Date", "-0500)" + Escaped + "/", d,
                       Some(FormatInt(r)), clockSeconds, r);
    TwentyTwoMinutes(d, r);
  }

  /** The fixtures' two instants are 22 minutes apart. */
  lemma TwentyTwoMinutes(d: int, r: int)
    requires d - r == DepartureMillis - ReferenceMillis
    ensures FormatInt(MinutesUntil(d, r)) + " Min" == "22 Min"
  {
    assert MinutesUntil(d, r) == 22;
    assert FormatInt(22) == "22";
  }

  lemma ComputeWithClock(clockSeconds: int)
    requires clockSeconds >= 0
    ensures ComputeTimeToDeparture(DateText(Escaped, FormatInt(clockSeconds * 1000 + 20 * 60 * 1000)), None, clockSeconds) ==
            Ok("20 Min")
  {
    var departure := clockSeconds * 1000 + 20 * 60 * 1000;
    assert MinutesUntil(departure, clockSeconds * 1000) == 20;
    assert FormatInt(20) == "20" && "20" + " Min" == "20 Min";
    DateTextWraps(Escaped, departure);
    ComputeOnTimestamp(DateText(Escaped, FormatInt(departure)), Escaped + "/Date", "-0500)" + Escaped + "/", departure,
                       None, clockSeconds,
                       clockSeconds * 1000);
  }

  // ---------------------------------------------------------------------
  // lookup_next_time against the fixtures

  const TimeUrl: string := FakeHost + TimePath

  function TimesAt5SouthBctc(status: int, body: seq<Departure>): string -> Response<Departure> {
    MockAt(TimeUrl + "/5/1/BCTC", status, body)
  }

  lemma TimeEndpointDown(clockSeconds: int)
    ensures LookupNextTime(Some("ignored"), Routes[2], Directions[1], Stops[2], TimeUrl,
                           TimesAt5SouthBctc(404, []), clockSeconds) == Err(Misbehaved(TimeStage))
  {
  }

  lemma NoDepartures(clockSeconds: int)
    ensures LookupNextTime(Some("ignored"), Routes[2], Directions[1], Stops[2], TimeUrl,
                           TimesAt5SouthBctc(200, []), clockSeconds) == Err(NoDeparturesRemain)
  {
  }

  /** A live estimate is reported as the agency wrote it. */
  lemma ActualDepartureText(clockSeconds: int)
    ensures LookupNextTime(Some("ignored"), Routes[2], Directions[1], Stops[2], TimeUrl,
                           TimesAt5SouthBctc(200, TimesActual(Escaped)), clockSeconds) == Ok("16 Min")
  {
  }

  /** A scheduled departure is converted to minutes from the reference instant. */
  lemma ScheduledDepartureMinutes(d: nat, r: int, clockSeconds: int)
    requires d - r == DepartureMillis - ReferenceMillis
    ensures LookupNextTime(Some(FormatInt(r)), Routes[2], Directions[1], Stops[2], TimeUrl,
                           TimesAt5SouthBctc(200, TimesScheduled(Escaped, d)), clockSeconds) == Ok("22 Min")
  {
    var url := TimesUrl(TimeUrl, Routes[2], Directions[1], Stops[2]);
    assert url == TimeUrl + "/5/1/BCTC";
    var times := TimesScheduled(Escaped, d);
    assert TimesAt5SouthBctc(200, times)(url) == Response(200, times);
    assert !times[0].actual && times[0].departureTime == DateText(Escaped, FormatInt(d));
    ComputeWithDateTime(d, r, clockSeconds);
  }

  // ---------------------------------------------------------------------
  // Whole runs of the command (test_cli.py)

  /** The command-line mocks: one fixed answer per endpoint. */
  function CliApi(routes: Response<Route>, directions: Response<TextValue>, stops: Response<TextValue>,
                  times: Response<Departure>): Api {
    Api(Serve(routes.status, routes.body), Serve(directions.status, directions.body),
        Serve(stops.status, stops.body), Serve(times.status, times.body))
  }

  /** `-d 20181007234100-05:00` reaches the program with its leading space. */
  const CliDate: string := " 20181007234100-05:00"

  const Route5Pattern: string := Route5Head + BrklynCenter

  lemma Route5Selected(routeUrl: string, get: string -> Response<Route>)
    requires get(routeUrl) == Response(200, Routes)
    ensures LookupRoute(Route5Pattern, routeUrl, get) == Ok(Routes[2])
  {
    var keep := RouteMatcher(Route5Pattern);
    forall j | 0 <= j < |Routes| ensures keep(Routes[j]) <==> j == 2 {
      Route5PatternAt(j);
    }
    assert UniqueHit(Routes, keep, 2);
    UniqueHitIsSelected(Response(200, Routes), keep, RouteStage, LookupRoute(Route5Pattern, routeUrl, get), 2);
  }

  lemma Route5PatternAt(k: int)
    requires 0 <= k < |Routes|
    ensures RouteMatcher(Route5Pattern)(Routes[k]) <==> k == 2
  {
    if k == 0 {
      StartAbsent(Route5Pattern, "METRO Blue Line");
    } else if k == 1 {
      StartAbsent(Route5Pattern, "METRO Green Line");
    } else {
      var s := Route5Head + BrklynCenter + Route5Tail;
      assert s[..|Route5Pattern|] == Route5Pattern;
      PrefixOccurs(Route5Pattern, s);
    }
  }

  lemma SouthSelected(route: Route, dirUrl: string, get: string -> Response<TextValue>)
    requires get(DirectionsUrl(dirUrl, route)) == Response(200, Directions)
    ensures LookupDirection("south", route, dirUrl, get) == Ok(Directions[1])
  {
    var keep := DirectionMatcher("south");
    SouthDirections("south");
    assert UniqueHit(Directions, keep, 1);
    UniqueHitIsSelected(Response(200, Directions), keep, DirectionStage,
                        LookupDirection("south", route, dirUrl, get), 1);
  }

  lemma BrooklynCenterSelected(route: Route, direction: TextValue, stopUrl: string, get: string -> Response<TextValue>)
    requires get(StopsUrl(stopUrl, route, direction)) == Response(200, Stops)
    ensures LookupStop("Brooklyn Center", route, direction, stopUrl, get) == Ok(Stops[2])
  {
    var keep := StopMatcher("Brooklyn Center");
    forall j | 0 <= j < |Stops| ensures keep(Stops[j]) <==> j == 2 {
      BrooklynCenterStops(j);
    }
    assert UniqueHit(Stops, keep, 2);
    UniqueHitIsSelected(Response(200, Stops), keep, StopStage,
                        LookupStop("Brooklyn Center", route, direction, stopUrl, get), 2);
  }

  /** The fixtures the command-line tests register. */
  const RoutesUp: Response<Route> := Response(200, Routes)
  const DirectionsUp: Response<TextValue> := Response(200, Directions)
  const StopsUp: Response<TextValue> := Response(200, Stops)

  /** An endpoint with nothing registered, or registered to fail. */
  function Down<T>(): Response<T> {
    Response(404, [])
  }

  // The line each failure leaves on standard error, with exit status 1.

  lemma RouteErrorLines(run: Result<string>)
    ensures run == Err(Misbehaved(RouteStage)) ==> Finish(run) == Exit(1, "", "ERROR: " + ("Route" + " endpoint misbehaved") + "\n")
    ensures run == Err(NotFound(RouteStage)) ==> Finish(run) == Exit(1, "", "ERROR: " + ("Route" + " not found") + "\n")
    ensures run == Err(Ambiguous(RouteStage)) ==>
            Finish(run) == Exit(1, "", "ERROR: " + ("More than one " + "route found. Please refine route") + "\n")
  {
  }

  lemma DirectionErrorLines(run: Result<string>)
    ensures run == Err(Misbehaved(DirectionStage)) ==>
            Finish(run) == Exit(1, "", "ERROR: " + ("Direction" + " endpoint misbehaved") + "\n")
    ensures run == Err(NotFound(DirectionStage)) ==> Finish(run) == Exit(1, "", "ERROR: " + ("Direction" + " not found") + "\n")
    ensures run == Err(Ambiguous(DirectionStage)) ==>
            Finish(run) == Exit(1, "", "ERROR: " + ("More than one " + "direction matched. Please refine direction") + "\n")
  {
  }

  lemma StopErrorLines(run: Result<string>)
    ensures run == Err(Misbehaved(StopStage)) ==> Finish(run) == Exit(1, "", "ERROR: " + ("Stop" + " endpoint misbehaved") + "\n")
    ensures run == Err(NotFound(StopStage)) ==> Finish(run) == Exit(1, "", "ERROR: " + ("Stop" + " not found") + "\n")
    ensures run == Err(Ambiguous(StopStage)) ==>
            Finish(run) == Exit(1, "", "ERROR: " + ("More than one " + "stop matched. Please refine stop") + "\n")
  {
  }

  lemma TimeErrorLines(run: Result<string>)
    ensures run == Err(Misbehaved(TimeStage)) ==> Finish(run) == Exit(1, "", "ERROR: " + ("Time" + " endpoint misbehaved") + "\n")
    ensures run == Err(NoDeparturesRemain) ==> Finish(run) == Exit(1, "", "ERROR: " + "No scheduled departures remain" + "\n")
  {
  }

  /** The route pattern of the first two command-line tests. */
  const BadRoute5: string := Route5Head + "Brooklyn Center"

  lemma CliRouteEndpointDown(host: string, clockSeconds: int)
    ensures Finish(NextBus.NextBus(BadRoute5, "Brooklyn Center", "south", Some(CliDate), host,
                                   CliApi(Down(), Down(), Down(), Down()), clockSeconds)) ==
            Exit(1, "", "ERROR: " + ("Route" + " endpoint misbehaved") + "\n")
  {
    var api := CliApi(Down(), Down(), Down(), Down());
    assert LookupRoute(BadRoute5, host + RoutePath, api.routes) == Err(Misbehaved(RouteStage));
    RouteFailureEndsRun(BadRoute5, "Brooklyn Center", "south", Some(CliDate), host, api, clockSeconds,
                        api.directions, api.stops, api.times);
    RouteErrorLines(NextBus.NextBus(BadRoute5, "Brooklyn Center", "south", Some(CliDate), host, api, clockSeconds));
  }

  lemma BadRoute5NotInRoute5()
    ensures !Contains(BadRoute5, Route5Head + BrklynCenter + Route5Tail)
  {
    var s := Route5Head + BrklynCenter + Route5Tail;
    var rest := " - " + BrklynCenter + Route5Tail;
    assert s[..|BadRoute5|][6] != BadRoute5[6];
    assert s[1..] == rest;
    assert '5' !in " - ";
    assert '5' !in BrklynCenter;
    assert '5' !in Route5Tail;
    AbsentBeforeTail(BadRoute5, rest, "");
    assert rest + "" == rest;
  }

  lemma BadRoute5At(k: int)
    requires 0 <= k < |Routes|
    ensures !RouteMatcher(BadRoute5)(Routes[k])
  {
    if k == 0 {
      StartAbsent(BadRoute5, "METRO Blue Line");
    } else if k == 1 {
      StartAbsent(BadRoute5, "METRO Green Line");
    } else {
      BadRoute5NotInRoute5();
    }
  }

  lemma CliBadRouteRun(host: string, clockSeconds: int)
    ensures NextBus.NextBus(BadRoute5, "Brooklyn Center", "south", Some(CliDate), host,
                            CliApi(RoutesUp, Down(), Down(), Down()), clockSeconds) ==
            Err(NotFound(RouteStage))
  {
    var api := CliApi(RoutesUp, Down(), Down(), Down());
    forall k | 0 <= k < |Routes| ensures !RouteMatcher(BadRoute5)(Routes[k]) {
      BadRoute5At(k);
    }
    NoHitIsNotFound(RoutesUp, RouteMatcher(BadRoute5), RouteStage, LookupRoute(BadRoute5, host + RoutePath, api.routes));
    RouteFailureEndsRun(BadRoute5, "Brooklyn Center", "south", Some(CliDate), host, api, clockSeconds,
                        api.directions, api.stops, api.times);
  }

  /** Route names are matched as written: "Brooklyn" does not find "Brklyn". */
  lemma CliBadRoute(host: string, clockSeconds: int)
    ensures Finish(NextBus.NextBus(BadRoute5, "Brooklyn Center", "south", Some(CliDate), host,
                                   CliApi(RoutesUp, Down(), Down(), Down()), clockSeconds)) ==
            Exit(1, "", "ERROR: " + ("Route" + " not found") + "\n")
  {
    CliBadRouteRun(host, clockSeconds);
    RouteErrorLines(NextBus.NextBus(BadRoute5, "Brooklyn Center", "south", Some(CliDate), host,
                        CliApi(RoutesUp, Down(), Down(), Down()), clockSeconds));
  }

  lemma CliBadDirectionRun(host: string, clockSeconds: int)
    ensures NextBus.NextBus(Route5Pattern, "Brooklyn Center", "west", Some(CliDate), host,
                            CliApi(RoutesUp, DirectionsUp, Down(), Down()), clockSeconds) ==
            Err(NotFound(DirectionStage))
  {
    var api := CliApi(RoutesUp, DirectionsUp, Down(), Down());
    Route5Selected(host + RoutePath, api.routes);
    DirectionsWithoutWest();
    NoHitIsNotFound(DirectionsUp, DirectionMatcher("west"), DirectionStage,
                    LookupDirection("west", Routes[2], host + DirectionPath, api.directions));
    DirectionFailureEndsRun(Route5Pattern, "Brooklyn Center", "west", Some(CliDate), host, api, clockSeconds,
                            Routes[2], api.stops, api.times);
  }

  lemma CliBadDirection(host: string, clockSeconds: int)
    ensures Finish(NextBus.NextBus(Route5Pattern, "Brooklyn Center", "west", Some(CliDate), host,
                                   CliApi(RoutesUp, DirectionsUp, Down(), Down()), clockSeconds)) ==
            Exit(1, "", "ERROR: " + ("Direction" + " not found") + "\n")
  {
    CliBadDirectionRun(host, clockSeconds);
    DirectionErrorLines(NextBus.NextBus(Route5Pattern, "Brooklyn Center", "west", Some(CliDate), host,
                        CliApi(RoutesUp, DirectionsUp, Down(), Down()), clockSeconds));
  }

  lemma CliDirectionEndpointDownRun(host: string, clockSeconds: int)
    ensures NextBus.NextBus(Route5Pattern, "Brooklyn Center", "south", Some(CliDate), host,
                            CliApi(RoutesUp, Down(), Down(), Down()), clockSeconds) ==
            Err(Misbehaved(DirectionStage))
  {
    var api := CliApi(RoutesUp, Down(), Down(), Down());
    Route5Selected(host + RoutePath, api.routes);
    assert LookupDirection("south", Routes[2], host + DirectionPath, api.directions) == Err(Misbehaved(DirectionStage));
    DirectionFailureEndsRun(Route5Pattern, "Brooklyn Center", "south", Some(CliDate), host, api, clockSeconds,
                            Routes[2], api.stops, api.times);
  }

  lemma CliDirectionEndpointDown(host: string, clockSeconds: int)
    ensures Finish(NextBus.NextBus(Route5Pattern, "Brooklyn Center", "south", Some(CliDate), host,
                                   CliApi(RoutesUp, Down(), Down(), Down()), clockSeconds)) ==
            Exit(1, "", "ERROR: " + ("Direction" + " endpoint misbehaved") + "\n")
  {
    CliDirectionEndpointDownRun(host, clockSeconds);
    DirectionErrorLines(NextBus.NextBus(Route5Pattern, "Brooklyn Center", "south", Some(CliDate), host,
                        CliApi(RoutesUp, Down(), Down(), Down()), clockSeconds));
  }

  /** "bound" matches both directions. The message is the program's own;
      the command-line test expects other wording. */
  lemma CliMultipleDirectionsRun(host: string, clockSeconds: int)
    ensures NextBus.NextBus(Route5Pattern, "Brooklyn Center", "bound", Some(CliDate), host,
                            CliApi(RoutesUp, DirectionsUp, Down(), Down()), clockSeconds) ==
            Err(Ambiguous(DirectionStage))
  {
    var api := CliApi(RoutesUp, DirectionsUp, Down(), Down());
    Route5Selected(host + RoutePath, api.routes);
    BoundDirections("bound");
    TwoHitsAreAmbiguous(DirectionsUp, DirectionMatcher("bound"), DirectionStage,
                        LookupDirection("bound", Routes[2], host + DirectionPath, api.directions), 0, 1);
    DirectionFailureEndsRun(Route5Pattern, "Brooklyn Center", "bound", Some(CliDate), host, api, clockSeconds,
                            Routes[2], api.stops, api.times);
  }

  lemma CliMultipleDirections(host: string, clockSeconds: int)
    ensures Finish(NextBus.NextBus(Route5Pattern, "Brooklyn Center", "bound", Some(CliDate), host,
                                   CliApi(RoutesUp, DirectionsUp, Down(), Down()), clockSeconds)) ==
            Exit(1, "", "ERROR: " + ("More than one " + "direction matched. Please refine direction") + "\n")
  {
    CliMultipleDirectionsRun(host, clockSeconds);
    DirectionErrorLines(NextBus.NextBus(Route5Pattern, "Brooklyn Center", "bound", Some(CliDate), host,
                        CliApi(RoutesUp, DirectionsUp, Down(), Down()), clockSeconds));
  }

  lemma CliStopEndpointDownRun(host: string, clockSeconds: int)
    ensures NextBus.NextBus(Route5Pattern, "Brooklyn Center", "south", Some(CliDate), host,
                            CliApi(RoutesUp, DirectionsUp, Down(), Down()), clockSeconds) ==
            Err(Misbehaved(StopStage))
  {
    var api := CliApi(RoutesUp, DirectionsUp, Down(), Down());
    Route5Selected(host + RoutePath, api.routes);
    SouthSelected(Routes[2], host + DirectionPath, api.directions);
    assert LookupStop("Brooklyn Center", Routes[2], Directions[1], host + StopPath, api.stops) ==
           Err(Misbehaved(StopStage));
    StopFailureEndsRun(Route5Pattern, "Brooklyn Center", "south", Some(CliDate), host, api, clockSeconds,
                       Routes[2], Directions[1], api.times);
  }

  lemma CliStopEndpointDown(host: string, clockSeconds: int)
    ensures Finish(NextBus.NextBus(Route5Pattern, "Brooklyn Center", "south", Some(CliDate), host,
                                   CliApi(RoutesUp, DirectionsUp, Down(), Down()), clockSeconds)) ==
            Exit(1, "", "ERROR: " + ("Stop" + " endpoint misbehaved") + "\n")
  {
    CliStopEndpointDownRun(host, clockSeconds);
    StopErrorLines(NextBus.NextBus(Route5Pattern, "Brooklyn Center", "south", Some(CliDate), host,
                        CliApi(RoutesUp, DirectionsUp, Down(), Down()), clockSeconds));
  }

  lemma CliBadStopRun(host: string, clockSeconds: int)
    ensures NextBus.NextBus(Route5Pattern, "NON-EXISTANT", "south", Some(CliDate), host,
                            CliApi(RoutesUp, DirectionsUp, StopsUp, Down()), clockSeconds) ==
            Err(NotFound(StopStage))
  {
    var api := CliApi(RoutesUp, DirectionsUp, StopsUp, Down());
    Route5Selected(host + RoutePath, api.routes);
    SouthSelected(Routes[2], host + DirectionPath, api.directions);
    forall k | 0 <= k < |Stops| ensures !StopMatcher("NON-EXISTANT")(Stops[k]) {
      StopsWithoutNonExistant(k);
    }
    NoHitIsNotFound(StopsUp, StopMatcher("NON-EXISTANT"), StopStage,
                    LookupStop("NON-EXISTANT", Routes[2], Directions[1], host + StopPath, api.stops));
    StopFailureEndsRun(Route5Pattern, "NON-EXISTANT", "south", Some(CliDate), host, api, clockSeconds,
                       Routes[2], Directions[1], api.times);
  }

  lemma CliBadStop(host: string, clockSeconds: int)
    ensures Finish(NextBus.NextBus(Route5Pattern, "NON-EXISTANT", "south", Some(CliDate), host,
                                   CliApi(RoutesUp, DirectionsUp, StopsUp, Down()), clockSeconds)) ==
            Exit(1, "", "ERROR: " + ("Stop" + " not found") + "\n")
  {
    CliBadStopRun(host, clockSeconds);
    StopErrorLines(NextBus.NextBus(Route5Pattern, "NON-EXISTANT", "south", Some(CliDate), host,
                        CliApi(RoutesUp, DirectionsUp, StopsUp, Down()), clockSeconds));
  }

  lemma CliTimesEndpointDownRun(host: string, clockSeconds: int)
    ensures NextBus.NextBus(Route5Pattern, "Brooklyn Center", "south", Some(CliDate), host,
                            CliApi(RoutesUp, DirectionsUp, StopsUp, Down()), clockSeconds) ==
            Err(Misbehaved(TimeStage))
  {
    var api := CliApi(RoutesUp, DirectionsUp, StopsUp, Down());
    Route5Selected(host + RoutePath, api.routes);
    SouthSelected(Routes[2], host + DirectionPath, api.directions);
    BrooklynCenterSelected(Routes[2], Directions[1], host + StopPath, api.stops);
    NextBusUsesSelections(Route5Pattern, "Brooklyn Center", "south", Some(CliDate), host, api, clockSeconds,
                          Routes[2], Directions[1], Stops[2]);
    assert LookupNextTime(Some(CliDate), Routes[2], Directions[1], Stops[2], host + TimePath, api.times, clockSeconds) ==
           Err(Misbehaved(TimeStage));
  }

  lemma CliTimesEndpointDown(host: string, clockSeconds: int)
    ensures Finish(NextBus.NextBus(Route5Pattern, "Brooklyn Center", "south", Some(CliDate), host,
                                   CliApi(RoutesUp, DirectionsUp, StopsUp, Down()), clockSeconds)) ==
            Exit(1, "", "ERROR: " + ("Time" + " endpoint misbehaved") + "\n")
  {
    CliTimesEndpointDownRun(host, clockSeconds);
    TimeErrorLines(NextBus.NextBus(Route5Pattern, "Brooklyn Center", "south", Some(CliDate), host,
                        CliApi(RoutesUp, DirectionsUp, StopsUp, Down()), clockSeconds));
  }

  /** A live estimate is printed as the agency wrote it; the date-time is not read. */
  lemma CliSuccessfulLookupRun(host: string, clockSeconds: int)
    ensures NextBus.NextBus(Route5Pattern, "Brooklyn Center", "south", Some(CliDate), host,
                            CliApi(RoutesUp, DirectionsUp, StopsUp, Response(200, TimesActual(Decoded))),
                            clockSeconds) == Ok("16 Min")
  {
    var api := CliApi(RoutesUp, DirectionsUp, StopsUp, Response(200, TimesActual(Decoded)));
    Route5Selected(host + RoutePath, api.routes);
    SouthSelected(Routes[2], host + DirectionPath, api.directions);
    BrooklynCenterSelected(Routes[2], Directions[1], host + StopPath, api.stops);
    NextBusUsesSelections(Route5Pattern, "Brooklyn Center", "south", Some(CliDate), host, api, clockSeconds,
                          Routes[2], Directions[1], Stops[2]);
  }

  lemma CliSuccessfulLookup(host: string, clockSeconds: int)
    ensures Finish(NextBus.NextBus(Route5Pattern, "Brooklyn Center", "south", Some(CliDate), host,
                                   CliApi(RoutesUp, DirectionsUp, StopsUp, Response(200, TimesActual(Decoded))),
                                   clockSeconds)) ==
            Exit(0, "16 Min" + "\n", "")
  {
    CliSuccessfulLookupRun(host, clockSeconds);
  }

  lemma FortyFourthAtStop0()
    ensures Contains("44th", "44th Ave  and Fremont Ave ")
  {
    PrefixOccurs("44th", "44th Ave  and Fremont Ave ");
  }

  lemma FortyFourthNotAtStop1()
    ensures !Contains("44th", "Osseo Rd and " + "47th Ave ")
  {
    var t := "7th Ave ";
    var s := "47th Ave ";
    assert s[..4][1] != "44th"[1];
    assert s[1..] == t;
    AbsentBeforeTail("44th", t, "");
    assert t + "" == t;
    AbsentAfterPrefix("44th", "Osseo Rd and ", s);
  }

  lemma FortyFourthNotAtStop2()
    ensures !Contains("44th", "Brooklyn Center Transit Center")
  {
    StartAbsent("44th", "Brooklyn Center Transit Center");
  }

  lemma FortyFourthStops(k: int)
    requires 0 <= k < |Stops|
    ensures StopMatcher("44th")(Stops[k]) <==> k == 0
  {
    var text := Stops[k].text;
    assert StopMatcher("44th")(Stops[k]) == Contains("44th", text);
    if k == 0 { FortyFourthAtStop0(); }
    else if k == 1 { FortyFourthNotAtStop1(); }
    else { FortyFourthNotAtStop2(); }
  }

  lemma FortyFourthSelected(route: Route, direction: TextValue, stopUrl: string, get: string -> Response<TextValue>)
    requires get(StopsUrl(stopUrl, route, direction)) == Response(200, Stops)
    ensures LookupStop("44th", route, direction, stopUrl, get) == Ok(Stops[0])
  {
    var keep := StopMatcher("44th");
    forall j | 0 <= j < |Stops| ensures keep(Stops[j]) <==> j == 0 {
      FortyFourthStops(j);
    }
    assert UniqueHit(Stops, keep, 0);
    UniqueHitIsSelected(Response(200, Stops), keep, StopStage, LookupStop("44th", route, direction, stopUrl, get), 0);
  }

  /** `-d 1538969940000` reaches the program with a leading space, which `int()` skips. */
  lemma ComputeWithSpacedDateTime(d: nat, r: int, clockSeconds: int)
    requires d - r == DepartureMillis - ReferenceMillis
    ensures ComputeTimeToDeparture(DateText(Decoded, FormatInt(d)), Some(" " + FormatInt(r)), clockSeconds) == Ok("22 Min")
  {
    DateTextWraps(Decoded, d);
    SpacedReferenceParses(r, clockSeconds);
    ComputeOnTimestamp(DateText(Decoded, FormatInt(d)), Decoded + "/Date", "-0500)" + Decoded + "/", d,
                       Some(" " + FormatInt(r)), clockSeconds, r);
    TwentyTwoMinutes(d, r);
  }

  lemma SpacedReferenceParses(r: int, clockSeconds: int)
    ensures ParseInt(ReferenceText(Some(" " + FormatInt(r)), clockSeconds)) == Some(r)
  {
    FormatParseRoundTrip(r);
    ParseIntSkipsLeadingSpace(' ', FormatInt(r));
    assert [' '] + FormatInt(r) == " " + FormatInt(r);
  }

  /** The scheduled-only fixture served for any stop: 22 minutes from the reference instant. */
  lemma ScheduledAtAnyStop(d: nat, r: int, clockSeconds: int, route: Route, direction: TextValue,
                           stop: TextValue, timeUrl: string)
    requires d - r == DepartureMillis - ReferenceMillis
    ensures LookupNextTime(Some(" " + FormatInt(r)), route, direction, stop, timeUrl,
                           Serve(200, TimesScheduled(Decoded, d)), clockSeconds) == Ok("22 Min")
  {
    var times := TimesScheduled(Decoded, d);
    assert !times[0].actual && times[0].departureTime == DateText(Decoded, FormatInt(d));
    ComputeWithSpacedDateTime(d, r, clockSeconds);
  }

  /** A scheduled departure at a later stop: the run yields 22 minutes. */
  lemma CliSuccessfulLookupLaterStopRun(host: string, clockSeconds: int, d: nat, r: int)
    requires d - r == DepartureMillis - ReferenceMillis
    ensures NextBus.NextBus(Route5Pattern, "44th", "south", Some(" " + FormatInt(r)), host,
                            CliApi(RoutesUp, DirectionsUp, StopsUp, Response(200, TimesScheduled(Decoded, d))),
                            clockSeconds) == Ok("22 Min")
  {
    var api := CliApi(RoutesUp, DirectionsUp, StopsUp, Response(200, TimesScheduled(Decoded, d)));
    Route5Selected(host + RoutePath, api.routes);
    SouthSelected(Routes[2], host + DirectionPath, api.directions);
    FortyFourthSelected(Routes[2], Directions[1], host + StopPath, api.stops);
    NextBusUsesSelections(Route5Pattern, "44th", "south", Some(" " + FormatInt(r)), host, api, clockSeconds,
                          Routes[2], Directions[1], Stops[0]);
    ScheduledAtAnyStop(d, r, clockSeconds, Routes[2], Directions[1], Stops[0], host + TimePath);
  }

  /** ... and the command prints "22 Min" and exits with status 0. */
  lemma CliSuccessfulLookupLaterStop(host: string, clockSeconds: int, d: nat, r: int)
    requires d - r == DepartureMillis - ReferenceMillis
    ensures Finish(NextBus.NextBus(Route5Pattern, "44th", "south", Some(" " + FormatInt(r)), host,
                                   CliApi(RoutesUp, DirectionsUp, StopsUp, Response(200, TimesScheduled(Decoded, d))),
                                   clockSeconds)) ==
            Exit(0, "22 Min" + "\n", "")
  {
    CliSuccessfulLookupLaterStopRun(host, clockSeconds, d, r);
  }
}
