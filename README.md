# next_bus in Dafny

A model of `next_bus.py`, a command-line tool that answers "how long until
the next bus?" from the Metro Transit NexTrip web API. Given a route
pattern, a stop pattern and a direction pattern it makes four dependent
requests:

1. the list of routes;
2. the directions of the chosen route;
3. the stops of that route and direction;
4. the departures at that stop.

Each of the first three lookups filters the endpoint's records by its
pattern and insists on exactly one match. The last one reports the first
departure. A live estimate is printed as the agency wrote it. A scheduled
departure is converted into whole minutes from a reference instant: the
`--date-time` option, or else the clock. Any failure logs one line and ends
the run with exit status 1.

The model is pure and has four modules:

- `PyText` (`py_text.dfy`) models the Python string built-ins the program
  uses:
  - `p in s` (`Contains`, proved equal to "some window of `s` is `p`");
  - ASCII `str.lower` (`Lower`);
  - `str.split` with a one-character separator (`Split`), with its inverse
    `Join` and the round trips in both directions.
- `PyInt` (`py_int.dfy`) models `str(n)` (`FormatInt`) and `int(s)`
  (`ParseInt`). `int(s)` accepts white space around an optionally signed
  run of digits. The module proves `int(str(n)) == n`.
- `NextBus` (`next_bus.dfy`) models the program itself:
  - the records, responses and failures;
  - the shared select-one policy (`Select`, specified by the reference
    predicate `ThreeWay` over the set of hit positions);
  - the three matchers, the request URLs and the four lookups;
  - the timestamp arithmetic;
  - the pipeline `NextBus` and its exit (`Finish`).
- `NextBusScenarios` (`scenarios.dfy`) restates every case of the
  repository's unit and command-line tests against the model, using the
  tests' fixtures.

HTTP is an `Api` value: one function per endpoint from URL to a response
(status code and decoded JSON list). `time.time()` is the parameter
`clockSeconds`. `logging.error` followed by `sys.exit(1)` is an
`Err(failure)` result, and `Message` gives the line written for it. An
exception the code does not catch (`IndexError` from `split('(')[1]`,
`ValueError` from `int()`) is `Err(Uncaught(...))`.

Where the code and the tests disagree, the model follows the code:

- `test_cli.py:207` expects "ERROR: More than one Direction found. Please
  refine Direction". The code logs "ERROR: More than one direction
  matched. Please refine direction" (`next_bus.py:55`).
  `CliMultipleDirections` proves the code's line.
- Route and stop patterns match case-sensitively. Only direction matching
  lower-cases both sides (`next_bus.py:26`, `:47`, `:68`).

The command-line tests pass `-d 2018...` and `-h <url>` as single
arguments. The program therefore receives the date-time and the host with
a leading space. The scenarios keep that space in the date-time: `int()`
skips it, as `ComputeWithSpacedDateTime` proves. The host is a free
parameter. The tests' mock server answers every request to an endpoint's
path with the same reply, whatever the route, direction or stop segments
(`Serve`). The unit tests' mocks answer only at the registered URL
(`MockAt`).

Departure times have the form `/Date(<millis>-0500)/`. The unit tests
hand the program Python records that keep the JSON escape before each
slash (`\/Date(...)\/`). The command-line tests serve JSON, and
`response.json()` removes that escape. The scenarios therefore build the
departure time with `DateText(escape, millis)`:

- `Escaped` (a backslash) for the unit tests;
- `Decoded` (nothing) for the command-line runs.

`ExtractDateTime` takes the text after the first "(" up to the next "("
or "-", so both forms yield the same digits.

## Model

| member | source | states |
|---|---|---|
| PyText.Contains | next_bus.py:26 | `p in s` holds exactly when `s[i..i+|p|] == p` for some offset `i` (the reference `IsSubstring`) |
| PyText.Lower | next_bus.py:47 | `str.lower()` keeps the length and lower-cases each ASCII capital, leaving every other character as it is |
| PyText.LowerContainsIgnoresCase | next_bus.py:47 | `p.lower() in s.lower()` holds exactly when `p` occurs in `s` at some offset, comparing letters without regard to case |
| PyText.Split | next_bus.py:106 | `str.split(sep)` always yields at least one piece |
| PyText.SplitPiecesFree | next_bus.py:106 | no piece produced by `split(sep)` contains `sep` |
| PyText.SplitCount | next_bus.py:106 | `split(sep)` yields a single piece exactly when `sep` does not occur, so `[1]` is in range exactly when it does |
| PyText.SplitNoSeparator | next_bus.py:106 | a string without the separator splits into itself alone |
| PyText.SplitFirstIsPrefix | next_bus.py:106 | `split(sep)[0]` is a prefix of the string |
| PyText.SplitAround | next_bus.py:106 | splitting `a + sep + b` yields the pieces of `a` followed by the pieces of `b` |
| PyText.SplitAfterFirst | next_bus.py:106 | when `before` has no separator, `(before + sep + rest).split(sep)` is `[before]` followed by the pieces of `rest` |
| PyText.SplitFirstIs | next_bus.py:106 | a separator-free `x` followed by nothing or by the separator is the first piece |
| PyText.JoinSplit | next_bus.py:106 | joining the pieces of `split(sep)` with `sep` gives back the original string |
| PyText.SplitJoin | next_bus.py:106 | splitting the join of separator-free pieces gives back those pieces |
| PyInt.NatDigits | next_bus.py:102 | the decimal digits of `n` have no leading zero (zero is the single digit "0") and denote `n` |
| PyInt.FormatInt | next_bus.py:102-103 | `str(n)` is non-empty, starts with `-` exactly for negative `n`, is otherwise all digits, has no leading zero (a non-negative `n` starting with "0" is "0" itself; after the minus sign the first digit is never "0") and holds no white space |
| PyInt.ParseInt | next_bus.py:103 | `int(s)` succeeds only on strings that contain a digit |
| PyInt.FormatParseRoundTrip | next_bus.py:102-103 | `int(str(n)) == n` for every integer `n` |
| PyInt.ParseIntSkipsLeadingSpace | next_bus.py:103 | `int()` ignores a leading white-space character |
| PyInt.ParseIntSkipsTrailingSpace | next_bus.py:103 | `int()` ignores a trailing white-space character |
| PyInt.ParseIntDigits | next_bus.py:103 | any run of decimal digits, leading zeros included, parses to the number it denotes |
| PyInt.ParseIntSigned | next_bus.py:103 | a '-' before a run of digits negates its value and a '+' leaves it unchanged |
| PyInt.DigitsValueLeadingZero | next_bus.py:103 | a leading zero does not change the value of a run of digits, so `int("07") == int("7")` |
| PyInt.NatDigitsThousandfold | next_bus.py:102 | the digits of `m * 1000` are the digits of a positive `m` followed by "000" |
| PyInt.FormatThousandfold | next_bus.py:102 | for any nonzero `c`, `str(c * 1000)` is `str(c)` followed by "000", the minus sign included |
| NextBus.Message | next_bus.py:16-91 | every logged failure line is "ERROR: " followed by the text of its `logging.error` call (the logging format is the bare message) |
| NextBus.Logged | next_bus.py:23-91 | each endpoint's failing status is logged as "<Endpoint> endpoint misbehaved", each empty match as "<Stage> not found", and each ambiguous match as "More than one ...", with the exact per-stage lines stated by the four lemmas below |
| NextBus.RouteLines | next_bus.py:23-34 | the route stage logs "Route endpoint misbehaved", "Route not found" and "More than one route found. Please refine route" |
| NextBus.DirectionLines | next_bus.py:44-55 | the direction stage logs "Direction endpoint misbehaved", "Direction not found" and "More than one direction matched. Please refine direction" |
| NextBus.StopLines | next_bus.py:65-76 | the stop stage logs "Stop endpoint misbehaved", "Stop not found" and "More than one stop matched. Please refine stop" |
| NextBus.TimeLines | next_bus.py:85-91 | the times stage logs "Time endpoint misbehaved" and, for an empty list, "No scheduled departures remain" |
| NextBus.Filter | next_bus.py:26 | the comprehension keeps only records of the list that the predicate keeps, keeps every such record, and has one entry per hit position |
| NextBus.FilterSubMultiset | next_bus.py:26 | no record appears in the comprehension more often than in the list; with the length clause of `Filter` this fixes how many copies of each kept record it holds |
| NextBus.SingleMatch | next_bus.py:28-29 | a comprehension of length one holds the record at the only hit position |
| NextBus.Select | next_bus.py:22-36 | a status other than 200 is "misbehaved"; otherwise no hit is "not found", two or more hits are ambiguous, and exactly one hit is the record returned, at that unique position |
| NextBus.UniqueHitIsSelected | next_bus.py:28-29 | a record kept at exactly one position is the one returned |
| NextBus.NoHitIsNotFound | next_bus.py:31-32 | when no record is kept the lookup fails with "not found" |
| NextBus.TwoHitsAreAmbiguous | next_bus.py:33-34 | two distinct kept positions make the lookup ambiguous |
| NextBus.RouteMatcher | next_bus.py:26 | a route matches exactly when the pattern occurs verbatim in its Description |
| NextBus.DirectionMatcher | next_bus.py:47 | a direction matches exactly when the pattern occurs in its Text ignoring ASCII case |
| NextBus.StopMatcher | next_bus.py:68 | a stop matches exactly when the pattern occurs verbatim in its Text |
| NextBus.AppendSegment | next_bus.py:40 | appending `"/" + segment` to a URL adds exactly that segment as the last path piece when the segment has no slash |
| NextBus.AppendSegmentPieces | next_bus.py:40 | whatever the segment holds, the path pieces of `url + "/" + segment` are those of the URL followed by those of the segment |
| NextBus.DirectionsUrlPieces | next_bus.py:40 | `DirectionsUrl`: the directions request's path pieces are the directions URL's followed by the route id's |
| NextBus.StopsUrlPieces | next_bus.py:61 | `StopsUrl`: the stops request's path pieces are the stops URL's, then the route id's, then the direction value's |
| NextBus.TimesUrlPieces | next_bus.py:81 | `TimesUrl`: the departures request's path pieces are the departures URL's, then those of the route id, the direction value and the stop value |
| NextBus.LookupRoute | next_bus.py:18-36 | the route lookup follows the select-one policy over the Routes response, with the case-sensitive Description matcher |
| NextBus.LookupDirection | next_bus.py:39-57 | the direction lookup follows the select-one policy over the response for the route's directions URL, with the case-insensitive matcher |
| NextBus.LookupStop | next_bus.py:60-78 | the stop lookup follows the select-one policy over the response for the route and direction's stops URL |
| NextBus.ExtractDateTime | next_bus.py:105-106 | fails with IndexError exactly when there is no "("; otherwise returns text free of "(" and "-" |
| NextBus.ExtractDateTimeFinds | next_bus.py:105-106 | on `before + "(" + millis + after`, with no "(" in `before`, no "(" or "-" in `millis`, and `after` empty or starting with "(" or "-", the result is exactly `millis` |
| NextBus.ExtractDateTimeSound | next_bus.py:105-106 | every successful result is the millisecond part of such a wrapped shape of the input |
| NextBus.MinutesUntil | next_bus.py:103 | the minutes are the floor of the millisecond difference over 60000: `m*60000 <= d - r < m*60000 + 60000` |
| NextBus.ReferenceText | next_bus.py:101-102 | a given date-time is the reference text unchanged; without one the reference text parses as the clock's seconds times 1000 |
| NextBus.ClockReferenceText | next_bus.py:101-102 | without a date-time the reference text is `str(seconds)` followed by "000" for a nonzero clock reading, and "0" for a reading of zero |
| NextBus.ComputeTimeToDeparture | next_bus.py:99-103 | no "(" raises IndexError; otherwise the result is "m Min" exactly when both the departure text and the reference parse, with m the floored minutes between them, and ValueError otherwise |
| NextBus.ComputeOnTimestamp | next_bus.py:99-103 | for a timestamp wrapping the digits of a count, the result is the floored minutes from the reference to that count |
| NextBus.LookupNextTime | next_bus.py:80-97 | status other than 200 is "misbehaved", an empty list is "no departures"; otherwise only the first record counts: its DepartureText when it is a live estimate, else the computed minutes |
| NextBus.NextBus | next_bus.py:114-135 | a failed route lookup ends the run with that failure; a successful run had successful route, direction and stop lookups |
| NextBus.NextBusUsesSelections | next_bus.py:114-130 | once the three lookups select their records, the run's result is the departure lookup for exactly those records |
| NextBus.NextBusOkNeedsEveryStage | next_bus.py:114-135 | a successful run had a unique hit in each of the three lookups, and its output is the departure lookup's |
| NextBus.RouteFailureEndsRun | next_bus.py:115-118 | a failed route lookup is the run's result, and no other endpoint's answers change it |
| NextBus.DirectionFailureEndsRun | next_bus.py:120-123 | a failed direction lookup is the run's result, and the stop and departure endpoints are not consulted |
| NextBus.StopFailureEndsRun | next_bus.py:125-128 | a failed stop lookup is the run's result, and the departure endpoint is not consulted |
| NextBus.Finish | next_bus.py:114-135 | exit status 0 exactly on success, printing the result and a newline; on failure status 1, nothing on stdout and the failure's line on stderr |
| NextBusScenarios.RouteJunkNotFound | test_units.py:136-140 | "junk" matches no route of the fixture: not found |
| NextBusScenarios.RouteEndpointDown | test_units.py:143-147 | a 404 from the routes endpoint: misbehaved |
| NextBusScenarios.RouteMetroAmbiguous | test_units.py:150-154 | "METRO" matches two routes: ambiguous |
| NextBusScenarios.RouteBrklynCenterFound | test_units.py:156-161 | "Brklyn Center" selects route 5 |
| NextBusScenarios.DirectionJunkNotFound | test_units.py:169-173 | "junk" matches no direction: not found |
| NextBusScenarios.DirectionEndpointDown | test_units.py:176-180 | a 404 from the directions endpoint: misbehaved |
| NextBusScenarios.DirectionBoundAmbiguous | test_units.py:183-187 | "BOUND" matches both directions: ambiguous |
| NextBusScenarios.DirectionSouthboundFound | test_units.py:190-194 | "SOUTHBOUND" selects the direction with Value "1" |
| NextBusScenarios.DirectionNorthFoundIgnoringCase | test_units.py:197-201 | "north" selects NORTHBOUND, Value "4" |
| NextBusScenarios.StopJunkNotFound | test_units.py:208-212 | "junk" matches no stop: not found |
| NextBusScenarios.StopEndpointDown | test_units.py:215-219 | a 404 from the stops endpoint: misbehaved |
| NextBusScenarios.StopAveAmbiguous | test_units.py:222-226 | "Ave" matches two stops: ambiguous |
| NextBusScenarios.StopBrooklynCenterFound | test_units.py:229-233 | "Brooklyn Center" selects the stop with Value "BCTC" |
| NextBusScenarios.TimeEndpointDown | test_units.py:240-244 | a 404 from the departures endpoint: misbehaved |
| NextBusScenarios.NoDepartures | test_units.py:247-252 | an empty departures list: no scheduled departures remain |
| NextBusScenarios.ActualDepartureText | test_units.py:255-260 | a live first departure yields its text "16 Min" |
| NextBusScenarios.ScheduledDepartureMinutes | test_units.py:263-268 | a scheduled first departure 1320000 ms after the reference yields "22 Min" |
| NextBusScenarios.ExtractFixture | test_units.py:272-275 | the fixture's departure time yields "1538971260000" |
| NextBusScenarios.DepartureMillisText | test_units.py:273-275 | `str(1538971260000)` is the fixture's digit text |
| NextBusScenarios.ReferenceMillisText | test_units.py:278 | `str(1538969940000)` is the fixture's reference text |
| NextBusScenarios.ComputeWithDateTime | test_units.py:277-280 | a departure 1320000 ms after the given reference is "22 Min" |
| NextBusScenarios.ComputeWithClock | test_units.py:282-291 | a departure 20 minutes after the clock reading (in whole seconds) is "20 Min", with no date-time given |
| NextBusScenarios.CliRouteEndpointDown | test_cli.py:151-160 | routes endpoint 404: exit 1, stderr "ERROR: Route endpoint misbehaved" |
| NextBusScenarios.CliBadRoute | test_cli.py:162-171 | "5 - Brooklyn Center" matches no route: exit 1, "ERROR: Route not found" |
| NextBusScenarios.CliBadDirection | test_cli.py:173-183 | "west" matches no direction: exit 1, "ERROR: Direction not found" |
| NextBusScenarios.CliDirectionEndpointDown | test_cli.py:185-195 | directions endpoint 404: exit 1, "ERROR: Direction endpoint misbehaved" |
| NextBusScenarios.CliMultipleDirections | test_cli.py:197-207 | "bound" matches both directions: exit 1 with the code's ambiguity line for directions |
| NextBusScenarios.CliStopEndpointDown | test_cli.py:209-220 | stops endpoint 404: exit 1, "ERROR: Stop endpoint misbehaved" |
| NextBusScenarios.CliBadStop | test_cli.py:222-233 | "NON-EXISTANT" matches no stop: exit 1, "ERROR: Stop not found" |
| NextBusScenarios.CliTimesEndpointDown | test_cli.py:235-247 | departures endpoint 404: exit 1, "ERROR: Time endpoint misbehaved" |
| NextBusScenarios.CliSuccessfulLookup | test_cli.py:249-263 | route 5, Brooklyn Center, south with a live departure: exit 0, stdout "16 Min" |
| NextBusScenarios.CliSuccessfulLookupLaterStop | test_cli.py:265-279 | "44th", scheduled departure 1320000 ms after the spaced `-d` reference: exit 0, stdout "22 Min" |
| NextBusScenarios.ComputeWithSpacedDateTime | test_cli.py:272 | a date-time with a leading space parses as the number, giving "22 Min" |

## Left out

- HTTP, the `Accept` header and JSON decoding: each endpoint is a function
  from URL to status code and decoded list. A body that is not a JSON list,
  or a record missing a key, raises in Python and is not modelled. Nor is
  the exception `requests.get` raises on a connection failure or a
  timeout, or the TypeError of a field of the wrong type (a numeric
  `Description` in `in`, a numeric `Route` in the `+` that builds a URL):
  every field is text in the model. JSON fields the program never reads
  are not part of the records.
- `click`: argument parsing, `--help` (`test_cli.py:142-149`) and the
  default host `http://svc.metrotransit.org` (`next_bus.py:10`). The host
  is a parameter of `NextBus`.
- The logging configuration (`next_bus.py:16`) is modelled only in its
  effect: each logged line is the bare message.
- `time.time()`: the clock is the parameter `clockSeconds`, already
  truncated to whole seconds as `int()` does.
- NextBus.Message: an uncaught exception is represented by the last line of
  its traceback only. The ValueError line omits the repr of the rejected
  text that Python appends.
- NextBus.Finish: for an uncaught exception Python writes the whole
  traceback to stderr. The model writes only that last line.
- NextBus.MinutesUntil: computes `floor((d - r) / 60000)` exactly. Python
  divides in floating point twice (`/1000/60`), which can differ from the
  exact floor once the difference exceeds 2^53 milliseconds, and raises
  OverflowError once the difference over 1000 is too large for a float
  (about 1.8e311 milliseconds); the model returns a value there.
- PyText.Lower: ASCII only. Python's `str.lower` also folds non-ASCII
  letters.
- PyInt.ParseInt: accepts ASCII digits, ASCII white space and a sign only.
  Python's `int()` also accepts underscores between digits and non-ASCII
  digits and spaces. Its contract states only that success needs a digit.
  Values are fixed by lemmas for a run of digits (leading zeros included),
  a sign before one, `str(n)`, and one white-space character before or
  after.
- The leading space that the command-line tests put before the host is
  not tracked, because the host is a free parameter of every scenario.
