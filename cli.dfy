/** The interactive flow of simple_main.py: the menu loop, the prompt for a
    predefined location key, the prompt for custom coordinates, and the run
    of the analysis with its interpretation. Console input is a sequence of
    lines; what the flow reports is a sequence of events; `float()` is the
    collaborator `parse`. */
module Cli {
  import opened Wrappers
  import opened Text
  import Config
  import BandMath
  import Statistics
  import Stac

  /** The reports the loops print in response to an input line. */
  datatype Event =
    | InvalidChoice
    | ShowedConfig
    | Goodbye
    | ListedLocations
    | LocationNotFound(key: string)
    | InvalidFormat
    | LatitudeOutOfRange
    | LongitudeOutOfRange

  // ----- re-prompting loops -----

  /** What a prompt loop ends with (`None` when the input runs out first),
      what it reported, and how many lines it read. */
  datatype Prompt<T> = Prompt(value: Option<T>, events: seq<Event>, used: nat)

  /** One iteration of a prompt loop: it ends the loop with a value, or it
      reports an event and the loop asks again. */
  datatype Step<T> = Done(value: T) | Retry(report: Event)

  /** A prompt result preceded by `n` lines that produced `events`. */
  function Resume<T>(events: seq<Event>, n: nat, p: Prompt<T>): Prompt<T> {
    Prompt(p.value, events + p.events, n + p.used)
  }

  lemma ResumeResume<T>(a: seq<Event>, m: nat, b: seq<Event>, n: nat, p: Prompt<T>)
    ensures Resume(a, m, Resume(b, n, p)) == Resume(a + b, m + n, p)
  {
    assert a + (b + p.events) == (a + b) + p.events;
  }

  /** A `while True` loop that reads one line per iteration until `step`
      says it is done, over the remaining input. */
  function RePrompt<T>(lines: seq<string>, step: string -> Step<T>): (p: Prompt<T>)
    ensures p.used <= |lines|
    ensures p.value.None? ==> p.used == |lines|
    decreases |lines|
  {
    if lines == [] then Prompt(None, [], 0)
    else match step(lines[0])
      case Done(v) => Prompt(Some(v), [], 1)
      case Retry(e) => Resume([e], 1, RePrompt(lines[1..], step))
  }

  lemma RePromptAt<T>(lines: seq<string>, i: nat, step: string -> Step<T>)
    requires i < |lines|
    ensures RePrompt(lines[i..], step) == match step(lines[i])
      case Done(v) => Prompt(Some(v), [], 1)
      case Retry(e) => Resume([e], 1, RePrompt(lines[i + 1..], step))
  {
    assert lines[i..][0] == lines[i];
    assert lines[i..][1..] == lines[i + 1..];
  }

  /** A prompt loop ends at the first line its step accepts: it reads up to
      and including that line, each earlier line was retried, and their
      reports come out in order. Without such a line it reads and reports
      every line. */
  lemma {:induction false} RePromptFirstDone<T>(lines: seq<string>, step: string -> Step<T>)
    ensures var p := RePrompt(lines, step);
      var retried := if p.value.Some? then p.used - 1 else p.used;
      && 0 <= retried
      && |p.events| == retried
      && (forall j :: 0 <= j < retried ==> step(lines[j]) == Retry(p.events[j]))
      && (p.value.Some? ==> p.used > 0 && step(lines[p.used - 1]) == Done(p.value.value))
    decreases |lines|
  {
    if lines != [] {
      RePromptFirstDone(lines[1..], step);
      var p := RePrompt(lines, step);
      if step(lines[0]).Retry? {
        var q := RePrompt(lines[1..], step);
        assert p.events == [step(lines[0]).report] + q.events;
        forall j | 1 <= j < (if p.value.Some? then p.used - 1 else p.used)
          ensures step(lines[j]) == Retry(p.events[j])
        {
          assert lines[j] == lines[1..][j - 1];
        }
        if p.value.Some? {
          assert lines[p.used - 1] == lines[1..][q.used - 1];
        }
      }
    }
  }

  /** A `while True` prompt loop: read a line, let `step` answer it, and
      either leave the loop with its value or report and read again. */
  method PromptUntilDone<T>(lines: seq<string>, step: string -> Step<T>) returns (p: Prompt<T>)
    ensures p == RePrompt(lines, step)
  {
    var events: seq<Event> := [];
    var i := 0;
    assert lines[0..] == lines;
    while i < |lines|
      invariant 0 <= i <= |lines|
      invariant RePrompt(lines, step) == Resume(events, i, RePrompt(lines[i..], step))
    {
      RePromptAt(lines, i, step);
      var answer := step(lines[i]);
      if answer.Done? {
        assert events + [] == events;
        return Prompt(Some(answer.value), events, i + 1);
      }
      ResumeResume(events, i, [answer.report], 1, RePrompt(lines[i + 1..], step));
      events, i := events + [answer.report], i + 1;
    }
    assert lines[i..] == [];
    assert events + [] == events;
    return Prompt(None, events, i);
  }

  // ----- the predefined-location prompt -----

  /** One line of the location-key loop: the line is stripped and
      lower-cased; "list" lists the table again, a known key selects its
      location, and the ValueError of an unknown key is reported. */
  function ReadLocationKey(line: string): Step<Config.Location> {
    var key := Lower(Strip(line));
    if key == "list" then Retry(ListedLocations)
    else match Config.GetLocation(key)
      case Ok(location) => Done(location)
      case Err(e) => Retry(LocationNotFound(e.key))
  }

  lemma ReadLocationKeySpec(line: string)
    ensures var key := Lower(Strip(line));
      var step := ReadLocationKey(line);
      && (step == Retry(ListedLocations) <==> key == "list")
      && (step.Done? <==> key != "list" && key in Config.Locations)
      && (step.Done? ==> step.value == Config.Locations[key])
      && (step == Retry(LocationNotFound(key)) <==> key != "list" && key !in Config.Locations)
  {
  }

  /** Surrounding white space and letter case do not matter to the key
      prompt: a padded key reads as its lower-case form. */
  lemma KeyIgnoresPaddingAndCase(pre: string, key: string, post: string)
    requires AllSpace(pre) && AllSpace(post) && Unpadded(key)
    ensures ReadLocationKey(pre + key + post) == ReadLocationKey(Lower(key))
  {
    StripLowerPadded(pre, key, post);
    SameKeySameStep(pre + key + post, Lower(key));
  }

  lemma SameKeySameStep(a: string, b: string)
    requires Lower(Strip(a)) == Lower(Strip(b))
    ensures ReadLocationKey(a) == ReadLocationKey(b)
  {
  }

  /** The location-key loop on the remaining input. */
  function KeyLoop(lines: seq<string>): Prompt<Config.Location> {
    RePrompt(lines, ReadLocationKey)
  }

  /** The location the key loop selects is the table entry of the last key
      it read, after "list" and unknown keys only. */
  lemma KeyLoopSelectsFromTable(lines: seq<string>)
    ensures var p := KeyLoop(lines);
      p.value.Some? ==>
        var key := Lower(Strip(lines[p.used - 1]));
        p.used > 0 && key in Config.Locations && p.value.value == Config.Locations[key]
  {
    var p := KeyLoop(lines);
    RePromptFirstDone(lines, ReadLocationKey);
    if p.value.Some? {
      ReadLocationKeySpec(lines[p.used - 1]);
    }
  }

  /** Every line before the selected one was "list" or an unknown key, and
      was answered by listing the table or by the not-found error. */
  lemma KeyLoopRetries(lines: seq<string>)
    ensures var p := KeyLoop(lines);
      && |p.events| <= |lines|
      && forall j :: 0 <= j < |p.events| ==> RetriedKey(lines[j], p.events[j])
  {
    var p := KeyLoop(lines);
    RePromptFirstDone(lines, ReadLocationKey);
    forall j | 0 <= j < |p.events|
      ensures RetriedKey(lines[j], p.events[j])
    {
      KeyRetry(lines[j]);
    }
  }

  /** How the key prompt answers a line it does not accept. */
  predicate RetriedKey(line: string, e: Event) {
    var key := Lower(Strip(line));
    if key == "list" then e == ListedLocations
    else key !in Config.Locations && e == LocationNotFound(key)
  }

  lemma KeyRetry(line: string)
    requires ReadLocationKey(line).Retry?
    ensures RetriedKey(line, ReadLocationKey(line).report)
  {
  }


  /** `use_predefined_location` up to the call of `run_analysis`. */
  method UsePredefinedLocation(lines: seq<string>) returns (p: Prompt<Config.Location>)
    ensures p == KeyLoop(lines)
  {
    p := PromptUntilDone(lines, ReadLocationKey);
  }


  // ----- the custom-coordinates prompt -----

  datatype LatLon = LatLon(lat: real, lon: real)

  /** One line of the coordinate loop: strip, split on ',', parse both parts
      (stripped), then check the latitude and after it the longitude. A
      split into other than two parts and a failed parse are the same
      ValueError. */
  function ReadCoordinates(line: string, parse: string -> Option<real>): Step<LatLon> {
    var parts := Split(Strip(line), ',');
    if |parts| != 2 then Retry(InvalidFormat)
    else
      var lat := parse(Strip(parts[0]));
      var lon := parse(Strip(parts[1]));
      if lat.None? || lon.None? then Retry(InvalidFormat)
      else if !(-90.0 <= lat.value <= 90.0) then Retry(LatitudeOutOfRange)
      else if !(-180.0 <= lon.value <= 180.0) then Retry(LongitudeOutOfRange)
      else Done(LatLon(lat.value, lon.value))
  }

  /** A line is accepted exactly when it splits into two parts that parse to
      a latitude and a longitude in range, and the coordinate is then (first
      part, second part). Malformed input is reported as such; with both
      values out of range, the latitude is the one reported. */
  lemma ReadCoordinatesSpec(line: string, parse: string -> Option<real>)
    ensures var step := ReadCoordinates(line, parse);
      var parts := Split(Strip(line), ',');
      var wellFormed := |parts| == 2 && parse(Strip(parts[0])).Some? && parse(Strip(parts[1])).Some?;
      && (step == Retry(InvalidFormat) <==> !wellFormed)
      && (wellFormed ==>
            var lat := parse(Strip(parts[0])).value;
            var lon := parse(Strip(parts[1])).value;
            && (step.Done? <==> Config.ValidLatitude(lat) && Config.ValidLongitude(lon))
            && (step.Done? ==> step.value == LatLon(lat, lon))
            && (step == Retry(LatitudeOutOfRange) <==> !Config.ValidLatitude(lat))
            && (step == Retry(LongitudeOutOfRange) <==> Config.ValidLatitude(lat) && !Config.ValidLongitude(lon)))
  {
    var parts := Split(Strip(line), ',');
    if |parts| == 2 {
      var lat := parse(Strip(parts[0]));
      var lon := parse(Strip(parts[1]));
      if lat.Some? && lon.Some? {
        assert ReadCoordinates(line, parse) ==
          if !(-90.0 <= lat.value <= 90.0) then Retry(LatitudeOutOfRange)
          else if !(-180.0 <= lon.value <= 180.0) then Retry(LongitudeOutOfRange)
          else Done(LatLon(lat.value, lon.value));
      }
    }
  }

  /** Accepted input splits into exactly two parts, so it holds exactly one comma. */
  lemma AcceptedHasOneComma(line: string, parse: string -> Option<real>)
    requires ReadCoordinates(line, parse).Done?
    ensures Occurrences(Strip(line), ',') == 1
  {
    ReadCoordinatesSpec(line, parse);
  }

  /** A line typed as "lat,lon" with white space around and inside the two
      fields is read field by field, the first as the latitude. */
  lemma TypedCoordinates(pre: string, lat: string, lon: string, post: string, parse: string -> Option<real>)
    requires AllSpace(pre) && AllSpace(post)
    requires ',' !in lat && ',' !in lon
    requires Unpadded(lat + [','] + lon)
    ensures var step := ReadCoordinates(pre + (lat + [','] + lon) + post, parse);
      var la := parse(Strip(lat));
      var lo := parse(Strip(lon));
      && (step.Done? <==>
            la.Some? && lo.Some? && Config.ValidLatitude(la.value) && Config.ValidLongitude(lo.value))
      && (step.Done? ==> step.value == LatLon(la.value, lo.value))
  {
    var core := lat + [','] + lon;
    var line := pre + core + post;
    StripPadded(pre, core, post);
    SplitAfter(lat, lon, ',');
    SplitWithout(lon, ',');
    assert Split(Strip(line), ',') == [lat, lon];
    ReadCoordinatesSpec(line, parse);
  }

  /** The coordinate loop on the remaining input. */
  function CoordinateLoop(lines: seq<string>, parse: string -> Option<real>): Prompt<LatLon> {
    RePrompt(lines, line => ReadCoordinates(line, parse))
  }

  /** The coordinate loop only ever accepts a coordinate in range, and it is
      the one read from the last line it consumed. */
  lemma CoordinateLoopAccepts(lines: seq<string>, parse: string -> Option<real>)
    ensures var p := CoordinateLoop(lines, parse);
      p.value.Some? ==>
        && Config.ValidLatitude(p.value.value.lat)
        && Config.ValidLongitude(p.value.value.lon)
        && p.used > 0
        && FieldsRead(lines[p.used - 1], parse, p.value.value)
  {
    var step := line => ReadCoordinates(line, parse);
    RePromptFirstDone(lines, step);
    var p := CoordinateLoop(lines, parse);
    if p.value.Some? {
      ReadCoordinatesSpec(lines[p.used - 1], parse);
    }
  }

  /** The line splits into two fields that parse to the coordinate, the
      first to its latitude. */
  predicate FieldsRead(line: string, parse: string -> Option<real>, c: LatLon) {
    var parts := Split(Strip(line), ',');
    && |parts| == 2
    && parse(Strip(parts[0])) == Some(c.lat)
    && parse(Strip(parts[1])) == Some(c.lon)
  }


  /** `use_custom_coordinates` up to the call of `run_analysis`. */
  method UseCustomCoordinates(lines: seq<string>, parse: string -> Option<real>) returns (p: Prompt<LatLon>)
    ensures p == CoordinateLoop(lines, parse)
  {
    p := PromptUntilDone(lines, line => ReadCoordinates(line, parse));
  }


  // ----- the main menu -----

  datatype MenuChoice = UsePredefined | UseCustom | ShowConfiguration | Exit | Invalid

  /** The stripped menu input: "1" to "4", anything else invalid. */
  function ReadChoice(line: string): MenuChoice {
    var choice := Strip(line);
    if choice == "1" then UsePredefined
    else if choice == "2" then UseCustom
    else if choice == "3" then ShowConfiguration
    else if choice == "4" then Exit
    else Invalid
  }

  /** Each option is chosen by exactly its digit, surrounding whitespace
      aside; every other input is invalid. */
  lemma ReadChoiceSpec(line: string)
    ensures ReadChoice(line) == UsePredefined <==> Strip(line) == "1"
    ensures ReadChoice(line) == UseCustom <==> Strip(line) == "2"
    ensures ReadChoice(line) == ShowConfiguration <==> Strip(line) == "3"
    ensures ReadChoice(line) == Exit <==> Strip(line) == "4"
    ensures ReadChoice(line) == Invalid <==> Strip(line) !in {"1", "2", "3", "4"}
  {
  }

  /** The options after which the menu is shown again. */
  predicate Loops(c: MenuChoice) {
    c == ShowConfiguration || c == Invalid
  }

  /** The name `run_analysis` is given: a table entry's name, or the custom
      label built from the coordinates. */
  datatype Place = Named(name: string) | CustomPlace(lat: real, lon: real)

  /** How the menu ends: `run_analysis(lon, lat, name)`, `sys.exit(0)`, or
      the input running out. */
  datatype Outcome = Analyse(lon: real, lat: real, place: Place) | Exited | InputEnded

  datatype Session = Session(outcome: Outcome, events: seq<Event>, used: nat)

  /** A session preceded by `n` lines that produced `events`. */
  function Continue(events: seq<Event>, n: nat, s: Session): Session {
    Session(s.outcome, events + s.events, n + s.used)
  }

  lemma ContinueContinue(a: seq<Event>, m: nat, b: seq<Event>, n: nat, s: Session)
    ensures Continue(a, m, Continue(b, n, s)) == Continue(a + b, m + n, s)
  {
    assert a + (b + s.events) == (a + b) + s.events;
  }

  /** `use_predefined_location` hands the table entry to `run_analysis`,
      longitude first. */
  function FromKey(p: Prompt<Config.Location>): (s: Session)
    ensures s.events == p.events && s.used == p.used
    ensures s.outcome.Analyse? <==> p.value.Some?
    ensures p.value.Some? ==>
      var l := p.value.value;
      s.outcome.lon == l.lon && s.outcome.lat == l.lat && s.outcome.place == Named(l.name)
    ensures p.value.None? ==> s.outcome == InputEnded
  {
    match p.value
      case Some(l) => Session(Analyse(l.lon, l.lat, Named(l.name)), p.events, p.used)
      case None => Session(InputEnded, p.events, p.used)
  }

  /** `use_custom_coordinates` reads "lat, lon" and calls `run_analysis(lon, lat, ...)`. */
  function FromCoordinates(p: Prompt<LatLon>): (s: Session)
    ensures s.events == p.events && s.used == p.used
    ensures s.outcome.Analyse? <==> p.value.Some?
    ensures p.value.Some? ==>
      var c := p.value.value;
      s.outcome.lon == c.lon && s.outcome.lat == c.lat && s.outcome.place == CustomPlace(c.lat, c.lon)
    ensures p.value.None? ==> s.outcome == InputEnded
  {
    match p.value
      case Some(c) => Session(Analyse(c.lon, c.lat, CustomPlace(c.lat, c.lon)), p.events, p.used)
      case None => Session(InputEnded, p.events, p.used)
  }

  /** What an exit of the menu (option 1 or 2) does on the input after the
      choice: it reads no more than there is, never exits the program, and
      ends without an analysis only once it has read everything. */
  predicate LeavesOn(s: Session, rest: seq<string>) {
    && s.used <= |rest|
    && s.outcome != Exited
    && (s.outcome == InputEnded ==> s.used == |rest|)
  }

  ghost predicate Leaves(route: seq<string> -> Session) {
    forall rest :: LeavesOn(route(rest), rest)
  }

  /** How the menu is wired: how a line reads as a choice, and what options
      1 and 2 do on the input after the choice. */
  datatype Routes = Routes(
    choose: string -> MenuChoice,
    predefined: seq<string> -> Session,
    custom: seq<string> -> Session)

  ghost predicate Wired(w: Routes) {
    Leaves(w.predefined) && Leaves(w.custom)
  }

  /** The menu loop of `main` on the remaining input. */
  function Menu(lines: seq<string>, w: Routes): (s: Session)
    requires Wired(w)
    ensures s.used <= |lines|
    ensures s.outcome == InputEnded ==> s.used == |lines|
    decreases |lines|
  {
    if lines == [] then Session(InputEnded, [], 0)
    else match w.choose(lines[0])
      case UsePredefined => Continue([], 1, w.predefined(lines[1..]))
      case UseCustom => Continue([], 1, w.custom(lines[1..]))
      case ShowConfiguration => Continue([ShowedConfig], 1, Menu(lines[1..], w))
      case Exit => Session(Exited, [Goodbye], 1)
      case Invalid => Continue([InvalidChoice], 1, Menu(lines[1..], w))
  }

  lemma MenuAt(lines: seq<string>, i: nat, w: Routes)
    requires Wired(w)
    requires i < |lines|
    ensures Menu(lines[i..], w) == match w.choose(lines[i])
      case UsePredefined => Continue([], 1, w.predefined(lines[i + 1..]))
      case UseCustom => Continue([], 1, w.custom(lines[i + 1..]))
      case ShowConfiguration => Continue([ShowedConfig], 1, Menu(lines[i + 1..], w))
      case Exit => Session(Exited, [Goodbye], 1)
      case Invalid => Continue([InvalidChoice], 1, Menu(lines[i + 1..], w))
  {
    assert lines[i..][0] == lines[i];
    assert lines[i..][1..] == lines[i + 1..];
  }

  /** Option 1: `use_predefined_location` on the input after the choice. */
  function PredefinedRoute(rest: seq<string>): Session {
    FromKey(KeyLoop(rest))
  }

  /** Option 2: `use_custom_coordinates` on the input after the choice. */
  function CustomRoute(parse: string -> Option<real>): seq<string> -> Session {
    rest => FromCoordinates(CoordinateLoop(rest, parse))
  }

  /** The menu as `main` wires it. */
  function MainRoutes(parse: string -> Option<real>): (w: Routes)
    ensures Wired(w)
  {
    RoutesLeave(parse);
    Routes(ReadChoice, PredefinedRoute, CustomRoute(parse))
  }

  lemma RoutesLeave(parse: string -> Option<real>)
    ensures Leaves(PredefinedRoute) && Leaves(CustomRoute(parse))
  {
    forall rest: seq<string>
      ensures LeavesOn(PredefinedRoute(rest), rest) && LeavesOn(CustomRoute(parse)(rest), rest)
    {
      assert CustomRoute(parse)(rest) == FromCoordinates(CoordinateLoop(rest, parse));
    }
  }

  /** The menu loop of `main` as the program wires it. */
  function MenuLoop(lines: seq<string>, parse: string -> Option<real>): Session {
    Menu(lines, MainRoutes(parse))
  }

  /** What the menu reports for a line after which it is shown again. */
  function LoopReport(c: MenuChoice): Event {
    if c == ShowConfiguration then ShowedConfig else InvalidChoice
  }

  /** The reports of a run of lines after which the menu is shown again. */
  function LoopReports(lines: seq<string>, k: nat, choose: string -> MenuChoice): (events: seq<Event>)
    requires k <= |lines|
    ensures |events| == k
    ensures forall j :: 0 <= j < k ==> events[j] == LoopReport(choose(lines[j]))
  {
    seq(k, j requires 0 <= j < k => LoopReport(choose(lines[j])))
  }

  /** The menu loop of `main` until a choice leaves it: the index of that
      line, or the end of the input, and what the menu reported before. */
  method ReadMenu(lines: seq<string>) returns (i: nat, events: seq<Event>)
    ensures i <= |lines|
    ensures forall j :: 0 <= j < i ==> Loops(ReadChoice(lines[j]))
    ensures i < |lines| ==> !Loops(ReadChoice(lines[i]))
    ensures events == LoopReports(lines, i, ReadChoice)
  {
    events, i := [], 0;
    while i < |lines|
      invariant i <= |lines|
      invariant forall j :: 0 <= j < i ==> Loops(ReadChoice(lines[j]))
      invariant events == LoopReports(lines, i, ReadChoice)
    {
      var choice := ReadChoice(lines[i]);
      if choice == ShowConfiguration {
        events, i := events + [ShowedConfig], i + 1;
      } else if choice == Invalid {
        events, i := events + [InvalidChoice], i + 1;
      } else {
        return;
      }
    }
  }

  /** The menu loop of `main`, up to the call of `run_analysis`; options 1
      and 2 `break` out of the loop once their prompt has returned. */
  method RunMenu(lines: seq<string>, parse: string -> Option<real>) returns (s: Session)
    ensures s == MenuLoop(lines, parse)
  {
    ghost var w := MainRoutes(parse);
    var i, events := ReadMenu(lines);
    assert w.choose == ReadChoice;
    MenuLoopingPrefix(lines, w, i);
    if i == |lines| {
      assert lines[i..] == [];
      assert events + [] == events;
      return Session(InputEnded, events, i);
    }
    MenuAt(lines, i, w);
    var choice := ReadChoice(lines[i]);
    if choice == UsePredefined {
      var p := UsePredefinedLocation(lines[i + 1..]);
      ContinueContinue(events, i, [], 1, FromKey(p));
      assert events + [] == events;
      s := Continue(events, i + 1, FromKey(p));
    } else if choice == UseCustom {
      var p := UseCustomCoordinates(lines[i + 1..], parse);
      assert w.custom(lines[i + 1..]) == FromCoordinates(p);
      ContinueContinue(events, i, [], 1, FromCoordinates(p));
      assert events + [] == events;
      s := Continue(events, i + 1, FromCoordinates(p));
    } else {
      s := Session(Exited, events + [Goodbye], i + 1);
    }
  }

  /** Lines that show the configuration or are invalid only report and
      show the menu again: after k of them the menu is where it was, on the
      rest of the input. */
  lemma {:induction false} MenuLoopingPrefix(lines: seq<string>, w: Routes, k: nat)
    requires Wired(w)
    requires k <= |lines|
    requires forall j :: 0 <= j < k ==> Loops(w.choose(lines[j]))
    ensures Menu(lines, w) == Continue(LoopReports(lines, k, w.choose), k, Menu(lines[k..], w))
    decreases k
  {
    var reports := LoopReports(lines, k, w.choose);
    if k == 0 {
      assert lines[0..] == lines;
      assert reports == [];
      assert Menu(lines, w).events == [] + Menu(lines, w).events;
    } else {
      var rest := lines[1..];
      forall j | 0 <= j < k - 1
        ensures Loops(w.choose(rest[j]))
      {
        assert rest[j] == lines[j + 1];
      }
      MenuLoopingPrefix(rest, w, k - 1);
      var tail := LoopReports(rest, k - 1, w.choose);
      assert reports == [LoopReport(w.choose(lines[0]))] + tail;
      assert rest[k - 1..] == lines[k..];
      assert Menu(lines, w) == Continue([LoopReport(w.choose(lines[0]))], 1, Menu(rest, w));
      ContinueContinue([LoopReport(w.choose(lines[0]))], 1, tail, k - 1, Menu(lines[k..], w));
    }
  }

  /** An exit of the menu that only starts analyses at coordinates in range. */
  ghost predicate AnalysesInRange(route: seq<string> -> Session) {
    forall rest :: InRange(route(rest).outcome)
  }

  predicate InRange(o: Outcome) {
    o.Analyse? ==> Config.ValidLatitude(o.lat) && Config.ValidLongitude(o.lon)
  }

  lemma {:induction false} MenuKeepsRange(lines: seq<string>, w: Routes)
    requires Wired(w)
    requires AnalysesInRange(w.predefined) && AnalysesInRange(w.custom)
    ensures InRange(Menu(lines, w).outcome)
    decreases |lines|
  {
    if lines != [] && Loops(w.choose(lines[0])) {
      MenuKeepsRange(lines[1..], w);
    }
  }

  /** The menu only ever starts an analysis at coordinates in range: the
      table's locations are, and custom ones are checked. */
  lemma MenuAnalysesValidCoordinates(lines: seq<string>, parse: string -> Option<real>)
    ensures var s := MenuLoop(lines, parse);
      s.outcome.Analyse? ==> Config.ValidLatitude(s.outcome.lat) && Config.ValidLongitude(s.outcome.lon)
  {
    var w := MainRoutes(parse);
    forall rest: seq<string>
      ensures InRange(w.predefined(rest).outcome) && InRange(w.custom(rest).outcome)
    {
      KeyLoopSelectsFromTable(rest);
      Config.LocationsInRange();
      CoordinateLoopAccepts(rest, parse);
      assert w.predefined(rest) == FromKey(KeyLoop(rest));
      assert w.custom(rest) == FromCoordinates(CoordinateLoop(rest, parse));
    }
    MenuKeepsRange(lines, w);
  }

  /** The program exits only on the line that reads as option 4, saying
      goodbye last. */
  lemma {:induction false} MenuExitsOnlyOnFour(lines: seq<string>, w: Routes)
    requires Wired(w)
    ensures var s := Menu(lines, w);
      s.outcome == Exited ==>
        s.used > 0 && w.choose(lines[s.used - 1]) == Exit && |s.events| > 0 && s.events[|s.events| - 1] == Goodbye
    decreases |lines|
  {
    if lines != [] {
      var s := Menu(lines, w);
      var c := w.choose(lines[0]);
      if c == Exit {
        assert s.events[|s.events| - 1] == Goodbye;
      } else if Loops(c) {
        var t := Menu(lines[1..], w);
        MenuExitsOnlyOnFour(lines[1..], w);
        assert s == Continue([LoopReport(c)], 1, t);
        if t.outcome == Exited {
          assert lines[s.used - 1] == lines[1..][t.used - 1];
          assert s.events == [LoopReport(c)] + t.events;
          assert s.events[|s.events| - 1] == t.events[|t.events| - 1];
        }
      } else {
        assert LeavesOn(w.predefined(lines[1..]), lines[1..]);
        assert LeavesOn(w.custom(lines[1..]), lines[1..]);
      }
    }
  }

  /** `main` exits only on a line that strips to "4", saying goodbye last. */
  lemma MenuLoopExitsOnlyOnFour(lines: seq<string>, parse: string -> Option<real>)
    ensures var s := MenuLoop(lines, parse);
      s.outcome == Exited ==>
        s.used > 0 && Strip(lines[s.used - 1]) == "4" && |s.events| > 0 && s.events[|s.events| - 1] == Goodbye
  {
    var w := MainRoutes(parse);
    var s := Menu(lines, w);
    assert MenuLoop(lines, parse) == s;
    MenuExitsOnlyOnFour(lines, w);
    if s.outcome == Exited {
      ExitIsFour(lines[s.used - 1]);
    }
  }

  lemma ExitIsFour(line: string)
    requires ReadChoice(line) == Exit
    ensures Strip(line) == "4"
  {
  }

  /** The analysis option 1 starts for the line holding the accepted key:
      the table entry of that key, under its own name. */
  predicate KeySelects(line: string, o: Outcome) {
    var key := Lower(Strip(line));
    && key in Config.Locations
    && var l := Config.Locations[key];
    && o == Analyse(l.lon, l.lat, Named(l.name))
  }

  /** The analysis option 2 starts for the line holding the accepted
      coordinates: the first field is the latitude and the second the
      longitude, in the reverse of the order `run_analysis` takes them. */
  predicate CoordinatesRead(line: string, parse: string -> Option<real>, o: Outcome) {
    && o.Analyse?
    && FieldsRead(line, parse, LatLon(o.lat, o.lon))
    && o.place == CustomPlace(o.lat, o.lon)
  }

  lemma PredefinedRouteSelects(rest: seq<string>)
    ensures var s := PredefinedRoute(rest);
      s.outcome.Analyse? ==> 0 < s.used <= |rest| && KeySelects(rest[s.used - 1], s.outcome)
  {
    KeyLoopSelectsFromTable(rest);
  }

  lemma CustomRouteReads(rest: seq<string>, parse: string -> Option<real>)
    ensures var s := CustomRoute(parse)(rest);
      s.outcome.Analyse? ==> 0 < s.used <= |rest| && CoordinatesRead(rest[s.used - 1], parse, s.outcome)
  {
    var p := CoordinateLoop(rest, parse);
    assert CustomRoute(parse)(rest) == FromCoordinates(p);
    CoordinateLoopAccepts(rest, parse);
    if p.value.Some? {
      assert LatLon(p.value.value.lat, p.value.value.lon) == p.value.value;
    }
  }

  /** Choosing "2", after any number of lines that only show the menu again,
      analyses the coordinates typed on the last line read, with its first
      field as the latitude. */
  lemma CustomAnalysisTakesLatitudeFirst(lines: seq<string>, parse: string -> Option<real>, i: nat)
    requires i < |lines| && ReadChoice(lines[i]) == UseCustom
    requires forall j :: 0 <= j < i ==> Loops(ReadChoice(lines[j]))
    ensures var s := MenuLoop(lines, parse);
      s.outcome.Analyse? ==> s.used >= i + 2 && CoordinatesRead(lines[s.used - 1], parse, s.outcome)
  {
    var w := MainRoutes(parse);
    assert w.choose == ReadChoice;
    MenuLoopingPrefix(lines, w, i);
    MenuAt(lines, i, w);
    var t := w.custom(lines[i + 1..]);
    CustomRouteReads(lines[i + 1..], parse);
    if t.outcome.Analyse? {
      assert lines[i + t.used] == lines[i + 1..][t.used - 1];
    }
  }

  /** Choosing "1", after any number of lines that only show the menu again,
      analyses the table entry of the key typed on the last line read. */
  lemma PredefinedAnalysisUsesTable(lines: seq<string>, parse: string -> Option<real>, i: nat)
    requires i < |lines| && ReadChoice(lines[i]) == UsePredefined
    requires forall j :: 0 <= j < i ==> Loops(ReadChoice(lines[j]))
    ensures var s := MenuLoop(lines, parse);
      s.outcome.Analyse? ==> s.used >= i + 2 && KeySelects(lines[s.used - 1], s.outcome)
  {
    var w := MainRoutes(parse);
    assert w.choose == ReadChoice;
    MenuLoopingPrefix(lines, w, i);
    MenuAt(lines, i, w);
    var t := w.predefined(lines[i + 1..]);
    PredefinedRouteSelects(lines[i + 1..]);
    if t.outcome.Analyse? {
      assert lines[i + t.used] == lines[i + 1..][t.used - 1];
    }
  }

  const RunBufferKm: real := 2.0
  const RunCloudCoverMax: int := 20

  /** The hard-coded values are those of ANALYSIS_CONFIG, and the search
      limit `search_sentinel2` defaults to is its `limit`. */
  lemma RunParametersMatchConfig()
    ensures RunBufferKm == Config.Analysis.bufferKm
    ensures RunCloudCoverMax == Config.Analysis.cloudCoverMax
    ensures Stac.DefaultLimit == Config.Analysis.limit
  {
  }

  datatype Interpretation = HighWater | ModerateWater | LowWater | VeryLowWater

  /** The closing interpretation of the water percentage. */
  function Interpret(waterPercentage: real): (i: Interpretation)
    ensures i == HighWater <==> waterPercentage > 50.0
    ensures i == ModerateWater <==> 20.0 < waterPercentage <= 50.0
    ensures i == LowWater <==> 5.0 < waterPercentage <= 20.0
    ensures i == VeryLowWater <==> waterPercentage <= 5.0
  {
    if waterPercentage > 50.0 then HighWater
    else if waterPercentage > 20.0 then ModerateWater
    else if waterPercentage > 5.0 then LowWater
    else VeryLowWater
  }

  /** The interpretations from least to most water. */
  function Rank(i: Interpretation): nat {
    match i
      case VeryLowWater => 0
      case LowWater => 1
      case ModerateWater => 2
      case HighWater => 3
  }

  /** More water never reads as less. */
  lemma InterpretMonotone(p: real, q: real)
    requires p <= q
    ensures Rank(Interpret(p)) <= Rank(Interpret(q))
  {
  }

  /** A share of the pixels is above 100/k percent exactly when k times
      the part exceeds the whole. */
  lemma PercentAbove(part: nat, whole: nat, k: nat)
    requires whole > 0 && k > 0
    ensures (part as real / whole as real) * 100.0 > 100.0 / k as real <==> k * part > whole
  {
    var q := part as real / whole as real;
    var t := whole as real;
    var kk := k as real;
    var c := 100.0 / kk;
    assert q * t == part as real;
    assert c * kk == 100.0;
    assert q * 100.0 > c <==> q * 100.0 * kk > c * kk;
    assert q * 100.0 * kk > 100.0 <==> q * kk > 1.0;
    assert q * kk > 1.0 <==> q * kk * t > t;
    assert q * kk * t == kk * part as real;
    assert (k * part) as real == kk * part as real;
  }

  /** In pixel counts: "high" means more than half of the valid pixels are
      water, at least "moderate" more than a fifth, at least "low" more than
      a twentieth. */
  lemma InterpretByPixels(water: nat, total: nat)
    requires water <= total && total > 0
    ensures var i := Interpret((water as real / total as real) * 100.0);
      && (i == HighWater <==> 2 * water > total)
      && (Rank(i) >= Rank(ModerateWater) <==> 5 * water > total)
      && (Rank(i) >= Rank(LowWater) <==> 20 * water > total)
  {
    PercentAbove(water, total, 2);
    PercentAbove(water, total, 5);
    PercentAbove(water, total, 20);
  }

  /** A completed analysis is read through its water pixel counts. */
  lemma CompletedInterpretation(env: Collaborators, lon: real, lat: real)
    ensures var r := RunAnalysis(env, lon, lat);
      r.Completed? ==>
        && (r.interpretation == HighWater <==> 2 * r.stats.waterPixels > r.stats.totalPixels)
        && (r.interpretation == VeryLowWater <==> 20 * r.stats.waterPixels <= r.stats.totalPixels)
  {
    var r := RunAnalysis(env, lon, lat);
    if r.Completed? {
      var w := Config.GetDateRange(env.today, None);
      var download := Stac.DownloadAndCalculateNdwi(env.catalog, env.fetch, lon, lat, w.start, w.end, RunBufferKm, RunCloudCoverMax);
      var valid := Statistics.ValidData(Statistics.ToSamples(download.value.ndwi));
      assert r.stats == Statistics.Summarize(valid);
      InterpretByPixels(r.stats.waterPixels, r.stats.totalPixels);
    }
  }

  /** The collaborators of `run_analysis`: today's date, the STAC search and
      the raster download. */
  datatype Collaborators = Collaborators(
    today: int,
    catalog: Stac.SearchQuery -> seq<Stac.Item>,
    fetch: (string, Stac.BBox) -> BandMath.Grid)

  /** Why `run_analysis` prints its troubleshooting tips: the download
      workflow raised, or there was no valid data and `stats['mean']`
      raised a KeyError. */
  datatype AnalysisError = WorkflowFailed(cause: Stac.WorkflowError) | StatisticsMissing

  datatype Report = Completed(stats: Statistics.Stats, interpretation: Interpretation) | Failed(error: AnalysisError)

  /** `run_analysis(lon, lat, name)`: the default date range, download and
      NDWI with the hard-coded radius and cloud limit, the statistics of the
      NDWI file, and the interpretation. */
  function RunAnalysis(env: Collaborators, lon: real, lat: real): (r: Report)
    ensures var w := Config.GetDateRange(env.today, None);
      var items := env.catalog(Stac.SearchQueryFor(lon, lat, env.today - 30, env.today, 20, 5));
      var download := Stac.DownloadAndCalculateNdwi(env.catalog, env.fetch, lon, lat, w.start, w.end, 2.0, 20);
      && (r == Failed(WorkflowFailed(Stac.NoSentinelData)) <==> items == [])
      && (r.Failed? && r.error.WorkflowFailed? <==> download.Err?)
      && (download.Err? ==> r == Failed(WorkflowFailed(download.error)))
      && (r == Failed(StatisticsMissing) <==> download.Ok? && BandMath.PixelCount(download.value.green) == 0)
      && (r.Completed? ==>
            && download.Ok?
            && Statistics.AnalyzeNdwi(Statistics.ToSamples(download.value.ndwi)) == Ok(r.stats)
            && r.stats.totalPixels == BandMath.PixelCount(download.value.green)
            && r.interpretation == Interpret(r.stats.waterPercentage))
  {
    var w := Config.GetDateRange(env.today, None);
    match Stac.DownloadAndCalculateNdwi(env.catalog, env.fetch, lon, lat, w.start, w.end, RunBufferKm, RunCloudCoverMax)
      case Err(e) => Failed(WorkflowFailed(e))
      case Ok(results) =>
        Statistics.AnalyzeComputedNdwi(results.green, results.nir);
        match Statistics.AnalyzeNdwi(Statistics.ToSamples(results.ndwi))
          case Err(_) => Failed(StatisticsMissing)
          case Ok(stats) => Completed(stats, Interpret(stats.waterPercentage))
  }

  /** For non-negative bands a completed analysis reports NDWI extremes in
      [-1, 1] and a water percentage in [0, 100]. */
  lemma CompletedAnalysisInRange(env: Collaborators, lon: real, lat: real)
    requires forall url, box :: BandMath.NonNegative(env.fetch(url, box))
    ensures var r := RunAnalysis(env, lon, lat);
      r.Completed? ==>
        && -1.0 <= r.stats.min <= r.stats.mean <= r.stats.max <= 1.0
        && 0.0 <= r.stats.waterPercentage <= 100.0
  {
    var w := Config.GetDateRange(env.today, None);
    var download := Stac.DownloadAndCalculateNdwi(env.catalog, env.fetch, lon, lat, w.start, w.end, RunBufferKm, RunCloudCoverMax);
    if download.Ok? {
      Statistics.AnalyzeComputedNdwi(download.value.green, download.value.nir);
    }
  }

  /** The whole program on the given input: the menu, then the analysis it
      leads to, if any. */
  method RunMain(lines: seq<string>, parse: string -> Option<real>, env: Collaborators)
    returns (s: Session, report: Option<Report>)
    ensures s == MenuLoop(lines, parse)
    ensures s.outcome.Analyse? <==> report.Some?
    ensures s.outcome.Analyse? ==> report.value == RunAnalysis(env, s.outcome.lon, s.outcome.lat)
  {
    s := RunMenu(lines, parse);
    if s.outcome.Analyse? {
      report := Some(RunAnalysis(env, s.outcome.lon, s.outcome.lat));
    } else {
      report := None;
    }
  }
}
