/**
 * The two sections of the log file (class `LogFileProcesser` in main.cpp).
 *
 * The station section declares one station per line: the first number on a line
 * is a station id, every later number a charger of that station.  The report
 * section holds one report per line, `<charger id> <start> <end> <up>`, and every
 * report is offered to every station.  A section ends at the first empty line or
 * at the end of the file; a number that does not parse makes the whole run fail.
 *
 * The file itself is not modelled: each section is the sequence of lines that
 * follows its header.  Number parsing (`stoi`, `stol`) is a parameter that
 * returns `None` where the library throws.
 */
module LogProcessing {
  import opened Options
  import opened Chargers
  import opened Stations

  /** The index of the first space in `s`, or `|s|` when there is none. */
  function FirstSpace(s: string): (k: nat)
    decreases |s|
    ensures k <= |s|
    ensures k < |s| ==> s[k] == ' '
    ensures forall i :: 0 <= i < k ==> s[i] != ' '
  {
    if s == [] || s[0] == ' ' then 0 else 1 + FirstSpace(s[1..])
  }

  /**
   * The tokens that repeated `getline(ss, token, ' ')` extracts from a line: the
   * pieces between single spaces, in order, where two adjacent spaces give an
   * empty token and a space at the very end gives none.
   */
  function Split(line: string): seq<string>
    decreases |line|
  {
    if line == [] then []
    else
      var k := FirstSpace(line);
      if k == |line| then [line] else [line[..k]] + Split(line[k + 1..])
  }

  /** The tokens put back together with one space between neighbours. */
  function Join(tokens: seq<string>): string
    decreases |tokens|
  {
    if tokens == [] then []
    else if |tokens| == 1 then tokens[0]
    else tokens[0] + " " + Join(tokens[1..])
  }

  /** A line is empty exactly when it has no tokens, and no token holds a space. */
  lemma {:induction false} SplitTokens(line: string)
    decreases |line|
    ensures line == [] <==> Split(line) == []
    ensures forall i :: 0 <= i < |Split(line)| ==> ' ' !in Split(line)[i]
  {
    if line != [] {
      var k := FirstSpace(line);
      var first := line[..k];
      assert ' ' !in first by {
        forall i | 0 <= i < |first| ensures first[i] != ' ' {
        }
      }
      if k < |line| {
        var rest := Split(line[k + 1..]);
        SplitTokens(line[k + 1..]);
        assert Split(line) == [first] + rest;
        forall i | 0 <= i < |Split(line)| ensures ' ' !in Split(line)[i] {
          if i > 0 {
            assert Split(line)[i] == rest[i - 1];
          }
        }
      } else {
        assert first == line;
      }
    }
  }

  /**
   * Splitting loses nothing but a single trailing space: joining the tokens gives
   * the line back, or the line without its last character when that is a space.
   */
  lemma {:induction false} SplitJoin(line: string)
    decreases |line|
    ensures line == [] || line[|line| - 1] != ' ' ==> Join(Split(line)) == line
    ensures line != [] && line[|line| - 1] == ' ' ==> Join(Split(line)) + " " == line
  {
    if line != [] {
      var k := FirstSpace(line);
      if k < |line| {
        var rest := line[k + 1..];
        assert line == line[..k] + " " + rest;
        if rest == [] {
          assert Split(line) == [line[..k]];
        } else {
          SplitJoin(rest);
          SplitTokens(rest);
          assert Split(line)[1..] == Split(rest);
        }
      }
    }
  }

  /** The lines of a section: those before the first empty line. */
  function Section(lines: seq<string>): (s: seq<string>)
    decreases |lines|
    ensures |s| <= |lines| && s == lines[..|s|]
    ensures forall i :: 0 <= i < |s| ==> s[i] != ""
    ensures |s| < |lines| ==> lines[|s|] == ""
  {
    if lines == [] || lines[0] == "" then [] else [lines[0]] + Section(lines[1..])
  }

  /** What processing a section ends with: whether every number parsed, and the stations. */
  datatype Outcome = Outcome(ok: bool, stations: seq<StationView>)

  // ---------------------------------------------------------------------------
  // The station section

  /**
   * The stations after one number of a station line: the first number declares a
   * new station, every later one a new charger of the station declared last.
   */
  function Declare(views: seq<StationView>, id: int, first: bool): seq<StationView>
    requires first || |views| > 0
  {
    if first then views + [StationView(id, [])] else AddToLast(views, [NewCharger(id)])
  }

  /** The stations with `cs` appended to the chargers of the last one. */
  function AddToLast(views: seq<StationView>, cs: seq<ChargerState>): seq<StationView>
    requires |views| > 0
  {
    var last := views[|views| - 1];
    views[..|views| - 1] + [last.(chargers := last.chargers + cs)]
  }

  /** The tokens of one station line, processed in order; stops at the first that does not parse. */
  function StationLine(views: seq<StationView>, tokens: seq<string>, parseInt: string -> Option<int>, first: bool): Outcome
    requires first || |views| > 0
    decreases |tokens|
  {
    if tokens == [] then Outcome(true, views)
    else match parseInt(tokens[0])
      case None => Outcome(false, views)
      case Some(id) => StationLine(Declare(views, id, first), tokens[1..], parseInt, false)
  }

  /** The station section, line by line, as `processStations` reads it. */
  function StationSection(views: seq<StationView>, lines: seq<string>, parseInt: string -> Option<int>): Outcome
    decreases |lines|
  {
    if lines == [] || lines[0] == "" then Outcome(true, views)
    else
      var o := StationLine(views, Split(lines[0]), parseInt, true);
      if !o.ok then o else StationSection(o.stations, lines[1..], parseInt)
  }

  /** Every token parses as a number. */
  predicate AllParse(tokens: seq<string>, parse: string -> Option<int>)
  {
    forall i :: 0 <= i < |tokens| ==> parse(tokens[i]).Some?
  }

  /** Every token of every line of the section parses as a number. */
  predicate SectionParses(lines: seq<string>, parse: string -> Option<int>)
  {
    forall i :: 0 <= i < |Section(lines)| ==> AllParse(Split(Section(lines)[i]), parse)
  }

  /** New chargers with the given ids, in order. */
  function NewChargers(tokens: seq<string>, parse: string -> Option<int>): (cs: seq<ChargerState>)
    requires AllParse(tokens, parse)
    decreases |tokens|
    ensures |cs| == |tokens|
  {
    if tokens == [] then []
    else
      assert AllParse(tokens[1..], parse) by {
        forall i | 0 <= i < |tokens[1..]| ensures parse(tokens[1..][i]).Some? {
          assert tokens[1..][i] == tokens[i + 1];
        }
      }
      [NewCharger(parse(tokens[0]).value)] + NewChargers(tokens[1..], parse)
  }

  /** The station a line declares: the first number is its id, the rest are its chargers. */
  function DeclaredStation(tokens: seq<string>, parse: string -> Option<int>): StationView
    requires |tokens| > 0 && AllParse(tokens, parse)
  {
    StationView(parse(tokens[0]).value, NewChargers(tokens[1..], parse))
  }

  /** The stations the lines declare, one per line, in order. */
  function DeclaredStations(lines: seq<string>, parse: string -> Option<int>): (vs: seq<StationView>)
    requires forall i :: 0 <= i < |lines| ==> |Split(lines[i])| > 0 && AllParse(Split(lines[i]), parse)
    decreases |lines|
    ensures |vs| == |lines|
  {
    if lines == [] then [] else [DeclaredStation(Split(lines[0]), parse)] + DeclaredStations(lines[1..], parse)
  }

  lemma AddToLastTwice(views: seq<StationView>, a: seq<ChargerState>, b: seq<ChargerState>)
    requires |views| > 0
    ensures AddToLast(AddToLast(views, a), b) == AddToLast(views, a + b)
  {
    var v' := AddToLast(views, a);
    assert v'[..|v'| - 1] == views[..|views| - 1];
    assert views[|views| - 1].chargers + a + b == views[|views| - 1].chargers + (a + b);
  }

  /** After the first token, every further token of a line adds one charger to the last station. */
  lemma {:induction false} StationLineAddsChargers(views: seq<StationView>, tokens: seq<string>, parse: string -> Option<int>)
    requires |views| > 0 && AllParse(tokens, parse)
    decreases |tokens|
    ensures StationLine(views, tokens, parse, false) == Outcome(true, AddToLast(views, NewChargers(tokens, parse)))
  {
    if tokens == [] {
      assert AddToLast(views, []) == views by {
        assert views[|views| - 1].chargers + [] == views[|views| - 1].chargers;
      }
    } else {
      var id := parse(tokens[0]).value;
      var views' := Declare(views, id, false);
      assert AllParse(tokens[1..], parse) by {
        forall i | 0 <= i < |tokens[1..]| ensures parse(tokens[1..][i]).Some? {
          assert tokens[1..][i] == tokens[i + 1];
        }
      }
      StationLineAddsChargers(views', tokens[1..], parse);
      AddToLastTwice(views, [NewCharger(id)], NewChargers(tokens[1..], parse));
    }
  }

  /** A line whose tokens all parse declares one station with one charger per further token. */
  lemma StationLineDeclares(views: seq<StationView>, tokens: seq<string>, parse: string -> Option<int>)
    requires |tokens| > 0 && AllParse(tokens, parse)
    ensures StationLine(views, tokens, parse, true) == Outcome(true, views + [DeclaredStation(tokens, parse)])
  {
    var views' := Declare(views, parse(tokens[0]).value, true);
    assert AllParse(tokens[1..], parse) by {
      forall i | 0 <= i < |tokens[1..]| ensures parse(tokens[1..][i]).Some? {
        assert tokens[1..][i] == tokens[i + 1];
      }
    }
    StationLineAddsChargers(views', tokens[1..], parse);
    assert views'[..|views'| - 1] == views;
    assert [] + NewChargers(tokens[1..], parse) == NewChargers(tokens[1..], parse);
  }

  /** A line with a token that does not parse makes the section fail. */
  lemma {:induction false} StationLineFails(views: seq<StationView>, tokens: seq<string>, parse: string -> Option<int>, first: bool)
    requires first || |views| > 0
    requires !AllParse(tokens, parse)
    decreases |tokens|
    ensures !StationLine(views, tokens, parse, first).ok
  {
    if parse(tokens[0]).Some? {
      assert !AllParse(tokens[1..], parse) by {
        var i :| 0 <= i < |tokens| && parse(tokens[i]).None?;
        assert tokens[1..][i - 1] == tokens[i];
      }
      StationLineFails(Declare(views, parse(tokens[0]).value, first), tokens[1..], parse, false);
    }
  }

  /** Every line of a section has at least one token. */
  lemma SectionLinesHaveTokens(lines: seq<string>)
    ensures forall i :: 0 <= i < |Section(lines)| ==> |Split(Section(lines)[i])| > 0
  {
  }

  /** A section that does not end at once: its first line, then the section of the remaining lines. */
  lemma SectionParsesStep(lines: seq<string>, parse: string -> Option<int>)
    requires lines != [] && lines[0] != ""
    ensures Section(lines) == [lines[0]] + Section(lines[1..])
    ensures SectionParses(lines, parse) <==> AllParse(Split(lines[0]), parse) && SectionParses(lines[1..], parse)
  {
    var rest := Section(lines[1..]);
    assert Section(lines) == [lines[0]] + rest;
    if AllParse(Split(lines[0]), parse) && SectionParses(lines[1..], parse) {
      forall i | 0 <= i < |Section(lines)| ensures AllParse(Split(Section(lines)[i]), parse) {
        if i > 0 { assert Section(lines)[i] == rest[i - 1]; }
      }
    }
    if SectionParses(lines, parse) {
      assert Section(lines)[0] == lines[0];
      forall i | 0 <= i < |rest| ensures AllParse(Split(rest[i]), parse) {
        assert Section(lines)[i + 1] == rest[i];
      }
    }
  }

  /**
   * The station section succeeds exactly when every number in it parses, and then
   * it appends, in order, one station per line with the chargers that line lists.
   */
  lemma {:induction false} StationSectionMeaning(views: seq<StationView>, lines: seq<string>, parse: string -> Option<int>)
    decreases |lines|
    ensures StationSection(views, lines, parse).ok <==> SectionParses(lines, parse)
    ensures SectionParses(lines, parse) ==>
      (forall i :: 0 <= i < |Section(lines)| ==> |Split(Section(lines)[i])| > 0)
      && StationSection(views, lines, parse).stations == views + DeclaredStations(Section(lines), parse)
  {
    SectionLinesHaveTokens(lines);
    if lines != [] && lines[0] != "" {
      var tokens := Split(lines[0]);
      SectionParsesStep(lines, parse);
      if AllParse(tokens, parse) {
        SplitTokens(lines[0]);
        StationLineDeclares(views, tokens, parse);
        var views' := views + [DeclaredStation(tokens, parse)];
        StationSectionMeaning(views', lines[1..], parse);
        if SectionParses(lines, parse) {
          var rest := DeclaredStations(Section(lines[1..]), parse);
          assert Section(lines)[0] == lines[0] && Section(lines)[1..] == Section(lines[1..]);
          assert DeclaredStations(Section(lines), parse) == [DeclaredStation(tokens, parse)] + rest;
          assert views' + rest == views + ([DeclaredStation(tokens, parse)] + rest);
        }
      } else {
        StationLineFails(views, tokens, parse, true);
      }
    }
  }

  // ---------------------------------------------------------------------------
  // The report section

  /** One availability report: a charger id, the start and end times, and whether the charger was up. */
  datatype Report = Report(chargerId: int, start: int, end: int, up: bool)

  /** The line holds four tokens and its id and both times parse. */
  predicate ReportTokensParse(tokens: seq<string>, parseInt: string -> Option<int>, parseLong: string -> Option<int>)
  {
    |tokens| >= 4 && parseInt(tokens[0]).Some? && parseLong(tokens[1]).Some? && parseLong(tokens[2]).Some?
  }

  /**
   * `processAvailabilityReports` evaluates `stoi(tokens[0])`, `stol(tokens[1])`,
   * `stol(tokens[2])` and `tokens[3]` in that order without checking how many
   * tokens there are; the first number that does not parse ends the section.  A
   * line is defined when no token is indexed before it exists.
   */
  predicate ReportLineDefined(tokens: seq<string>, parseInt: string -> Option<int>, parseLong: string -> Option<int>)
  {
    |tokens| >= 1
    && (parseInt(tokens[0]).None?
        || (|tokens| >= 2
            && (parseLong(tokens[1]).None?
                || (|tokens| >= 3 && (parseLong(tokens[2]).None? || |tokens| >= 4)))))
  }

  /**
   * The report on a line: the id parses as `int`, the two times as `long`, and the
   * charger was up exactly when the fourth token is `true`; `None` at the first
   * number that does not parse.
   */
  function ParseReport(tokens: seq<string>, parseInt: string -> Option<int>, parseLong: string -> Option<int>): (r: Option<Report>)
    requires ReportLineDefined(tokens, parseInt, parseLong)
    ensures r.Some? <==> ReportTokensParse(tokens, parseInt, parseLong)
    ensures r.Some? ==>
              r.value.chargerId == parseInt(tokens[0]).value
              && r.value.start == parseLong(tokens[1]).value && r.value.end == parseLong(tokens[2]).value
              && (r.value.up <==> tokens[3] == "true")
  {
    match parseInt(tokens[0])
    case None => None
    case Some(id) =>
      match parseLong(tokens[1])
      case None => None
      case Some(start) =>
        match parseLong(tokens[2])
        case None => None
        case Some(end) => Some(Report(id, start, end, tokens[3] == "true"))
  }

  /** A station after a report is offered to it: its first charger with the report's id takes it. */
  function ReportToStation(v: StationView, r: Report): StationView
  {
    v.(chargers := Routed(v.chargers, r.chargerId, r.start, r.end, r.up))
  }

  /** Every station after one report: the report is offered to each station in turn. */
  function ApplyReport(views: seq<StationView>, r: Report): (vs: seq<StationView>)
    ensures |vs| == |views|
    ensures forall k :: 0 <= k < |views| ==> vs[k] == ReportToStation(views[k], r)
  {
    seq(|views|, k requires 0 <= k < |views| => ReportToStation(views[k], r))
  }

  /** Every line the report section reads, up to the first that fails, is defined. */
  predicate ReportSectionDefined(lines: seq<string>, parseInt: string -> Option<int>, parseLong: string -> Option<int>)
    decreases |lines|
  {
    lines == [] || lines[0] == ""
    || (ReportLineDefined(Split(lines[0]), parseInt, parseLong)
        && (ParseReport(Split(lines[0]), parseInt, parseLong).Some? ==> ReportSectionDefined(lines[1..], parseInt, parseLong)))
  }

  /** The report section, line by line, as `processAvailabilityReports` reads it. */
  function ReportSection(views: seq<StationView>, lines: seq<string>,
                         parseInt: string -> Option<int>, parseLong: string -> Option<int>): Outcome
    requires ReportSectionDefined(lines, parseInt, parseLong)
    decreases |lines|
  {
    if lines == [] || lines[0] == "" then Outcome(true, views)
    else match ParseReport(Split(lines[0]), parseInt, parseLong)
      case None => Outcome(false, views)
      case Some(r) => ReportSection(ApplyReport(views, r), lines[1..], parseInt, parseLong)
  }

  /** Every line of the report section holds a report whose numbers parse. */
  predicate ReportsParse(lines: seq<string>, parseInt: string -> Option<int>, parseLong: string -> Option<int>)
  {
    forall i :: 0 <= i < |Section(lines)| ==> ReportTokensParse(Split(Section(lines)[i]), parseInt, parseLong)
  }

  /** The ids of the chargers, in order. */
  function ChargerIds(cs: seq<ChargerState>): (ids: seq<int>)
    ensures |ids| == |cs|
    ensures forall j :: 0 <= j < |cs| ==> ids[j] == cs[j].id
  {
    seq(|cs|, j requires 0 <= j < |cs| => cs[j].id)
  }

  /** The station ids and, per station, the charger ids, in order. */
  function Shape(views: seq<StationView>): (s: seq<(int, seq<int>)>)
    ensures |s| == |views|
    ensures forall k :: 0 <= k < |views| ==> s[k] == (views[k].id, ChargerIds(views[k].chargers))
  {
    seq(|views|, k requires 0 <= k < |views| => (views[k].id, ChargerIds(views[k].chargers)))
  }

  /** A report changes no station id, and no charger id, number or order in any station. */
  lemma ApplyReportKeepsShape(views: seq<StationView>, r: Report)
    ensures Shape(ApplyReport(views, r)) == Shape(views)
  {
    forall k | 0 <= k < |views| ensures Shape(ApplyReport(views, r))[k] == Shape(views)[k] {
      var cs := views[k].chargers;
      RoutedKeepsIds(cs, r.chargerId, r.start, r.end, r.up);
      assert ChargerIds(Routed(cs, r.chargerId, r.start, r.end, r.up)) == ChargerIds(cs);
    }
  }

  /** A report for a charger id that no station has changes nothing. */
  lemma ApplyReportUnknown(views: seq<StationView>, r: Report)
    requires forall k, j :: 0 <= k < |views| && 0 <= j < |views[k].chargers| ==> views[k].chargers[j].id != r.chargerId
    ensures ApplyReport(views, r) == views
  {
    forall k | 0 <= k < |views| ensures ApplyReport(views, r)[k] == views[k] {
      RoutedUnknown(views[k].chargers, r.chargerId, r.start, r.end, r.up);
    }
  }

  /**
   * The report section succeeds exactly when every report in it parses, and it
   * never changes which stations and chargers there are, only their times.
   */
  lemma {:induction false} ReportSectionMeaning(views: seq<StationView>, lines: seq<string>,
                                                parseInt: string -> Option<int>, parseLong: string -> Option<int>)
    requires ReportSectionDefined(lines, parseInt, parseLong)
    decreases |lines|
    ensures ReportSection(views, lines, parseInt, parseLong).ok <==> ReportsParse(lines, parseInt, parseLong)
    ensures Shape(ReportSection(views, lines, parseInt, parseLong).stations) == Shape(views)
  {
    if lines != [] && lines[0] != "" {
      assert Section(lines) == [lines[0]] + Section(lines[1..]);
      match ParseReport(Split(lines[0]), parseInt, parseLong)
      case None =>
        assert !ReportsParse(lines, parseInt, parseLong) by {
          assert Section(lines)[0] == lines[0];
        }
      case Some(r) =>
        ApplyReportKeepsShape(views, r);
        ReportSectionMeaning(ApplyReport(views, r), lines[1..], parseInt, parseLong);
        assert ReportsParse(lines, parseInt, parseLong) <==> ReportsParse(lines[1..], parseInt, parseLong) by {
          forall i | 0 <= i < |Section(lines[1..])| ensures Section(lines)[i + 1] == Section(lines[1..])[i] {
          }
        }
    }
  }

  // ---------------------------------------------------------------------------
  // The processor

  /** The values of a sequence of station objects. */
  function ViewsOf(ss: seq<Station>): (vs: seq<StationView>)
    reads ss
    decreases |ss|
    ensures |vs| == |ss|
    ensures forall k :: 0 <= k < |ss| ==> vs[k] == ss[k].View()
  {
    if ss == [] then [] else ViewsOf(ss[..|ss| - 1]) + [ss[|ss| - 1].View()]
  }

  /** Each station has a charger and each charger some recorded time, so every percentage is defined. */
  predicate UptimesDefined(views: seq<StationView>)
  {
    forall k :: 0 <= k < |views| ==> |views[k].chargers| > 0 && AllHaveTime(views[k].chargers)
  }

  /** One `(station id, percentage)` pair per station, in the order the stations were declared. */
  function Uptimes(views: seq<StationView>): (rows: seq<(int, int)>)
    requires UptimesDefined(views)
    ensures |rows| == |views|
    ensures forall k :: 0 <= k < |views| ==> rows[k].0 == views[k].id
    ensures forall k :: 0 <= k < |views| ==> rows[k].1 == MeanPercent(views[k].chargers)
  {
    seq(|views|, k requires 0 <= k < |views| && UptimesDefined(views) =>
      (views[k].id, MeanPercent(views[k].chargers)))
  }

  /** The log processor; it owns its stations, each a separate object. */
  class LogFileProcessor {
    var stations: seq<Station>
    /** The station objects the processor owns. */
    ghost var Repr: set<Station>

    /** Every station is owned by the processor, and no station object appears twice. */
    ghost predicate Valid()
      reads this
    {
      (forall k :: 0 <= k < |stations| ==> stations[k] in Repr)
      && (forall j, k :: 0 <= j < k < |stations| ==> stations[j] != stations[k])
    }

    function Views(): seq<StationView>
      reads this, stations
    {
      ViewsOf(stations)
    }

    constructor ()
      ensures Valid() && Views() == [] && Repr == {}
    {
      stations := [];
      Repr := {};
    }

    /** `stations.push_back(Station(id))`: a new station with no chargers at the back. */
    method AddStation(id: int)
      requires Valid()
      modifies this
      ensures Valid() && fresh(Repr - old(Repr)) && |stations| > 0
      ensures Views() == old(Views()) + [StationView(id, [])]
    {
      var station := new Station(id);
      stations := stations + [station];
      Repr := Repr + {station};
    }

    /** `stations.back().addNewCharger(id)`: a new charger in the station declared last. */
    method AddChargerToLastStation(id: int)
      requires Valid() && |stations| > 0
      modifies stations[|stations| - 1]
      ensures Views() == Declare(old(Views()), id, false)
    {
      var last := stations[|stations| - 1];
      last.AddNewCharger(id);
      assert Views()[..|stations| - 1] == old(Views())[..|stations| - 1];
    }

    /**
     * Reads one non-empty line of the station section: the first number declares
     * a station, every later one a charger of it; `false` when a number does not parse.
     */
    method ProcessStationLine(tokens: seq<string>, parseInt: string -> Option<int>) returns (ok: bool)
      requires Valid()
      modifies this, Repr
      ensures Valid() && fresh(Repr - old(Repr))
      ensures Outcome(ok, Views()) == StationLine(old(Views()), tokens, parseInt, true)
    {
      ghost var target := StationLine(Views(), tokens, parseInt, true);
      var newStation := true;
      var j := 0;
      while j < |tokens|
        invariant 0 <= j <= |tokens|
        invariant Valid() && fresh(Repr - old(Repr))
        invariant !newStation ==> |stations| > 0
        invariant StationLine(Views(), tokens[j..], parseInt, newStation) == target
      {
        var parsed := parseInt(tokens[j]);
        if parsed.None? {
          return false;
        }
        var id := parsed.value;
        ghost var before, wasNew := Views(), newStation;
        assert tokens[j..][0] == tokens[j] && tokens[j..][1..] == tokens[j + 1..];
        assert StationLine(before, tokens[j..], parseInt, newStation)
            == StationLine(Declare(before, id, newStation), tokens[j + 1..], parseInt, false);
        if newStation {
          AddStation(id);
          newStation := false;
        } else {
          AddChargerToLastStation(id);
        }
        assert Views() == Declare(before, id, wasNew);
        j := j + 1;
      }
      ok := true;
    }

    /** Reads the station section; `false` when a number does not parse. */
    method ProcessStations(lines: seq<string>, parseInt: string -> Option<int>) returns (ok: bool)
      requires Valid()
      modifies this, Repr
      ensures Valid() && fresh(Repr - old(Repr))
      ensures Outcome(ok, Views()) == StationSection(old(Views()), lines, parseInt)
    {
      ghost var target := StationSection(Views(), lines, parseInt);
      var i := 0;
      while i < |lines| && lines[i] != ""
        invariant 0 <= i <= |lines|
        invariant Valid() && fresh(Repr - old(Repr))
        invariant StationSection(Views(), lines[i..], parseInt) == target
      {
        assert lines[i..][1..] == lines[i + 1..];
        ok := ProcessStationLine(Split(lines[i]), parseInt);
        if !ok {
          return;
        }
        i := i + 1;
      }
      ok := true;
    }

    /** Offers one report to every station in turn. */
    method OfferReport(report: Report)
      requires Valid()
      modifies Repr
      ensures Views() == ApplyReport(old(Views()), report)
    {
      ghost var before := Views();
      var k := 0;
      while k < |stations|
        invariant 0 <= k <= |stations|
        invariant forall m :: 0 <= m < k ==> stations[m].View() == ReportToStation(before[m], report)
        invariant forall m :: k <= m < |stations| ==> stations[m].View() == before[m]
      {
        var station := stations[k];
        station.AddTimeToCharger(report.chargerId, report.start, report.end, report.up);
        assert forall m :: 0 <= m < |stations| && m != k ==> stations[m] != station;
        k := k + 1;
      }
      assert forall m :: 0 <= m < |stations| ==> Views()[m] == ApplyReport(before, report)[m];
    }

    /** Reads the report section, offering each report to every station; `false` when a number does not parse. */
    method ProcessAvailabilityReports(lines: seq<string>, parseInt: string -> Option<int>, parseLong: string -> Option<int>)
      returns (ok: bool)
      requires Valid() && ReportSectionDefined(lines, parseInt, parseLong)
      modifies Repr
      ensures Outcome(ok, Views()) == ReportSection(old(Views()), lines, parseInt, parseLong)
    {
      ghost var target := ReportSection(Views(), lines, parseInt, parseLong);
      var i := 0;
      while i < |lines| && lines[i] != ""
        invariant 0 <= i <= |lines|
        invariant ReportSectionDefined(lines[i..], parseInt, parseLong)
        invariant ReportSection(Views(), lines[i..], parseInt, parseLong) == target
      {
        var tokens := Split(lines[i]);
        assert lines[i..][1..] == lines[i + 1..];
        var parsed := ParseReport(tokens, parseInt, parseLong);
        if parsed.None? {
          return false;
        }
        OfferReport(parsed.value);
        i := i + 1;
      }
      ok := true;
    }

    /** The `(station id, percentage)` pairs `processFile` prints, one per station in declaration order. */
    method UptimeReport() returns (rows: seq<(int, int)>)
      requires UptimesDefined(Views())
      ensures rows == Uptimes(Views())
    {
      ghost var views := Views();
      ghost var expected := Uptimes(views);
      rows := [];
      var i := 0;
      while i < |stations|
        invariant 0 <= i <= |stations|
        invariant rows == expected[..i]
      {
        assert views[i] == stations[i].View();
        var id := stations[i].GetStationId();
        var percent := stations[i].GetPercentUptime();
        assert expected[i] == (id, percent);
        assert expected[..i + 1] == expected[..i] + [expected[i]];
        rows := rows + [(id, percent)];
        i := i + 1;
      }
      assert expected[..i] == expected;
    }
  }

  /**
   * The outcome `processFile` promises when no percentage is undefined: `None`
   * (printed as `ERROR`) when a number in either section does not parse, and
   * otherwise one pair per declared station.
   */
  function FileOutcome(stationLines: seq<string>, reportLines: seq<string>,
                       parseInt: string -> Option<int>, parseLong: string -> Option<int>): Option<seq<(int, int)>>
    requires FileDefined(stationLines, reportLines, parseInt, parseLong)
  {
    var s := StationSection([], stationLines, parseInt);
    if !s.ok then None
    else
      var r := ReportSection(s.stations, reportLines, parseInt, parseLong);
      if !r.ok then None else Some(Uptimes(r.stations))
  }

  /**
   * The run is defined: when the station section succeeds, the report lines it
   * goes on to read are defined, and when both succeed every station has a
   * defined percentage.  A failing station section leaves the reports unread.
   */
  predicate FileDefined(stationLines: seq<string>, reportLines: seq<string>,
                        parseInt: string -> Option<int>, parseLong: string -> Option<int>)
  {
    var s := StationSection([], stationLines, parseInt);
    s.ok ==>
      ReportSectionDefined(reportLines, parseInt, parseLong)
      && var r := ReportSection(s.stations, reportLines, parseInt, parseLong);
         r.ok ==> UptimesDefined(r.stations)
  }

  /** The file is `ERROR` exactly when a number in either section does not parse. */
  lemma FileOutcomeMeaning(stationLines: seq<string>, reportLines: seq<string>,
                           parseInt: string -> Option<int>, parseLong: string -> Option<int>)
    requires FileDefined(stationLines, reportLines, parseInt, parseLong)
    ensures FileOutcome(stationLines, reportLines, parseInt, parseLong).Some?
        <==> SectionParses(stationLines, parseInt) && ReportsParse(reportLines, parseInt, parseLong)
  {
    StationSectionMeaning([], stationLines, parseInt);
    var s := StationSection([], stationLines, parseInt);
    if s.ok {
      ReportSectionMeaning(s.stations, reportLines, parseInt, parseLong);
    }
  }

  /**
   * `processFile` without the file: the station section, then the report section,
   * then the uptime of every station; `None` stands for the `ERROR` line.
   */
  method ProcessFile(stationLines: seq<string>, reportLines: seq<string>,
                     parseInt: string -> Option<int>, parseLong: string -> Option<int>)
    returns (result: Option<seq<(int, int)>>)
    requires FileDefined(stationLines, reportLines, parseInt, parseLong)
    ensures result == FileOutcome(stationLines, reportLines, parseInt, parseLong)
    ensures result.Some? <==> SectionParses(stationLines, parseInt) && ReportsParse(reportLines, parseInt, parseLong)
  {
    FileOutcomeMeaning(stationLines, reportLines, parseInt, parseLong);
    ghost var stationOutcome := StationSection([], stationLines, parseInt);
    var processor := new LogFileProcessor();
    var ok := processor.ProcessStations(stationLines, parseInt);
    assert ok == stationOutcome.ok && processor.Views() == stationOutcome.stations;
    if !ok {
      return None;
    }
    ghost var reportOutcome := ReportSection(stationOutcome.stations, reportLines, parseInt, parseLong);
    ok := processor.ProcessAvailabilityReports(reportLines, parseInt, parseLong);
    assert ok == reportOutcome.ok && processor.Views() == reportOutcome.stations;
    if !ok {
      return None;
    }
    ghost var expected := FileOutcome(stationLines, reportLines, parseInt, parseLong);
    assert expected == Some(Uptimes(reportOutcome.stations));
    var rows := processor.UptimeReport();
    assert rows == Uptimes(reportOutcome.stations);
    result := Some(rows);
  }
}
