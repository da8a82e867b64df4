/**
 * A worked log file, followed through the model from its lines to the printed
 * percentages.  The number parser stands in for `stoi`/`stol` on the handful of
 * numerals the file uses.
 */
module LogExample {
  import opened Options
  import opened Chargers
  import opened Stations
  import opened LogProcessing

  /** `stoi`/`stol` on the numerals of the example; any other string fails to parse. */
  function ExampleNumber(s: string): Option<int>
  {
    if s == "0" then Some(0) else if s == "1" then Some(1) else if s == "2" then Some(2)
    else if s == "10" then Some(10) else if s == "11" then Some(11) else if s == "20" then Some(20)
    else if s == "50" then Some(50) else if s == "100" then Some(100) else None
  }

  /** A non-empty token without a space. */
  predicate Word(w: string)
  {
    |w| > 0 && forall i :: 0 <= i < |w| ==> w[i] != ' '
  }

  lemma {:induction false} FirstSpaceAfter(w: string, t: string)
    requires forall i :: 0 <= i < |w| ==> w[i] != ' '
    requires |t| > 0 && t[0] == ' '
    ensures FirstSpace(w + t) == |w|
    decreases |w|
  {
    if w != [] {
      assert (w + t)[1..] == w[1..] + t;
      FirstSpaceAfter(w[1..], t);
    }
  }

  lemma SplitWord(w: string)
    requires Word(w)
    ensures Split(w) == [w]
  {
  }

  lemma SplitCons(w: string, rest: string)
    requires Word(w)
    ensures Split(w + " " + rest) == [w] + Split(rest)
  {
    var line := w + " " + rest;
    assert line == w + (" " + rest);
    FirstSpaceAfter(w, " " + rest);
    assert line[..|w|] == w && line[|w| + 1..] == rest;
  }

  lemma Split2(a: string, b: string)
    requires Word(a) && Word(b)
    ensures Split(a + " " + b) == [a, b]
  {
    SplitCons(a, b);
    SplitWord(b);
  }

  lemma Split3(a: string, b: string, c: string)
    requires Word(a) && Word(b) && Word(c)
    ensures Split(a + " " + b + " " + c) == [a, b, c]
  {
    assert a + " " + b + " " + c == a + " " + (b + " " + c);
    SplitCons(a, b + " " + c);
    Split2(b, c);
  }

  lemma Split4(a: string, b: string, c: string, d: string)
    requires Word(a) && Word(b) && Word(c) && Word(d)
    ensures Split(a + " " + b + " " + c + " " + d) == [a, b, c, d]
  {
    assert a + " " + b + " " + c + " " + d == a + " " + (b + " " + c + " " + d);
    SplitCons(a, b + " " + c + " " + d);
    Split3(b, c, d);
  }

  /** A line of two numbers declares one station with one charger. */
  lemma StationLine2(views: seq<StationView>, line: string, a: string, b: string, p: string -> Option<int>)
    requires Word(a) && Word(b) && line == a + " " + b
    requires p(a).Some? && p(b).Some?
    ensures StationLine(views, Split(line), p, true)
         == Outcome(true, views + [StationView(p(a).value, [NewCharger(p(b).value)])])
  {
    Split2(a, b);
    var tokens := [a, b];
    assert AllParse(tokens, p);
    StationLineDeclares(views, tokens, p);
    assert tokens[1..] == [b] && [b][1..] == [];
    assert NewChargers([b], p) == [NewCharger(p(b).value)];
  }

  /** A line of three numbers declares one station with two chargers, in order. */
  lemma StationLine3(views: seq<StationView>, line: string, a: string, b: string, c: string, p: string -> Option<int>)
    requires Word(a) && Word(b) && Word(c) && line == a + " " + b + " " + c
    requires p(a).Some? && p(b).Some? && p(c).Some?
    ensures StationLine(views, Split(line), p, true)
         == Outcome(true, views + [StationView(p(a).value, [NewCharger(p(b).value), NewCharger(p(c).value)])])
  {
    Split3(a, b, c);
    var tokens := [a, b, c];
    assert AllParse(tokens, p);
    StationLineDeclares(views, tokens, p);
    assert tokens[1..] == [b, c] && [b, c][1..] == [c] && [c][1..] == [];
    assert NewChargers([c], p) == [NewCharger(p(c).value)];
    assert NewChargers([b, c], p) == [NewCharger(p(b).value), NewCharger(p(c).value)];
  }

  lemma ExampleStationLine1(views: seq<StationView>)
    ensures StationLine(views, Split("1 10 11"), ExampleNumber, true)
         == Outcome(true, views + [StationView(1, [NewCharger(10), NewCharger(11)])])
  {
    StationLine3(views, "1 10 11", "1", "10", "11", ExampleNumber);
  }

  lemma ExampleStationLine2(views: seq<StationView>)
    ensures StationLine(views, Split("2 20"), ExampleNumber, true)
         == Outcome(true, views + [StationView(2, [NewCharger(20)])])
  {
    StationLine2(views, "2 20", "2", "20", ExampleNumber);
  }

  lemma ExampleStationSection(sl: seq<string>)
    requires sl == ["1 10 11", "2 20"]
    ensures StationSection([], sl, ExampleNumber)
         == Outcome(true, [StationView(1, [NewCharger(10), NewCharger(11)]), StationView(2, [NewCharger(20)])])
  {
    var p := ExampleNumber;
    var v1 := [StationView(1, [NewCharger(10), NewCharger(11)])];
    var v2 := v1 + [StationView(2, [NewCharger(20)])];
    ExampleStationLine1([]);
    assert [] + v1 == v1;
    ExampleStationLine2(v1);
    assert sl[0] == "1 10 11" && sl[1..] == ["2 20"];
    SectionStep([], sl, p);
    assert StationSection([], sl, p) == StationSection(v1, ["2 20"], p);
    SectionStep(v1, ["2 20"], p);
    assert ["2 20"][1..] == [];
    assert StationSection(v1, ["2 20"], p) == StationSection(v2, [], p);
  }

  lemma SectionStep(views: seq<StationView>, lines: seq<string>, p: string -> Option<int>)
    requires |lines| > 0 && lines[0] != ""
    requires StationLine(views, Split(lines[0]), p, true).ok
    ensures StationSection(views, lines, p)
         == StationSection(StationLine(views, Split(lines[0]), p, true).stations, lines[1..], p)
  {
  }

  lemma ExampleReportLine(line: string, a: string, b: string, c: string, d: string, r: Report)
    requires Word(a) && Word(b) && Word(c) && Word(d)
    requires line == a + " " + b + " " + c + " " + d
    requires ExampleNumber(a) == Some(r.chargerId) && ExampleNumber(b) == Some(r.start)
    requires ExampleNumber(c) == Some(r.end) && (r.up <==> d == "true")
    ensures |Split(line)| == 4 && ParseReport(Split(line), ExampleNumber, ExampleNumber) == Some(r)
  {
    Split4(a, b, c, d);
  }

  /** Applies a report that the first charger of the first station takes and no other charger matches. */
  lemma ExampleApply1(views: seq<StationView>)
    requires views == [StationView(1, [NewCharger(10), NewCharger(11)]), StationView(2, [NewCharger(20)])]
    ensures ApplyReport(views, Report(10, 0, 100, true))
         == [StationView(1, [ChargerState(10, 100, 0, 100), NewCharger(11)]), StationView(2, [NewCharger(20)])]
  {
    var vs := ApplyReport(views, Report(10, 0, 100, true));
    RoutedFirstMatch(views[0].chargers, 10, 0, 100, true, 0);
    RoutedUnknown(views[1].chargers, 10, 0, 100, true);
    assert vs[0] == StationView(1, [ChargerState(10, 100, 0, 100), NewCharger(11)]);
  }

  lemma ExampleApply2(views: seq<StationView>)
    requires views == [StationView(1, [ChargerState(10, 100, 0, 100), NewCharger(11)]), StationView(2, [NewCharger(20)])]
    ensures ApplyReport(views, Report(11, 0, 50, false))
         == [StationView(1, [ChargerState(10, 100, 0, 100), ChargerState(11, 0, 50, 50)]), StationView(2, [NewCharger(20)])]
  {
    var vs := ApplyReport(views, Report(11, 0, 50, false));
    RoutedFirstMatch(views[0].chargers, 11, 0, 50, false, 1);
    RoutedUnknown(views[1].chargers, 11, 0, 50, false);
    assert vs[0] == StationView(1, [ChargerState(10, 100, 0, 100), ChargerState(11, 0, 50, 50)]);
  }

  lemma ExampleApply3(views: seq<StationView>)
    requires views == [StationView(1, [ChargerState(10, 100, 0, 100), ChargerState(11, 0, 50, 50)]), StationView(2, [NewCharger(20)])]
    ensures ApplyReport(views, Report(20, 0, 10, true))
         == [StationView(1, [ChargerState(10, 100, 0, 100), ChargerState(11, 0, 50, 50)]),
             StationView(2, [ChargerState(20, 10, 0, 10)])]
  {
    var vs := ApplyReport(views, Report(20, 0, 10, true));
    RoutedUnknown(views[0].chargers, 20, 0, 10, true);
    RoutedFirstMatch(views[1].chargers, 20, 0, 10, true, 0);
    assert vs[1] == StationView(2, [ChargerState(20, 10, 0, 10)]);
  }

  lemma ThreeReports(views: seq<StationView>, rl: seq<string>, r1: Report, r2: Report, r3: Report,
                      parseInt: string -> Option<int>, parseLong: string -> Option<int>)
    requires |rl| == 3 && rl[0] != "" && rl[1] != "" && rl[2] != ""
    requires |Split(rl[0])| >= 4 && ParseReport(Split(rl[0]), parseInt, parseLong) == Some(r1)
    requires |Split(rl[1])| >= 4 && ParseReport(Split(rl[1]), parseInt, parseLong) == Some(r2)
    requires |Split(rl[2])| >= 4 && ParseReport(Split(rl[2]), parseInt, parseLong) == Some(r3)
    ensures ReportSectionDefined(rl, parseInt, parseLong)
    ensures ReportSection(views, rl, parseInt, parseLong)
         == Outcome(true, ApplyReport(ApplyReport(ApplyReport(views, r1), r2), r3))
  {
    var rest1, rest2 := rl[1..], rl[2..];
    assert rest1[0] == rl[1] && rest1[1..] == rest2 && rest2[0] == rl[2] && rest2[1..] == [];
    assert ReportSectionDefined(rest2, parseInt, parseLong);
    assert ReportSectionDefined(rest1, parseInt, parseLong);
    var w1 := ApplyReport(views, r1);
    var w2 := ApplyReport(w1, r2);
    assert ReportSection(views, rl, parseInt, parseLong) == ReportSection(w1, rest1, parseInt, parseLong);
    assert ReportSection(w1, rest1, parseInt, parseLong) == ReportSection(w2, rest2, parseInt, parseLong);
    assert ReportSection(w2, rest2, parseInt, parseLong) == ReportSection(ApplyReport(w2, r3), [], parseInt, parseLong);
  }

  lemma ExampleReport1(line: string)
    requires line == "10 0 100 true"
    ensures |Split(line)| >= 4 && ParseReport(Split(line), ExampleNumber, ExampleNumber) == Some(Report(10, 0, 100, true))
  {
    ExampleReportLine(line, "10", "0", "100", "true", Report(10, 0, 100, true));
  }

  lemma ExampleReport2(line: string)
    requires line == "11 0 50 false"
    ensures |Split(line)| >= 4 && ParseReport(Split(line), ExampleNumber, ExampleNumber) == Some(Report(11, 0, 50, false))
  {
    ExampleReportLine(line, "11", "0", "50", "false", Report(11, 0, 50, false));
  }

  lemma ExampleReport3(line: string)
    requires line == "20 0 10 true"
    ensures |Split(line)| >= 4 && ParseReport(Split(line), ExampleNumber, ExampleNumber) == Some(Report(20, 0, 10, true))
  {
    ExampleReportLine(line, "20", "0", "10", "true", Report(20, 0, 10, true));
  }

  lemma ExampleReportSection(views: seq<StationView>, rl: seq<string>)
    requires views == [StationView(1, [NewCharger(10), NewCharger(11)]), StationView(2, [NewCharger(20)])]
    requires rl == ["10 0 100 true", "11 0 50 false", "20 0 10 true"]
    ensures ReportSectionDefined(rl, ExampleNumber, ExampleNumber)
    ensures ReportSection(views, rl, ExampleNumber, ExampleNumber)
         == Outcome(true, [StationView(1, [ChargerState(10, 100, 0, 100), ChargerState(11, 0, 50, 50)]),
                           StationView(2, [ChargerState(20, 10, 0, 10)])])
  {
    var r1, r2, r3 := Report(10, 0, 100, true), Report(11, 0, 50, false), Report(20, 0, 10, true);
    ExampleReport1(rl[0]);
    ExampleReport2(rl[1]);
    ExampleReport3(rl[2]);
    ThreeReports(views, rl, r1, r2, r3, ExampleNumber, ExampleNumber);
    ExampleApply1(views);
    ExampleApply2(ApplyReport(views, r1));
    ExampleApply3(ApplyReport(ApplyReport(views, r1), r2));
  }

  lemma ExampleUptimes(views: seq<StationView>)
    requires views == [StationView(1, [ChargerState(10, 100, 0, 100), ChargerState(11, 0, 50, 50)]),
                       StationView(2, [ChargerState(20, 10, 0, 10)])]
    ensures UptimesDefined(views) && Uptimes(views) == [(1, 50), (2, 100)]
  {
    var cs := views[0].chargers;
    assert Percent(cs[0]) == 100 && Percent(cs[1]) == 0;
    assert cs[..1] == [cs[0]] && cs[..1][..0] == [];
    assert SumPercents(cs) == 100;
    assert MeanPercent(cs) == 50;
    assert MeanPercent(views[1].chargers) == 100;
  }

  /**
   * The whole file: two stations, three reports; station 1 is at 50 (one charger
   * up for all of its time, one down for all of its time) and station 2 at 100.
   */
  lemma ExampleFile(sl: seq<string>, rl: seq<string>)
    requires sl == ["1 10 11", "2 20"]
    requires rl == ["10 0 100 true", "11 0 50 false", "20 0 10 true"]
    ensures FileDefined(sl, rl, ExampleNumber, ExampleNumber)
    ensures FileOutcome(sl, rl, ExampleNumber, ExampleNumber) == Some([(1, 50), (2, 100)])
  {
    ExampleStationSection(sl);
    var views := [StationView(1, [NewCharger(10), NewCharger(11)]), StationView(2, [NewCharger(20)])];
    ExampleReportSection(views, rl);
    ExampleUptimes(ReportSection(views, rl, ExampleNumber, ExampleNumber).stations);
  }

  /** A line of three tokens, one of which does not parse, makes the section fail. */
  lemma StationLine3Fails(views: seq<StationView>, line: string, a: string, b: string, c: string, p: string -> Option<int>)
    requires Word(a) && Word(b) && Word(c) && line == a + " " + b + " " + c
    requires p(a).None? || p(b).None? || p(c).None?
    ensures !StationLine(views, Split(line), p, true).ok
  {
    Split3(a, b, c);
    var tokens := [a, b, c];
    assert !AllParse(tokens, p) by {
      assert tokens[0] == a && tokens[1] == b && tokens[2] == c;
    }
    StationLineFails(views, tokens, p, true);
  }

  lemma ExampleBadLine(line: string)
    requires line == "1 10 x"
    ensures !StationLine([], Split(line), ExampleNumber, true).ok
  {
    StationLine3Fails([], line, "1", "10", "x", ExampleNumber);
  }

  /** A station line with a token that is not a number: the whole file is `ERROR`, whatever the reports. */
  lemma ExampleBadNumber(sl: seq<string>, rl: seq<string>)
    requires sl == ["1 10 x"]
    ensures FileDefined(sl, rl, ExampleNumber, ExampleNumber)
    ensures FileOutcome(sl, rl, ExampleNumber, ExampleNumber) == None
  {
    ExampleBadLine(sl[0]);
    assert !StationSection([], sl, ExampleNumber).ok;
  }

  /**
   * A first report whose charger id does not parse ends the section with failure;
   * the lines after it are never read, whatever they hold.
   */
  lemma FirstReportFails(views: seq<StationView>, rl: seq<string>, a: string, b: string, c: string, d: string,
                         p: string -> Option<int>)
    requires Word(a) && Word(b) && Word(c) && Word(d)
    requires |rl| > 0 && rl[0] == a + " " + b + " " + c + " " + d && p(a).None?
    ensures ReportSectionDefined(rl, p, p)
    ensures ReportSection(views, rl, p, p) == Outcome(false, views)
  {
    Split4(a, b, c, d);
    assert Split(rl[0])[0] == a;
  }

  lemma ExampleBadReports(views: seq<StationView>, rl: seq<string>)
    requires rl == ["x 0 1 true", "1 2"]
    ensures ReportSectionDefined(rl, ExampleNumber, ExampleNumber)
    ensures ReportSection(views, rl, ExampleNumber, ExampleNumber) == Outcome(false, views)
  {
    FirstReportFails(views, rl, "x", "0", "1", "true", ExampleNumber);
  }

  /**
   * Stations that parse followed by a report whose id is `x`: the file is `ERROR`,
   * and the short line after that report is never indexed.
   */
  lemma ExampleBadReport(sl: seq<string>, rl: seq<string>)
    requires sl == ["1 10 11", "2 20"] && rl == ["x 0 1 true", "1 2"]
    ensures FileDefined(sl, rl, ExampleNumber, ExampleNumber)
    ensures FileOutcome(sl, rl, ExampleNumber, ExampleNumber) == None
  {
    ExampleStationSection(sl);
    var views := [StationView(1, [NewCharger(10), NewCharger(11)]), StationView(2, [NewCharger(20)])];
    ExampleBadReports(views, rl);
  }
}
