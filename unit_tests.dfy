/**
 * The two scenarios of class `UnitTest` in main.cpp, run against the model: each
 * method returns what the C++ test returns and promises that it is `true`.
 */
module UnitTests {
  import opened Chargers
  import opened Stations

  /** `test1`: a charger reported up for its whole span is at 100, one reported down is at 0. */
  method Test1() returns (passed: bool)
    ensures passed
  {
    var charger1 := new Charger(1);
    var charger2 := new Charger(2);

    charger1.AddTime(60000, 127823, true);
    charger2.AddTime(0, 1878, false);

    var percent1 := charger1.GetPercentUptime();
    var percent2 := charger2.GetPercentUptime();
    passed := percent1 == 100 && percent2 == 0;
  }

  /** `test2`: a station of two all-up chargers is at 100, one of two all-down chargers at 0. */
  method Test2() returns (passed: bool)
    ensures passed
  {
    var station1 := new Station(1);
    var station2 := new Station(2);

    station1.AddNewCharger(1);
    station1.AddNewCharger(2);

    station2.AddNewCharger(3);
    station2.AddNewCharger(4);

    RoutedFirstMatch(station1.chargers, 1, 25000, 50000, true, 0);
    station1.AddTimeToCharger(1, 25000, 50000, true);
    RoutedFirstMatch(station1.chargers, 2, 27000, 90900, true, 1);
    station1.AddTimeToCharger(2, 27000, 90900, true);

    RoutedFirstMatch(station2.chargers, 3, 25000, 50000, false, 0);
    station2.AddTimeToCharger(3, 25000, 50000, false);
    RoutedFirstMatch(station2.chargers, 4, 27000, 90900, false, 1);
    station2.AddTimeToCharger(4, 27000, 90900, false);

    assert station1.chargers == [ChargerState(1, 25000, 0, 50000), ChargerState(2, 63900, 0, 90900)];
    assert station2.chargers == [ChargerState(3, 0, 25000, 50000), ChargerState(4, 0, 63900, 90900)];

    var percent1 := station1.GetPercentUptime();
    var percent2 := station2.GetPercentUptime();
    passed := percent1 == 100 && percent2 == 0;
  }
}
