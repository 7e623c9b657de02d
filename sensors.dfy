/** Change detection between runs: the names that `write_sensors` persists
    and `sensor_diff`. */
module Sensors {
  import opened Wrappers
  import opened Readings

  /** `[s.source for s in sensors]`: the names persisted for the next run. */
  function SensorNames(aqs: seq<AirQuality>): (names: seq<string>)
    ensures |names| == |aqs|
    ensures forall i :: 0 <= i < |aqs| ==> names[i] == aqs[i].source
  {
    seq(|aqs|, i requires 0 <= i < |aqs| => aqs[i].source)
  }

  /** True when some current reading carries the name `x`. */
  predicate IsCurrent(x: string, aqs: seq<AirQuality>) {
    exists i :: 0 <= i < |aqs| && aqs[i].source == x
  }

  /** What `sensor_diff` returns, and whether it raised the alert. */
  datatype Diff = Diff(up: Option<set<string>>, down: set<string>, alerted: bool)

  /** `sensor_diff(old_data, new_data)`: `up` is always `None`; `down` is
      `set(old_data) - set(new sources)`; the alert fires when `up or down`
      is truthy. */
  function SensorDiff(oldNames: seq<string>, aqs: seq<AirQuality>): (d: Diff)
    ensures d.up == None
    ensures forall x :: x in d.down <==> x in oldNames && !IsCurrent(x, aqs)
    ensures d.alerted <==> exists x :: x in oldNames && !IsCurrent(x, aqs)
  {
    var names := SensorNames(aqs);
    var up: Option<set<string>> := None;
    var down := (set x | x in oldNames) - (set x | x in names);
    Diff(up, down, Truthy(up) || down != {})
  }

  /** Python truthiness of an optional set: `None` and the empty set are false. */
  predicate Truthy(s: Option<set<string>>) {
    s.Some? && s.value != {}
  }

  /** A sensor that is reporting now is never reported as down. */
  lemma DownNotCurrent(oldNames: seq<string>, aqs: seq<AirQuality>, i: nat)
    requires i < |aqs|
    ensures aqs[i].source !in SensorDiff(oldNames, aqs).down
  {
  }

  /** Sensors that come online are never noticed: when no old name is
      missing, nothing is reported and no alert fires, whatever new names
      appear. */
  lemma AppearedNeverAlerts(oldNames: seq<string>, aqs: seq<AirQuality>)
    requires forall k :: 0 <= k < |oldNames| ==> IsCurrent(oldNames[k], aqs)
    ensures SensorDiff(oldNames, aqs) == Diff(None, {}, false)
  {
    var d := SensorDiff(oldNames, aqs);
    forall x | x in oldNames
      ensures IsCurrent(x, aqs)
    {
      var k :| 0 <= k < |oldNames| && oldNames[k] == x;
    }
    assert d.down == {};
  }

  /** Across two runs: the names persisted by the previous run that are not
      reported in this one are exactly the previous readings' sources that
      have lost their sensor. */
  lemma DiffAcrossRuns(previous: seq<AirQuality>, current: seq<AirQuality>, x: string)
    ensures x in SensorDiff(SensorNames(previous), current).down
        <==> IsCurrent(x, previous) && !IsCurrent(x, current)
  {
    var names := SensorNames(previous);
    if IsCurrent(x, previous) {
      var i :| 0 <= i < |previous| && previous[i].source == x;
      assert names[i] == x;
    }
  }

  /** Old names A, B, C and current readings A, C leave B down, and alert. */
  lemma DiffExample(a: AirQuality, c: AirQuality)
    requires a.source == "A" && c.source == "C"
    ensures SensorDiff(["A", "B", "C"], [a, c]) == Diff(None, {"B"}, true)
  {
    var d := SensorDiff(["A", "B", "C"], [a, c]);
    assert "B" in d.down by {
      assert !IsCurrent("B", [a, c]);
    }
    assert IsCurrent("A", [a, c]) && IsCurrent("C", [a, c]) by {
      assert [a, c][0] == a && [a, c][1] == c;
    }
    assert d.down == {"B"};
  }
}
