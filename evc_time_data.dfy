/**
 * The generator object: three bucket sizes fixed at construction, and the
 * steps that build the time, timestamp and power lists by filling a list of
 * 5N slots index by index. The Gaussian samples and the `randrange(5)`
 * draws are passed in as sequences.
 */
module EvcTimeData {
  import opened Wrappers
  import opened DateTimes
  import opened EvcSpec

  class TimeValueGenerator {
    const theMorningValues: nat
    const theAfternoonValues: nat
    const theEveningValues: nat
    /** Destination of the rows; the file itself is not part of this model. */
    const theCsvFilename: string
    /** N, the number of sampled base times. */
    const numberOfValues: nat

    /** N is the sum of the three bucket sizes. */
    predicate Valid() {
      numberOfValues == theMorningValues + theAfternoonValues + theEveningValues
    }

    constructor (morningValues: nat, afternoonValues: nat, eveningValues: nat, csvFilename: string)
      ensures Valid()
      ensures theMorningValues == morningValues && theAfternoonValues == afternoonValues
      ensures theEveningValues == eveningValues && theCsvFilename == csvFilename
      ensures numberOfValues == morningValues + afternoonValues + eveningValues
    {
      theMorningValues := morningValues;
      theAfternoonValues := afternoonValues;
      theEveningValues := eveningValues;
      theCsvFilename := csvFilename;
      numberOfValues := morningValues + afternoonValues + eveningValues;
    }

    /**
     * The whole pipeline: the header, then one row per expanded time pairing
     * its timestamp with the power drawn at the same position; or the
     * exception of the first time that has no timestamp.
     */
    method GenerateTimeValues(morningSamples: seq<int>, afternoonSamples: seq<int>, eveningSamples: seq<int>,
                              draws: seq<int>)
      returns (rows: Result<seq<Row>>)
      requires Valid()
      requires |morningSamples| == theMorningValues && |afternoonSamples| == theAfternoonValues
      requires |eveningSamples| == theEveningValues
      requires |draws| == BurstLength * numberOfValues && ValidDraws(draws)
      ensures var times := Expand(BaseSamples(morningSamples, afternoonSamples, eveningSamples));
        rows.Ok? <==> forall k :: 0 <= k < |times| ==> Stamp(times[k]).Ok?
      ensures var times := Expand(BaseSamples(morningSamples, afternoonSamples, eveningSamples));
        rows.Err? ==> StampAll(times).Err? && rows.error == StampAll(times).error
      ensures rows.Ok? ==> |rows.value| == 1 + BurstLength * numberOfValues && rows.value[0] == Header
      ensures var times := Expand(BaseSamples(morningSamples, afternoonSamples, eveningSamples));
        rows.Ok? ==> forall i :: 0 <= i < BurstLength * numberOfValues ==>
          rows.value[i + 1] == DataRow(Stamp(times[i]).value, PowerDraw(draws[i]))
    {
      var timeValues := GetTimeValues(morningSamples, afternoonSamples, eveningSamples);
      var datetimeValues := ConvertValuesToDatetime(timeValues);
      ConvertEachOk(Stamp, timeValues);
      if datetimeValues.Err? {
        return Err(datetimeValues.error);
      }
      var powerValues := GetPowerValues(draws);
      var pairs := Zip(datetimeValues.value, powerValues);
      rows := Ok([Header] + pairs);
      forall i | 0 <= i < BurstLength * numberOfValues
        ensures rows.value[i + 1] == DataRow(Stamp(timeValues[i]).value, PowerDraw(draws[i]))
      {
        assert rows.value[i + 1] == pairs[i];
      }
    }

    /** The three sample lists, joined morning, evening, afternoon, then expanded. */
    method GetTimeValues(morningSamples: seq<int>, afternoonSamples: seq<int>, eveningSamples: seq<int>)
      returns (timeValues: seq<int>)
      requires Valid()
      requires |morningSamples| == theMorningValues && |afternoonSamples| == theAfternoonValues
      requires |eveningSamples| == theEveningValues
      ensures |timeValues| == BurstLength * numberOfValues
      ensures timeValues == Expand(BaseSamples(morningSamples, afternoonSamples, eveningSamples))
    {
      var totalValues := morningSamples + eveningSamples + afternoonSamples;
      timeValues := AddIncrementalTimeValue(totalValues);
    }

    /**
     * Fills the 5N slots with each base time followed by four copies of it
     * advanced 0.2 hour at a time, through a running slot counter.
     */
    method AddIncrementalTimeValue(timeValues: seq<int>) returns (incremented: seq<int>)
      requires |timeValues| == numberOfValues
      ensures |incremented| == BurstLength * numberOfValues
      ensures incremented == Expand(timeValues)
    {
      var values := new int[numberOfValues * BurstLength];
      var counter := 0;
      for i := 0 to |timeValues|
        invariant counter == BurstLength * i
        invariant values[..counter] == Expand(timeValues[..i])
      {
        var v := timeValues[i];
        for j := 0 to BurstLength
          invariant counter == BurstLength * i + j
          invariant v == timeValues[i] + StepHundredths * j
          invariant values[..counter] == Expand(timeValues[..i]) + Burst(timeValues[i])[..j]
        {
          values[counter] := v;
          counter := counter + 1;
          v := v + StepHundredths;
        }
        assert timeValues[..i + 1] == timeValues[..i] + [timeValues[i]];
        ExpandConcat(timeValues[..i], [timeValues[i]]);
        assert Expand([timeValues[i]]) == Burst(timeValues[i]);
      }
      assert timeValues[..|timeValues|] == timeValues;
      incremented := values[..];
    }

    /**
     * The timestamp of every time, slot by slot; the first time whose clock
     * cannot be computed or placed on the date ends the conversion with its
     * exception.
     */
    method ConvertValuesToDatetime(timeValues: seq<int>) returns (dateTimes: Result<seq<string>>)
      requires |timeValues| == BurstLength * numberOfValues
      ensures dateTimes == StampAll(timeValues)
      ensures dateTimes.Ok? ==> |dateTimes.value| == |timeValues|
    {
      var slots := new string[numberOfValues * BurstLength];
      for i := 0 to |timeValues|
        invariant StampAll(timeValues[..i]) == Ok(slots[..i])
      {
        var v := timeValues[i];
        var clock := ConvertToHoursAndMinutes(v);
        if clock.Err? {
          assert StampAll(timeValues) == Err(clock.error) by {
            assert Stamp(v) == Err(clock.error);
            ConvertEachFailsAt(Stamp, timeValues, i);
          }
          return Err(clock.error);
        }
        var t := Replace(ReferenceDate, clock.value.hour, clock.value.minute);
        if t.Err? {
          assert StampAll(timeValues) == Err(t.error) by {
            assert Stamp(v) == Err(t.error);
            ConvertEachFailsAt(Stamp, timeValues, i);
          }
          return Err(t.error);
        }
        // the source stores the datetime and then overwrites it with its text
        slots[i] := Strftime(t.value);
        assert StampAll(timeValues[..i + 1]) == Ok(slots[..i + 1]) by {
          assert Stamp(v) == Ok(slots[i]);
          ConvertEachExtends(Stamp, timeValues, i);
          assert slots[..i + 1] == slots[..i] + [slots[i]];
        }
      }
      assert timeValues[..|timeValues|] == timeValues;
      assert slots[..] == slots[..|timeValues|];
      dateTimes := Ok(slots[..]);
    }

    /** Fills the 5N slots with the load each draw from range(5) selects in the table. */
    method GetPowerValues(draws: seq<int>) returns (powerValues: seq<int>)
      requires |draws| == BurstLength * numberOfValues && ValidDraws(draws)
      ensures |powerValues| == BurstLength * numberOfValues
      ensures forall i :: 0 <= i < |powerValues| ==> powerValues[i] == PowerDraw(draws[i])
      ensures forall i :: 0 <= i < |powerValues| ==> powerValues[i] in {7200, 11000, 22000}
    {
      var values := new int[numberOfValues * BurstLength];
      for i := 0 to values.Length
        invariant forall k :: 0 <= k < i ==> values[k] == PowerDraw(draws[k])
      {
        var randInt := draws[i];
        values[i] := PowerDraws[randInt];
      }
      powerValues := values[..];
    }
  }
}
