/**
 * The data directory of weather.py and the update sequence of
 * `display_weather`: one JSON list per lower-cased city name, appended to
 * by `save_weather_data`, overwritten with its cleaned version, then
 * summarised. The directory is a map from file key to list; reading a
 * missing file gives the empty list. The clock and the weather API are
 * parameters.
 */
module Store {
  import opened Wrappers
  import opened Units
  import opened Icons
  import opened History
  import opened Statistics

  /** What the API call delivered: the current temperature (Kelvin) and the
      description of the first weather entry. */
  datatype Reading = Reading(tempK: real, condition: string)

  /** What `display_weather` shows: an error when the API gave no main block;
      otherwise the new point, the current temperature in the display unit,
      the window statistics and, when there are statistics, the icon URL of
      the dominant condition. */
  datatype Report =
    | CouldNotRetrieve
    | Shown(current: Sample, currentTemp: real, stats: Option<WindowStats>, iconUrl: Option<string>)

  class WeatherStore {
    /** File key (lower-cased city name) to the list stored in that file. */
    var files: map<string, seq<Sample>>

    /** The store over the history files already in the data directory. */
    constructor (existing: map<string, seq<Sample>>)
      ensures files == existing
    {
      files := existing;
    }

    /** `load_weather_data`: the city's list, or the empty list when it has no file. */
    function Load(city: string): (data: seq<Sample>)
      reads this
      ensures CityKey(city) in files ==> data == files[CityKey(city)]
      ensures CityKey(city) !in files ==> data == []
    {
      var key := CityKey(city);
      if key in files then files[key] else []
    }

    /** `save_weather_data`: appends the point at the tail of the city's list
        and writes the list back; no other city's list changes. */
    method SaveWeatherData(city: string, point: Sample)
      modifies this
      ensures files == old(files)[CityKey(city) := old(Load(city)) + [point]]
      ensures Load(city) == old(Load(city)) + [point]
      ensures |Load(city)| == |old(Load(city))| + 1
      ensures Load(city)[..|old(Load(city))|] == old(Load(city))
      ensures forall c :: CityKey(c) != CityKey(city) ==> Load(c) == old(Load(c))
    {
      var key := CityKey(city);
      var data: seq<Sample> := [];
      if key in files {
        data := files[key];
      }
      data := data + [point];
      files := files[key := data];
      assert data[..|data| - 1] == old(Load(city));
    }

    /** Lines 105-110 of `display_weather`: load the city's list, drop the
        points not newer than 24 hours before `now`, overwrite the file, and
        keep the cleaned list for the statistics. */
    method CleanStoredData(city: string, now: int) returns (data: seq<Sample>)
      modifies this
      ensures data == CleanOldData(old(Load(city)), now)
      ensures files == old(files)[CityKey(city) := data]
      ensures Load(city) == data
      ensures IsSubsequence(data, old(Load(city)))
      ensures forall s :: s in data <==> s in old(Load(city)) && IsRecent(s, now)
      ensures forall c :: CityKey(c) != CityKey(city) ==> Load(c) == old(Load(c))
    {
      data := Load(city);
      data := CleanOldData(data, now);
      CleanIsSubsequence(Load(city), now);
      files := files[CityKey(city) := data];
    }

    /** Lines 102-110 of `display_weather`: append the new point, then
        clean the city's list at `now` and overwrite the file. The cleaned
        list is returned; the new point is its last element whenever it is
        less than 24 hours old at `now`. */
    method RecordAndClean(city: string, point: Sample, now: int) returns (data: seq<Sample>)
      modifies this
      ensures data == CleanOldData(old(Load(city)) + [point], now)
      ensures files == old(files)[CityKey(city) := data]
      ensures Load(city) == data
      ensures IsRecent(point, now) ==> data != [] && data[|data| - 1] == point
    {
      ghost var before := Load(city);
      SaveWeatherData(city, point);
      data := CleanStoredData(city, now);
      if IsRecent(point, now) {
        CleanAppend(before, point, now);
      }
    }

    /** The state-changing part of `display_weather`. `fetched` is what the
        API returned (`None` when it had no main block); `stampTime` is the
        clock reading stamped on the new point and `cleanTime` the later
        reading at which old points are dropped. */
    method DisplayWeather(city: string, unit: string, fetched: Option<Reading>, stampTime: int, cleanTime: int)
      returns (report: Report)
      modifies this
      ensures fetched.None? ==> report == CouldNotRetrieve && files == old(files)
      ensures fetched.Some? ==>
                var point := Sample(stampTime, fetched.value.tempK, fetched.value.condition);
                && files == old(files)[CityKey(city) := CleanOldData(old(Load(city)) + [point], cleanTime)]
                && report.Shown?
                && report.current == point
                && report.currentTemp == ConvertTemperature(point.tempK, unit)
                && report.stats == CalculateStatistics(Load(city), unit)
                && report.iconUrl == (if report.stats.Some? then Some(FetchWeatherIcon(report.stats.value.dominant)) else None)
      ensures fetched.Some? && stampTime > Cutoff(cleanTime) ==>
                && report.stats.Some?
                && Load(city) != []
                && Load(city)[|Load(city)| - 1] == report.current
                && report.stats.value.minTemp <= report.currentTemp <= report.stats.value.maxTemp
    {
      if fetched.None? {
        return CouldNotRetrieve;
      }
      var point := Sample(stampTime, fetched.value.tempK, fetched.value.condition);
      var data := RecordAndClean(city, point, cleanTime);
      var stats := CalculateStatistics(data, unit);
      var icon: Option<string> := None;
      if stats.Some? {
        icon := Some(FetchWeatherIcon(stats.value.dominant));
      }
      report := Shown(point, ConvertTemperature(point.tempK, unit), stats, icon);
      if stampTime > Cutoff(cleanTime) {
        assert IsRecent(point, cleanTime);
        assert stats.value.minTemp <= report.currentTemp <= stats.value.maxTemp by {
          NewestWithinExtrema(data, unit);
        }
      }
    }
  }

  /** The last point of a non-empty window, converted, lies between the
      window's minimum and maximum. */
  lemma NewestWithinExtrema(window: seq<Sample>, unit: string)
    requires window != []
    ensures var stats := CalculateStatistics(window, unit).value;
            var last := ConvertTemperature(window[|window| - 1].tempK, unit);
            stats.minTemp <= last <= stats.maxTemp
  {
    var temps := ConvertedTemps(window, unit);
    assert temps[|window| - 1] in temps;
  }

  /** The point that `display_weather` has just stored survives the clean-up
      when less than 24 hours pass between the two clock readings, so the
      window statistics are never absent; in particular when both readings
      are the same instant. */
  lemma {:induction false} NewPointSurvives(history: seq<Sample>, point: Sample, now: int, unit: string)
    requires IsRecent(point, now)
    ensures var window := CleanOldData(history + [point], now);
            && window != []
            && window[|window| - 1] == point
            && CalculateStatistics(window, unit).Some?
            && CalculateStatistics(window, unit).value.minTemp <= ConvertTemperature(point.tempK, unit)
            && ConvertTemperature(point.tempK, unit) <= CalculateStatistics(window, unit).value.maxTemp
  {
    CleanAppend(history, point, now);
    NewestWithinExtrema(CleanOldData(history + [point], now), unit);
  }

  /** Two successive runs of `display_weather` on one city, the second at a
      later instant: the stored list is the clean-up of everything appended,
      at the later instant, as if the first clean-up had not happened. */
  lemma TwoRecordsCleanOnce(history: seq<Sample>, p: Sample, q: Sample, t1: int, t2: int)
    requires t1 <= t2
    ensures CleanOldData(CleanOldData(history + [p], t1) + [q], t2)
         == CleanOldData(history + [p] + [q], t2)
  {
    CleanAppend(CleanOldData(history + [p], t1), q, t2);
    CleanLaterAbsorbs(history + [p], t1, t2);
    CleanAppend(history + [p], q, t2);
  }
}
