/**
 * The per-city temperature history of weather.py: the stored data point,
 * the file key derived from the city name, and the 24-hour clean-up
 * (`clean_old_data`). Timestamps are whole seconds; the clock is a parameter.
 */
module History {

  /** One stored data point: when it was taken, the temperature in Kelvin
      and the condition description. */
  datatype Sample = Sample(timestamp: int, tempK: real, condition: string)

  /** The retention window: 24 hours, in seconds. */
  const Window: int := 24 * 60 * 60

  /** The earliest instant that is still too old to keep, at time `now`. */
  function Cutoff(now: int): (cutoff: int)
    ensures cutoff < now
    ensures now - cutoff == 86400
  {
    now - Window
  }

  /** A point is recent when it is less than 24 hours old at `now`; a point
      stamped at `now` or later is always recent. */
  predicate IsRecent(s: Sample, now: int)
    ensures IsRecent(s, now) <==> now - s.timestamp < 86400
    ensures s.timestamp >= now ==> IsRecent(s, now)
  {
    s.timestamp > Cutoff(now)
  }

  function LowerChar(c: char): char
  {
    if 'A' <= c <= 'Z' then (c as int + 32) as char else c
  }

  /** The key under which a city's history is stored: the name lower-cased
      (ASCII letters), with nothing trimmed. */
  function CityKey(city: string): (key: string)
    ensures |key| == |city|
    ensures forall i {:trigger key[i]} :: 0 <= i < |key| ==> !('A' <= key[i] <= 'Z')
    ensures forall i {:trigger key[i]} :: 0 <= i < |city| && 'A' <= city[i] <= 'Z' ==> key[i] as int == city[i] as int + 32
    ensures forall i {:trigger key[i]} :: 0 <= i < |city| && !('A' <= city[i] <= 'Z') ==> key[i] == city[i]
  {
    seq(|city|, i requires 0 <= i < |city| => LowerChar(city[i]))
  }

  /** Lower-casing a key again changes nothing. */
  lemma CityKeyIdempotent(city: string)
    ensures CityKey(CityKey(city)) == CityKey(city)
  {
  }

  /** Names that differ only in the case of their letters share one history. */
  lemma CityKeyIgnoresCase(a: string, b: string)
    requires |a| == |b|
    requires forall i :: 0 <= i < |a| ==> LowerChar(a[i]) == LowerChar(b[i])
    ensures CityKey(a) == CityKey(b)
  {
  }

  /** Keeps the data points strictly newer than 24 hours before `now`, in order. */
  function CleanOldData(data: seq<Sample>, now: int): (kept: seq<Sample>)
    ensures |kept| <= |data|
    ensures forall s :: s in kept <==> s in data && IsRecent(s, now)
  {
    if data == [] then []
    else if IsRecent(data[0], now) then [data[0]] + CleanOldData(data[1..], now)
    else CleanOldData(data[1..], now)
  }

  /** `sub` can be obtained from `s` by deleting elements, keeping the order. */
  predicate IsSubsequence(sub: seq<Sample>, s: seq<Sample>)
    decreases |s|
  {
    if s == [] then sub == []
    else
      || IsSubsequence(sub, s[1..])
      || (sub != [] && sub[0] == s[0] && IsSubsequence(sub[1..], s[1..]))
  }

  /** Cleaning keeps the surviving points in their original order. */
  lemma {:induction false} CleanIsSubsequence(data: seq<Sample>, now: int)
    ensures IsSubsequence(CleanOldData(data, now), data)
  {
    if data != [] {
      CleanIsSubsequence(data[1..], now);
      if IsRecent(data[0], now) {
        assert ([data[0]] + CleanOldData(data[1..], now))[1..] == CleanOldData(data[1..], now);
      }
    }
  }

  /** Every point that cleaning keeps is recent, and a recent point is kept;
      a point exactly at the cutoff is dropped. */
  lemma CleanKeepsExactlyRecent(data: seq<Sample>, now: int, s: Sample)
    requires s in data
    ensures s in CleanOldData(data, now) <==> IsRecent(s, now)
    ensures s.timestamp == Cutoff(now) ==> s !in CleanOldData(data, now)
  {
  }

  /** Cleaning twice at the same instant is the same as cleaning once. */
  lemma {:induction false} CleanIdempotent(data: seq<Sample>, now: int)
    ensures CleanOldData(CleanOldData(data, now), now) == CleanOldData(data, now)
  {
    if data != [] {
      CleanIdempotent(data[1..], now);
      if IsRecent(data[0], now) {
        assert ([data[0]] + CleanOldData(data[1..], now))[1..] == CleanOldData(data[1..], now);
      }
    }
  }

  /** Cleaning at a later instant after cleaning at an earlier one is the same
      as cleaning once at the later instant: a dropped point never returns. */
  lemma {:induction false} CleanLaterAbsorbs(data: seq<Sample>, earlier: int, later: int)
    requires earlier <= later
    ensures CleanOldData(CleanOldData(data, earlier), later) == CleanOldData(data, later)
  {
    if data != [] {
      CleanLaterAbsorbs(data[1..], earlier, later);
      if IsRecent(data[0], earlier) {
        assert ([data[0]] + CleanOldData(data[1..], earlier))[1..] == CleanOldData(data[1..], earlier);
      }
    }
  }

  /** Cleaning a list with one point appended cleans the old list and keeps
      the new point exactly when it is recent. */
  lemma {:induction false} CleanAppend(data: seq<Sample>, point: Sample, now: int)
    ensures CleanOldData(data + [point], now)
         == CleanOldData(data, now) + (if IsRecent(point, now) then [point] else [])
  {
    if data == [] {
      assert data + [point] == [point];
      assert [point][1..] == [];
    } else {
      assert (data + [point])[1..] == data[1..] + [point];
      CleanAppend(data[1..], point, now);
    }
  }
}
