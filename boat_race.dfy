/**
 * Boat races (2023, day 6).  Holding the button for `hold` milliseconds of
 * a race that lasts `time` gives speed `hold` for the remaining
 * `time - hold`, so the boat travels `(time - hold) * hold`.  A hold wins
 * when that beats the record distance.  The puzzle answer per race is the
 * number of winning holds, found as the largest winning hold minus the
 * smallest plus one.
 *
 * Both searches of the source look at holds `1 .. time - 2` only (the
 * range `1..time - 1` is exclusive at the top), so the winning hold
 * `time - 1` is missed whenever hold 1 wins.  The search methods take the
 * exclusive end of the range: the count as written passes `time - 1`,
 * the corrected count passes `time`.
 *
 * The race reading and the search are shared with part two (module
 * BoatRaceKerning), whose source repeats them with 64-bit integers.
 */
module BoatRace {
  import opened Text

  datatype Race = Race(time: nat, recordDistance: nat)

  datatype Error =
    | MissingTimeLine
    | MissingDistanceLine
    | MissingPrefix
    | BadNumber
    | CountMismatch
    | NoWin

  const TIME_PREFIX: string := "Time: "
  const DISTANCE_PREFIX: string := "Distance: "

  // ---------------------------------------------------------------------
  // Distances and winning holds
  // ---------------------------------------------------------------------

  /** `calculate_distance`: the hold time is the speed for the rest of the race. */
  function Distance(race: Race, hold: nat): (d: nat)
    requires hold <= race.time
    ensures d == 0 <==> hold == 0 || hold == race.time
  {
    (race.time - hold) * hold
  }

  /** Holding for `hold` beats the record. */
  predicate Wins(race: Race, hold: nat)
  {
    hold <= race.time && Distance(race, hold) > race.recordDistance
  }

  /** The winning holds in `lo .. hi - 1`. */
  function WinnersIn(race: Race, lo: nat, hi: nat): set<nat>
  {
    set hold: nat | lo <= hold < hi && Wins(race, hold)
  }

  /** Every winning hold of the race. */
  function Winners(race: Race): set<nat>
  {
    WinnersIn(race, 0, race.time + 1)
  }

  /** Holding for `hold` and for `time - hold` travel the same distance. */
  lemma DistanceSymmetric(race: Race, hold: nat)
    requires hold <= race.time
    ensures Distance(race, race.time - hold) == Distance(race, hold)
    ensures Wins(race, race.time - hold) <==> Wins(race, hold)
  {
  }

  /** Not holding at all, or holding for the whole race, goes nowhere and never wins. */
  lemma EndsNeverWin(race: Race)
    ensures Distance(race, 0) == 0 && Distance(race, race.time) == 0
    ensures !Wins(race, 0) && !Wins(race, race.time)
  {
  }

  /**
   * The distance is concave in the hold time, so a hold between two
   * winning holds wins too: the winning holds form one interval.
   */
  lemma WinsBetween(race: Race, a: nat, hold: nat, b: nat)
    requires a <= hold <= b
    requires Wins(race, a) && Wins(race, b)
    ensures Wins(race, hold)
  {
    var t: int := race.time;
    if hold + a <= t {
      DistanceGain(t, hold, a);
      NonNegativeProduct(hold - a, t - hold - a);
    } else {
      DistanceGain(t, hold, b);
      NonNegativeProduct(b - hold, hold + b - t);
    }
  }

  /** Moving the hold from `x` to `h` changes the distance by `(h - x) * (t - h - x)`. */
  lemma DistanceGain(t: int, h: int, x: int)
    ensures (t - h) * h - (t - x) * x == (h - x) * (t - h - x)
  {
    calc {
      (h - x) * (t - h - x);
      (h - x) * t - (h - x) * h - (h - x) * x;
      h * t - x * t - h * h + x * h - h * x + x * x;
      (t - h) * h - (t - x) * x;
    }
  }

  lemma NonNegativeProduct(x: int, y: int)
    requires x >= 0 && y >= 0
    ensures x * y >= 0
  {
  }

  /** The holds `lo .. hi - 1`. */
  function Interval(lo: nat, hi: nat): (s: set<nat>)
    ensures forall hold :: hold in s <==> lo <= hold < hi
    ensures |s| == if lo <= hi then hi - lo else 0
    decreases hi
  {
    if hi <= lo then {} else Interval(lo, hi - 1) + {hi - 1}
  }

  /**
   * With `least` the smallest and `most` the largest winning hold in
   * `lo .. hi - 1`, the winning holds there are exactly `least .. most`,
   * `most - least + 1` of them.
   */
  lemma WinnersAreInterval(race: Race, lo: nat, hi: nat, least: nat, most: nat)
    requires lo <= least <= most < hi
    requires Wins(race, least) && Wins(race, most)
    requires forall hold :: lo <= hold < least ==> !Wins(race, hold)
    requires forall hold :: most < hold < hi ==> !Wins(race, hold)
    ensures WinnersIn(race, lo, hi) == Interval(least, most + 1)
    ensures |WinnersIn(race, lo, hi)| == most - least + 1
  {
    forall hold: nat | least <= hold <= most
      ensures Wins(race, hold)
    {
      WinsBetween(race, least, hold, most);
    }
  }

  // ---------------------------------------------------------------------
  // The searches
  // ---------------------------------------------------------------------

  /**
   * `find_first_winning_race_iter`: the first hold of `holds`, in order,
   * that beats the record, or NoWin.  Every hold must lie within the race,
   * as `calculate_distance` asserts.
   */
  method FindFirstWinningRaceIter(race: Race, holds: seq<nat>) returns (r: Result<nat, Error>)
    requires forall i :: 0 <= i < |holds| ==> holds[i] <= race.time
    ensures r.Err? <==> forall i :: 0 <= i < |holds| ==> !Wins(race, holds[i])
    ensures r.Err? ==> r.error == NoWin
    ensures r.Ok? ==> exists i :: 0 <= i < |holds| && holds[i] == r.value && Wins(race, holds[i])
                                  && forall j :: 0 <= j < i ==> !Wins(race, holds[j])
  {
    var winningDistance := race.recordDistance;
    for i := 0 to |holds|
      invariant forall j :: 0 <= j < i ==> !Wins(race, holds[j])
    {
      var distance := Distance(race, holds[i]);
      if distance > winningDistance {
        return Ok(holds[i]);
      }
    }
    return Err(NoWin);
  }

  /**
   * `find_minimum_winning_race` over the holds `1 .. end - 1`, ascending:
   * the smallest winning hold there, or NoWin.
   */
  method FindMinimumWinningRace(race: Race, end: nat) returns (r: Result<nat, Error>)
    requires end <= race.time
    ensures r.Err? <==> WinnersIn(race, 1, end) == {}
    ensures r.Err? ==> r.error == NoWin
    ensures r.Ok? ==> 1 <= r.value < end && Wins(race, r.value)
                      && forall hold :: 1 <= hold < r.value ==> !Wins(race, hold)
  {
    var count := if end >= 1 then end - 1 else 0;
    var holds := seq(count, i => 1 + i);
    r := FindFirstWinningRaceIter(race, holds);
    if r.Ok? {
      ghost var k :| 0 <= k < |holds| && holds[k] == r.value && Wins(race, holds[k])
                     && forall j :: 0 <= j < k ==> !Wins(race, holds[j]);
      assert r.value in WinnersIn(race, 1, end);
      forall hold | 1 <= hold < r.value
        ensures !Wins(race, hold)
      {
        assert holds[hold - 1] == hold;
      }
    } else {
      forall hold | 1 <= hold < end
        ensures !Wins(race, hold)
      {
        assert holds[hold - 1] == hold;
      }
    }
  }

  /**
   * `find_maximum_winning_race` over the holds `1 .. end - 1`, descending:
   * the largest winning hold there, or NoWin.
   */
  method FindMaximumWinningRace(race: Race, end: nat) returns (r: Result<nat, Error>)
    requires end <= race.time
    ensures r.Err? <==> WinnersIn(race, 1, end) == {}
    ensures r.Err? ==> r.error == NoWin
    ensures r.Ok? ==> 1 <= r.value < end && Wins(race, r.value)
                      && forall hold :: r.value < hold < end ==> !Wins(race, hold)
  {
    var count := if end >= 1 then end - 1 else 0;
    var holds := seq(count, i => end - 1 - i);
    r := FindFirstWinningRaceIter(race, holds);
    if r.Ok? {
      ghost var k :| 0 <= k < |holds| && holds[k] == r.value && Wins(race, holds[k])
                     && forall j :: 0 <= j < k ==> !Wins(race, holds[j]);
      assert r.value in WinnersIn(race, 1, end);
      forall hold | r.value < hold < end
        ensures !Wins(race, hold)
      {
        assert holds[end - 1 - hold] == hold;
      }
    } else {
      forall hold | 1 <= hold < end
        ensures !Wins(race, hold)
      {
        assert holds[end - 1 - hold] == hold;
      }
    }
  }

  /**
   * The largest winning hold in `1 .. end - 1` minus the smallest plus one:
   * the number of winning holds there, since they form an interval.  The
   * subtraction never underflows.
   */
  method CountWinningHoldsBelow(race: Race, end: nat) returns (r: Result<nat, Error>)
    requires end <= race.time
    ensures r.Err? <==> WinnersIn(race, 1, end) == {}
    ensures r.Err? ==> r.error == NoWin
    ensures r.Ok? ==> r.value == |WinnersIn(race, 1, end)|
  {
    var least := FindMinimumWinningRace(race, end);
    if least.Err? {
      return Err(least.error);
    }
    var most := FindMaximumWinningRace(race, end);
    if most.Err? {
      // The minimum search found a winning hold, so the maximum search finds one too.
      assert false;
    }
    WinnersAreInterval(race, 1, end, least.value, most.value);
    return Ok(most.value - least.value + 1);
  }

  /**
   * `find_number_of_winning_hold_times` as written: the winning holds among
   * `1 .. time - 2`.  A race of length 0 makes `time - 1` underflow, which
   * the source does not guard against.
   */
  method FindNumberOfWinningHoldTimes(race: Race) returns (r: Result<nat, Error>)
    requires race.time >= 1
    ensures r.Err? <==> WinnersIn(race, 1, race.time - 1) == {}
    ensures r.Ok? ==> r.value == |WinnersIn(race, 1, race.time - 1)|
  {
    r := CountWinningHoldsBelow(race, race.time - 1);
  }

  /** The count the search evidently intends: every winning hold of the race, or NoWin when there is none. */
  method CountWinningHoldTimes(race: Race) returns (r: Result<nat, Error>)
    ensures r.Err? <==> Winners(race) == {}
    ensures r.Ok? ==> r.value == |Winners(race)|
  {
    r := CountWinningHoldsBelow(race, race.time);
    EndsNeverWin(race);
    assert Winners(race) == WinnersIn(race, 1, race.time);
  }

  /** When hold 1 loses, so does `time - 1`, and the count as written is the full count. */
  lemma AsWrittenCountsAllWhenFirstHoldLoses(race: Race)
    requires race.time >= 1
    requires !Wins(race, 1)
    ensures WinnersIn(race, 1, race.time - 1) == Winners(race)
  {
    EndsNeverWin(race);
    DistanceSymmetric(race, 1);
  }

  /** When hold 1 wins, so does `time - 1`, which the count as written leaves out. */
  lemma AsWrittenMissesLastHold(race: Race)
    requires race.time >= 1
    requires Wins(race, 1)
    ensures race.time - 1 in Winners(race)
    ensures |WinnersIn(race, 1, race.time - 1)| + 1 == |Winners(race)|
  {
    EndsNeverWin(race);
    DistanceSymmetric(race, 1);
    assert Winners(race) == WinnersIn(race, 1, race.time - 1) + {race.time - 1};
  }

  /**
   * A race of 3 ms with record 1: holds 1 and 2 both travel 2, yet the
   * count as written finds only hold 1.
   */
  lemma AsWrittenMissesHoldTwo()
    ensures WinnersIn(Race(3, 1), 1, 2) == {1}
    ensures Winners(Race(3, 1)) == {1, 2}
  {
    var race := Race(3, 1);
    assert Wins(race, 1) && Wins(race, 2);
    forall hold | hold in Winners(race)
      ensures hold == 1 || hold == 2
    {
      EndsNeverWin(race);
    }
  }

  /**
   * A race of 2 ms with record 0: hold 1 wins, yet the count as written
   * searches no hold and reports that the race cannot be won.
   */
  lemma AsWrittenMissesOnlyWinner()
    ensures WinnersIn(Race(2, 0), 1, 1) == {}
    ensures Winners(Race(2, 0)) == {1}
  {
    var race := Race(2, 0);
    assert Wins(race, 1);
    forall hold | hold in Winners(race)
      ensures hold == 1
    {
      EndsNeverWin(race);
    }
  }

  // ---------------------------------------------------------------------
  // Reading the races
  // ---------------------------------------------------------------------

  /** `trim_line_prefix`: the rest of `line` after `prefix`, which it must start with. */
  function TrimLinePrefix(line: string, prefix: string): (r: Result<string, Error>)
    ensures r.Ok? <==> prefix <= line
    ensures r.Ok? ==> line == prefix + r.value
    ensures r.Err? ==> r.error == MissingPrefix
  {
    if prefix <= line then Ok(line[|prefix|..]) else Err(MissingPrefix)
  }

  /** The text after the prefix on the first two lines, as `read_races` reads them. */
  function RaceTexts(lines: seq<string>): (r: Result<(string, string), Error>)
    ensures r.Ok? <==> |lines| >= 2 && TIME_PREFIX <= lines[0] && DISTANCE_PREFIX <= lines[1]
    ensures r == Err(MissingTimeLine) <==> |lines| == 0
    ensures r == Err(MissingDistanceLine) <==> |lines| == 1 && TIME_PREFIX <= lines[0]
    ensures r == Err(MissingPrefix) <==>
              (|lines| >= 1 && !(TIME_PREFIX <= lines[0]))
              || (|lines| >= 2 && TIME_PREFIX <= lines[0] && !(DISTANCE_PREFIX <= lines[1]))
    ensures r.Ok? ==> r.value == (Trim(lines[0][|TIME_PREFIX|..]), Trim(lines[1][|DISTANCE_PREFIX|..]))
  {
    if |lines| == 0 then Err(MissingTimeLine)
    else
      match TrimLinePrefix(lines[0], TIME_PREFIX)
      case Err(e) => Err(e)
      case Ok(timeText) =>
        if |lines| == 1 then Err(MissingDistanceLine)
        else
          match TrimLinePrefix(lines[1], DISTANCE_PREFIX)
          case Err(e) => Err(e)
          case Ok(distanceText) => Ok((Trim(timeText), Trim(distanceText)))
  }

  /** The races with the given times and records, paired by position. */
  function Zip(times: seq<nat>, distances: seq<nat>): (races: seq<Race>)
    requires |times| == |distances|
  {
    seq(|times|, i requires 0 <= i < |times| => Race(times[i], distances[i]))
  }

  /** The second half of `read_races`: both lists parsed as u32 numbers, their lengths compared, the races paired up. */
  function RaceNumbers(timeText: string, distanceText: string): (r: Result<seq<Race>, Error>)
    ensures r.Ok? ==> |r.value| == |Tokens(timeText)| == |Tokens(distanceText)|
    ensures r.Ok? ==> forall i :: 0 <= i < |r.value| ==>
                        Some(r.value[i].time) == ParseUnsigned(Tokens(timeText)[i], U32_LIMIT)
                        && Some(r.value[i].recordDistance) == ParseUnsigned(Tokens(distanceText)[i], U32_LIMIT)
    ensures r == Err(CountMismatch) ==> |Tokens(timeText)| != |Tokens(distanceText)|
  {
    ParseAllEach(Tokens(timeText), U32_LIMIT);
    ParseAllEach(Tokens(distanceText), U32_LIMIT);
    match ParseAll(Tokens(timeText), U32_LIMIT)
    case None => Err(BadNumber)
    case Some(times) =>
      match ParseAll(Tokens(distanceText), U32_LIMIT)
      case None => Err(BadNumber)
      case Some(distances) =>
        if |times| != |distances| then Err(CountMismatch) else Ok(Zip(times, distances))
  }

  /**
   * The two lists are accepted exactly when every token on both sides is
   * a u32 number and the sides hold equally many; a bad token is reported
   * before a count mismatch.
   */
  lemma RaceNumbersAccepts(timeText: string, distanceText: string)
    ensures RaceNumbers(timeText, distanceText).Ok? <==>
              (forall i :: 0 <= i < |Tokens(timeText)| ==> ParseUnsigned(Tokens(timeText)[i], U32_LIMIT).Some?)
              && (forall i :: 0 <= i < |Tokens(distanceText)| ==> ParseUnsigned(Tokens(distanceText)[i], U32_LIMIT).Some?)
              && |Tokens(timeText)| == |Tokens(distanceText)|
    ensures RaceNumbers(timeText, distanceText) == Err(BadNumber) <==>
              (exists i :: 0 <= i < |Tokens(timeText)| && ParseUnsigned(Tokens(timeText)[i], U32_LIMIT).None?)
              || (exists i :: 0 <= i < |Tokens(distanceText)| && ParseUnsigned(Tokens(distanceText)[i], U32_LIMIT).None?)
  {
    ParseAllEach(Tokens(timeText), U32_LIMIT);
    ParseAllEach(Tokens(distanceText), U32_LIMIT);
  }

  /** What `read_races` returns for the lines of an input. */
  function Races(lines: seq<string>): (r: Result<seq<Race>, Error>)
    ensures r.Ok? ==> |lines| >= 2 && TIME_PREFIX <= lines[0] && DISTANCE_PREFIX <= lines[1]
    ensures r.Ok? ==> forall i :: 0 <= i < |r.value| ==> r.value[i].time < U32_LIMIT && r.value[i].recordDistance < U32_LIMIT
  {
    match RaceTexts(lines)
    case Err(e) => Err(e)
    case Ok((timeText, distanceText)) => RaceNumbers(timeText, distanceText)
  }

  /** The loop of `read_races`: one race per position, time and record taken from the same place. */
  method PairRaces(times: seq<nat>, distances: seq<nat>) returns (races: seq<Race>)
    requires |times| == |distances|
    ensures |races| == |times|
    ensures forall i :: 0 <= i < |races| ==> races[i] == Race(times[i], distances[i])
  {
    races := [];
    for i := 0 to |times|
      invariant |races| == i
      invariant forall j :: 0 <= j < i ==> races[j] == Race(times[j], distances[j])
    {
      races := races + [Race(times[i], distances[i])];
    }
  }

  /** The parsing and pairing of `read_races`, once the two lines have been read. */
  method ReadRaceNumbers(timeText: string, distanceText: string) returns (r: Result<seq<Race>, Error>)
    ensures r == RaceNumbers(timeText, distanceText)
  {
    var times := ParseAll(Tokens(timeText), U32_LIMIT);
    if times.None? {
      return Err(BadNumber);
    }
    var distances := ParseAll(Tokens(distanceText), U32_LIMIT);
    if distances.None? {
      return Err(BadNumber);
    }
    if |times.value| != |distances.value| {
      return Err(CountMismatch);
    }
    var races := PairRaces(times.value, distances.value);
    assert races == Zip(times.value, distances.value);
    return Ok(races);
  }

  /** `read_races`: the time line, then the distance line, each with its prefix, then their numbers. */
  method ReadRaces(lines: seq<string>) returns (r: Result<seq<Race>, Error>)
    ensures r == Races(lines)
  {
    var texts := RaceTexts(lines);
    if texts.Err? {
      return Err(texts.error);
    }
    r := ReadRaceNumbers(texts.value.0, texts.value.1);
  }

  /** The two lines that list `times` and `distances` separated by single spaces. */
  function RaceLines(times: seq<nat>, distances: seq<nat>): seq<string>
  {
    [TIME_PREFIX + Unwords(Shown(times)), DISTANCE_PREFIX + Unwords(Shown(distances))]
  }

  /** Numbers written out with single spaces come back unchanged from the trim. */
  lemma TrimShown(ns: seq<nat>)
    ensures Trim(Unwords(Shown(ns))) == Unwords(Shown(ns))
  {
    var ws := Shown(ns);
    if ns != [] {
      UnwordsEnds(ws);
      assert IsDigit(ws[0][0]) && IsDigit(ws[|ws| - 1][|ws[|ws| - 1]| - 1]);
    }
    TrimUnpadded(Unwords(ws));
  }

  /** A line that starts with the prefix gives back what follows it. */
  lemma TrimLinePrefixOf(prefix: string, rest: string)
    ensures TrimLinePrefix(prefix + rest, prefix) == Ok(rest)
  {
    assert (prefix + rest)[|prefix|..] == rest;
  }

  /** The two lines of written-out races give back the written-out numbers. */
  lemma RaceTextsOfLines(times: seq<nat>, distances: seq<nat>)
    ensures RaceTexts(RaceLines(times, distances)) == Ok((Unwords(Shown(times)), Unwords(Shown(distances))))
  {
    TrimLinePrefixOf(TIME_PREFIX, Unwords(Shown(times)));
    TrimLinePrefixOf(DISTANCE_PREFIX, Unwords(Shown(distances)));
    TrimShown(times);
    TrimShown(distances);
  }

  /** Numbers written out with single spaces parse back, when each fits in 32 bits. */
  lemma NumbersRoundTrip(ns: seq<nat>)
    requires forall i :: 0 <= i < |ns| ==> ns[i] < U32_LIMIT
    ensures ParseAll(Tokens(Unwords(Shown(ns))), U32_LIMIT) == Some(ns)
  {
    TokensOfUnwords(Shown(ns));
    ParseAllOfShown(ns, U32_LIMIT);
  }

  /** Races written out as their two lines read back as the same races. */
  lemma RacesRoundTrip(times: seq<nat>, distances: seq<nat>)
    requires |times| == |distances|
    requires forall i :: 0 <= i < |times| ==> times[i] < U32_LIMIT
    requires forall i :: 0 <= i < |distances| ==> distances[i] < U32_LIMIT
    ensures Races(RaceLines(times, distances)) == Ok(Zip(times, distances))
  {
    RaceTextsOfLines(times, distances);
    NumbersRoundTrip(times);
    NumbersRoundTrip(distances);
  }

  /** Lines that list different numbers of times and records are refused. */
  lemma RacesCountMismatch(times: seq<nat>, distances: seq<nat>)
    requires |times| != |distances|
    requires forall i :: 0 <= i < |times| ==> times[i] < U32_LIMIT
    requires forall i :: 0 <= i < |distances| ==> distances[i] < U32_LIMIT
    ensures Races(RaceLines(times, distances)) == Err(CountMismatch)
  {
    RaceTextsOfLines(times, distances);
    NumbersRoundTrip(times);
    NumbersRoundTrip(distances);
  }
}
