/**
 * Boat races, part two (2023, day 6).  The spaces between the numbers on
 * each line are bad kerning: all the digits of the time line form one
 * number, and so do those of the distance line, each read as a 64-bit
 * unsigned integer.  The winning holds of that single race are counted
 * with the searches of module BoatRace.
 */
module BoatRaceKerning {
  import opened Text
  import opened BoatRace

  /** The second half of `read_race`: each text with its spaces removed, parsed as a u64 number. */
  function KernedRace(timeText: string, distanceText: string): (r: Result<Race, Error>)
    ensures r.Ok? <==> ParseUnsigned(RemoveSpaces(timeText), U64_LIMIT).Some?
                       && ParseUnsigned(RemoveSpaces(distanceText), U64_LIMIT).Some?
    ensures r.Ok? ==> Some(r.value.time) == ParseUnsigned(RemoveSpaces(timeText), U64_LIMIT)
                      && Some(r.value.recordDistance) == ParseUnsigned(RemoveSpaces(distanceText), U64_LIMIT)
    ensures r.Err? ==> r.error == BadNumber
  {
    match ParseUnsigned(RemoveSpaces(timeText), U64_LIMIT)
    case None => Err(BadNumber)
    case Some(time) =>
      match ParseUnsigned(RemoveSpaces(distanceText), U64_LIMIT)
      case None => Err(BadNumber)
      case Some(distance) => Ok(Race(time, distance))
  }

  /** `read_race`: the time and distance lines with their prefixes, read as one race. */
  function RaceOfLines(lines: seq<string>): (r: Result<Race, Error>)
    ensures r.Ok? ==> |lines| >= 2 && TIME_PREFIX <= lines[0] && DISTANCE_PREFIX <= lines[1]
    ensures r.Ok? ==> r.value.time < U64_LIMIT && r.value.recordDistance < U64_LIMIT
    ensures r == Err(MissingTimeLine) <==> |lines| == 0
    ensures r == Err(MissingDistanceLine) <==> |lines| == 1 && TIME_PREFIX <= lines[0]
  {
    match RaceTexts(lines)
    case Err(e) => Err(e)
    case Ok((timeText, distanceText)) => KernedRace(timeText, distanceText)
  }

  /** The pieces written one after the other. */
  function Concat(ws: seq<string>): string
  {
    if ws == [] then "" else ws[0] + Concat(ws[1..])
  }

  /** How many decimal digits the numbers take together. */
  function DigitCount(ns: seq<nat>): nat
  {
    if ns == [] then 0 else |ShowNat(ns[0])| + DigitCount(ns[1..])
  }

  /** The number read when the decimal spellings of `ns` run together. */
  function Kerned(ns: seq<nat>): nat
  {
    if ns == [] then 0 else ns[0] * Pow10(DigitCount(ns[1..])) + Kerned(ns[1..])
  }

  /** Deleting the spaces from words joined by single spaces runs the words together. */
  lemma {:induction false} RemoveSpacesUnwords(ws: seq<string>)
    requires forall i :: 0 <= i < |ws| ==> IsWord(ws[i])
    ensures RemoveSpaces(Unwords(ws)) == Concat(ws)
    decreases |ws|
  {
    if ws == [] {
    } else if |ws| == 1 {
      assert ' ' !in ws[0] by {
        assert IsWord(ws[0]);
      }
      RemoveSpacesNoSpace(ws[0]);
      assert Concat(ws) == ws[0] + Concat([]);
      assert ws[0] + "" == ws[0];
    } else {
      var rest := Unwords(ws[1..]);
      assert Unwords(ws) == ws[0] + (" " + rest);
      assert ' ' !in ws[0] by {
        assert IsWord(ws[0]);
      }
      RemoveSpacesAppend(ws[0], " " + rest);
      RemoveSpacesAppend(" ", rest);
      RemoveSpacesNoSpace(ws[0]);
      assert RemoveSpaces(" ") == "" by {
        assert " "[1..] == "";
      }
      assert "" + RemoveSpaces(rest) == RemoveSpaces(rest);
      RemoveSpacesUnwords(ws[1..]);
    }
  }

  /** The run-together spellings are all digits, and their value is Kerned. */
  lemma {:induction false} KernedDigits(ns: seq<nat>)
    ensures AllDigits(Concat(Shown(ns)))
    ensures |Concat(Shown(ns))| == DigitCount(ns)
    ensures DigitsValue(Concat(Shown(ns))) == Kerned(ns)
    decreases |ns|
  {
    if ns != [] {
      var first := ShowNat(ns[0]);
      assert Shown(ns)[1..] == Shown(ns[1..]);
      var rest := Concat(Shown(ns[1..]));
      assert Concat(Shown(ns)) == first + rest;
      KernedDigits(ns[1..]);
      DigitsValueAppend(first, rest);
      DigitsValueOfShowNat(ns[0]);
    }
  }

  /** The text of a line of numbers, spaces removed, parses as the kerned number when it fits in 64 bits. */
  lemma KernedText(ns: seq<nat>)
    requires ns != []
    requires Kerned(ns) < U64_LIMIT
    ensures ParseUnsigned(RemoveSpaces(Unwords(Shown(ns))), U64_LIMIT) == Some(Kerned(ns))
  {
    RemoveSpacesUnwords(Shown(ns));
    KernedDigits(ns);
    var digits := Concat(Shown(ns));
    assert digits == ShowNat(ns[0]) + Concat(Shown(ns)[1..]);
    assert digits[0] == ShowNat(ns[0])[0];
  }

  /** The lines of a paper listing `times` and `distances` read as one race of the kerned numbers. */
  lemma KernedRoundTrip(times: seq<nat>, distances: seq<nat>)
    requires times != [] && distances != []
    requires Kerned(times) < U64_LIMIT && Kerned(distances) < U64_LIMIT
    ensures RaceOfLines(RaceLines(times, distances)) == Ok(Race(Kerned(times), Kerned(distances)))
  {
    RaceTextsOfLines(times, distances);
    KernedText(times);
    KernedText(distances);
  }

  /** A line without any number has nothing to parse and is refused. */
  lemma EmptyLineRefused(distances: seq<nat>)
    ensures RaceOfLines(RaceLines([], distances)) == Err(BadNumber)
  {
    RaceTextsOfLines([], distances);
    assert Unwords(Shown([])) == "";
  }

  /** The times 7, 15 and 30 run together as 71530. */
  lemma KernedTimesExample()
    ensures Kerned([7, 15, 30]) == 71530
  {
    assert ShowNat(30) == "30" && ShowNat(15) == "15";
    assert [7, 15, 30][1..] == [15, 30] && [15, 30][1..] == [30] && [30][1..] == [];
    assert DigitCount([30]) == 2 && Kerned([30]) == 30;
    assert DigitCount([15, 30]) == 4 && Kerned([15, 30]) == 1530;
  }

  /** The records 9, 40 and 200 run together as 940200. */
  lemma KernedDistancesExample()
    ensures Kerned([9, 40, 200]) == 940200
  {
    assert ShowNat(200) == "200" && ShowNat(40) == "40";
    assert [9, 40, 200][1..] == [40, 200] && [40, 200][1..] == [200] && [200][1..] == [];
    assert DigitCount([200]) == 3 && Kerned([200]) == 200;
    assert DigitCount([40, 200]) == 5 && Kerned([40, 200]) == 40200;
  }
}
