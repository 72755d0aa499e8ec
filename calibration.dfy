/**
 * Trebuchet calibration (2023, day 1).  The calibration value of a line
 * is the two-digit number made of its first and its last ASCII digit; a
 * line without digits is an error.
 */
module Calibration {
  import opened Text

  datatype Error = NoDigits

  /** Some character of `line` is an ASCII digit. */
  predicate HasDigit(line: string)
  {
    exists i :: 0 <= i < |line| && IsDigit(line[i])
  }

  /** `find_first_digit`: the value of the first ASCII digit of `line`, if any. */
  function FindFirstDigit(line: string): (r: Option<nat>)
    ensures r.Some? ==> r.value < 10
    ensures r.None? ==> forall i :: 0 <= i < |line| ==> !IsDigit(line[i])
  {
    if line == [] then None
    else if IsDigit(line[0]) then Some(DigitValue(line[0]))
    else FindFirstDigit(line[1..])
  }

  /** `find_last_digit`: the value of the last ASCII digit of `line`, if any. */
  function FindLastDigit(line: string): (r: Option<nat>)
    ensures r.Some? ==> r.value < 10
    ensures r.None? ==> forall i :: 0 <= i < |line| ==> !IsDigit(line[i])
  {
    if line == [] then None
    else if IsDigit(line[|line| - 1]) then Some(DigitValue(line[|line| - 1]))
    else FindLastDigit(line[..|line| - 1])
  }

  /** The first digit found is the digit at the smallest position that holds one. */
  lemma {:induction false} FirstDigitIsFirst(line: string)
    ensures FindFirstDigit(line).None? <==> !HasDigit(line)
    ensures FindFirstDigit(line).Some? ==>
              exists i :: 0 <= i < |line| && IsDigit(line[i]) && FindFirstDigit(line) == Some(DigitValue(line[i]))
                          && forall j :: 0 <= j < i ==> !IsDigit(line[j])
    decreases |line|
  {
    if line != [] && !IsDigit(line[0]) {
      var rest := line[1..];
      FirstDigitIsFirst(rest);
      if FindFirstDigit(rest).Some? {
        var i :| 0 <= i < |rest| && IsDigit(rest[i]) && FindFirstDigit(rest) == Some(DigitValue(rest[i]))
                 && forall j :: 0 <= j < i ==> !IsDigit(rest[j]);
        assert line[i + 1] == rest[i];
        assert forall j :: 1 <= j < i + 1 ==> line[j] == rest[j - 1];
      } else {
        assert forall j :: 1 <= j < |line| ==> line[j] == rest[j - 1];
      }
    }
  }

  /** The last digit found is the digit at the largest position that holds one. */
  lemma {:induction false} LastDigitIsLast(line: string)
    ensures FindLastDigit(line).None? <==> !HasDigit(line)
    ensures FindLastDigit(line).Some? ==>
              exists i :: 0 <= i < |line| && IsDigit(line[i]) && FindLastDigit(line) == Some(DigitValue(line[i]))
                          && forall j :: i < j < |line| ==> !IsDigit(line[j])
    decreases |line|
  {
    if line != [] && !IsDigit(line[|line| - 1]) {
      var front := line[..|line| - 1];
      LastDigitIsLast(front);
      if FindLastDigit(front).Some? {
        var i :| 0 <= i < |front| && IsDigit(front[i]) && FindLastDigit(front) == Some(DigitValue(front[i]))
                 && forall j :: i < j < |front| ==> !IsDigit(front[j]);
        assert line[i] == front[i];
      } else {
        assert forall j :: 0 <= j < |front| ==> line[j] == front[j];
      }
    }
  }

  /** A first digit exists exactly when a last one does, which `parse_calibration_line` relies on. */
  lemma FirstAndLastAgree(line: string)
    ensures FindFirstDigit(line).Some? <==> FindLastDigit(line).Some?
  {
    FirstDigitIsFirst(line);
    LastDigitIsLast(line);
  }

  /** `parse_calibration_line`: ten times the first digit plus the last, or NoDigits. */
  function ParseCalibrationLine(line: string): (r: Result<nat, Error>)
    ensures r.Ok? ==> Some(r.value / 10) == FindFirstDigit(line) && Some(r.value % 10) == FindLastDigit(line)
    ensures r.Err? ==> r.error == NoDigits && forall i :: 0 <= i < |line| ==> !IsDigit(line[i])
  {
    match FindFirstDigit(line)
    case None => Err(NoDigits)
    case Some(first) =>
      FirstAndLastAgree(line);
      Ok(first * 10 + FindLastDigit(line).value)
  }

  /** The calibration value is a two-digit number, and only a line without digits fails. */
  lemma CalibrationValue(line: string)
    ensures ParseCalibrationLine(line).Err? <==> !HasDigit(line)
    ensures ParseCalibrationLine(line).Ok? ==> ParseCalibrationLine(line).value <= 99
  {
    FirstDigitIsFirst(line);
    FirstAndLastAgree(line);
    if HasDigit(line) {
      var i :| 0 <= i < |line| && IsDigit(line[i]) && FindFirstDigit(line) == Some(DigitValue(line[i]))
               && forall j :: 0 <= j < i ==> !IsDigit(line[j]);
      LastDigitIsLast(line);
      var k :| 0 <= k < |line| && IsDigit(line[k]) && FindLastDigit(line) == Some(DigitValue(line[k]))
               && forall j :: k < j < |line| ==> !IsDigit(line[j]);
    }
  }

  /** A line with a single digit `d` is worth `11 * d`: that digit is both the first and the last. */
  lemma SingleDigit(line: string, i: nat)
    requires i < |line| && IsDigit(line[i])
    requires forall j :: 0 <= j < |line| && j != i ==> !IsDigit(line[j])
    ensures ParseCalibrationLine(line) == Ok(11 * DigitValue(line[i]))
  {
    FirstDigitIsFirst(line);
    LastDigitIsLast(line);
  }

  lemma CalibrationExamples()
    ensures ParseCalibrationLine("1abc2") == Ok(12)
    ensures ParseCalibrationLine("treb7uchet") == Ok(77)
    ensures ParseCalibrationLine("abc") == Err(NoDigits)
  {
    SingleDigit("treb7uchet", 4);
    assert "abc"[1..] == "bc" && "bc"[1..] == "c" && "c"[1..] == "";
    assert "1abc2"[..4] == "1abc";
  }
}
