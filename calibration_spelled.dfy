/**
 * Trebuchet calibration, part two (2023, day 1).  A digit is an ASCII
 * digit or one of the names "zero" .. "nine" spelled out; digits may
 * overlap ("eightwo" holds 8 then 2).  The first digit is found scanning
 * start positions upwards, the last scanning them downwards, each time
 * reading a digit at the start of the rest of the line.
 */
module CalibrationSpelled {
  import opened Text

  datatype Error = NoDigits

  /** The spelled-out digits; name `k` stands for `k`. */
  const DIGIT_NAMES: seq<string> := ["zero", "one", "two", "three", "four", "five", "six", "seven", "eight", "nine"]

  /** The first of the names `k .. 9` that `s` starts with. */
  function NameFrom(s: string, k: nat): (r: Option<nat>)
    requires k <= |DIGIT_NAMES|
    ensures r.Some? ==> r.value < |DIGIT_NAMES|
    decreases |DIGIT_NAMES| - k
  {
    if k == |DIGIT_NAMES| then None
    else if DIGIT_NAMES[k] <= s then Some(k)
    else NameFrom(s, k + 1)
  }

  /** The digit `s` starts with: a leading ASCII digit, else the name it starts with. */
  function DigitAt(s: string): (r: Option<nat>)
    requires |s| > 0
    ensures r.Some? ==> r.value < 10
  {
    if IsDigit(s[0]) then Some(DigitValue(s[0])) else NameFrom(s, 0)
  }

  /** No digit name begins with another, so at most one name starts any text. */
  lemma NamesExclusive(s: string, j: nat, k: nat)
    requires j < |DIGIT_NAMES| && k < |DIGIT_NAMES|
    requires DIGIT_NAMES[j] <= s && DIGIT_NAMES[k] <= s
    ensures j == k
  {
    var a, b := DIGIT_NAMES[j], DIGIT_NAMES[k];
    assert a[0] == s[0] == b[0] && a[1] == s[1] == b[1];
  }

  /** The names found are exactly the names `s` starts with, whatever order they are tried in. */
  lemma {:induction false} NameFromSpec(s: string, k: nat)
    requires k <= |DIGIT_NAMES|
    ensures NameFrom(s, k).Some? <==> exists n :: k <= n < |DIGIT_NAMES| && DIGIT_NAMES[n] <= s
    ensures NameFrom(s, k).Some? ==> k <= NameFrom(s, k).value < |DIGIT_NAMES| && DIGIT_NAMES[NameFrom(s, k).value] <= s
    decreases |DIGIT_NAMES| - k
  {
    if k < |DIGIT_NAMES| && !(DIGIT_NAMES[k] <= s) {
      NameFromSpec(s, k + 1);
    }
  }

  /**
   * A digit at the start of `s` is a leading ASCII digit, or else the one
   * digit whose name `s` starts with; there is none exactly when neither
   * exists.
   */
  lemma DigitAtSpec(s: string)
    requires |s| > 0
    ensures IsDigit(s[0]) ==> DigitAt(s) == Some(DigitValue(s[0]))
    ensures !IsDigit(s[0]) ==> (DigitAt(s).Some? <==> exists n :: 0 <= n < |DIGIT_NAMES| && DIGIT_NAMES[n] <= s)
    ensures !IsDigit(s[0]) ==> forall n :: 0 <= n < |DIGIT_NAMES| && DIGIT_NAMES[n] <= s ==> DigitAt(s) == Some(n)
    ensures DigitAt(s).Some? ==> DigitAt(s).value < 10
  {
    NameFromSpec(s, 0);
    if !IsDigit(s[0]) && DigitAt(s).Some? {
      forall n | 0 <= n < |DIGIT_NAMES| && DIGIT_NAMES[n] <= s
        ensures DigitAt(s) == Some(n)
      {
        NamesExclusive(s, n, DigitAt(s).value);
      }
    }
  }

  /**
   * `parse_starts_with_digit`: the caller must pass a non-empty text, as
   * the source asserts; the names are tried in order and the first that
   * starts `s` is taken.
   */
  method ParseStartsWithDigit(s: string) returns (r: Option<nat>)
    requires |s| > 0
    ensures r == DigitAt(s)
  {
    var c := s[0];
    if IsDigit(c) {
      return Some(DigitValue(c));
    }
    for i := 0 to |DIGIT_NAMES|
      invariant NameFrom(s, 0) == NameFrom(s, i)
    {
      if DIGIT_NAMES[i] <= s {
        return Some(i);
      }
    }
    return None;
  }

  /** The digit found scanning start positions `i .. |line| - 1` upwards. */
  function FirstDigitFrom(line: string, i: nat): (r: Option<nat>)
    requires i <= |line|
    ensures r.Some? ==> r.value < 10
    decreases |line| - i
  {
    if i == |line| then None
    else if DigitAt(line[i..]).Some? then DigitAt(line[i..])
    else FirstDigitFrom(line, i + 1)
  }

  /** The digit found scanning start positions `n - 1` down to 0. */
  function LastDigitBelow(line: string, n: nat): (r: Option<nat>)
    requires n <= |line|
    ensures r.Some? ==> r.value < 10
  {
    if n == 0 then None
    else if DigitAt(line[n - 1..]).Some? then DigitAt(line[n - 1..])
    else LastDigitBelow(line, n - 1)
  }

  /** A digit starts at position `i`. */
  predicate DigitStartsAt(line: string, i: nat)
    requires i < |line|
  {
    DigitAt(line[i..]).Some?
  }

  /** No digit starts at any position `i .. n - 1`. */
  predicate NoDigitBetween(line: string, i: nat, n: nat)
    requires n <= |line|
  {
    forall k :: i <= k < n ==> !DigitStartsAt(line, k)
  }

  /** `find_first_digit`: the start positions tried in increasing order. */
  method FindFirstDigit(line: string) returns (r: Option<nat>)
    ensures r == FirstDigitFrom(line, 0)
  {
    for i := 0 to |line|
      invariant FirstDigitFrom(line, 0) == FirstDigitFrom(line, i)
    {
      var digit := ParseStartsWithDigit(line[i..]);
      if digit.Some? {
        return digit;
      }
    }
    return None;
  }

  /** `find_last_digit`: the start positions tried in decreasing order. */
  method FindLastDigit(line: string) returns (r: Option<nat>)
    ensures r == LastDigitBelow(line, |line|)
  {
    var i: nat := |line|;
    while i > 0
      invariant i <= |line|
      invariant LastDigitBelow(line, |line|) == LastDigitBelow(line, i)
    {
      i := i - 1;
      var digit := ParseStartsWithDigit(line[i..]);
      if digit.Some? {
        return digit;
      }
    }
    return None;
  }

  /** Scanning upwards from `i` finds nothing exactly when no digit starts at or after `i`. */
  lemma {:induction false} FirstDigitNone(line: string, i: nat)
    requires i <= |line|
    ensures FirstDigitFrom(line, i).None? <==> NoDigitBetween(line, i, |line|)
    decreases |line| - i
  {
    if i < |line| {
      if DigitStartsAt(line, i) {
        assert !NoDigitBetween(line, i, |line|);
      } else {
        FirstDigitNone(line, i + 1);
        assert NoDigitBetween(line, i, |line|) <==> NoDigitBetween(line, i + 1, |line|);
      }
    }
  }

  /** The digit found scanning upwards from `i` starts at `k`, and none starts between `i` and `k`. */
  lemma {:induction false} FirstDigitIsFirst(line: string, i: nat)
    requires i <= |line|
    requires FirstDigitFrom(line, i).Some?
    ensures exists k :: i <= k < |line| && FirstDigitFrom(line, i) == DigitAt(line[k..])
                        && forall j :: i <= j < k ==> !DigitStartsAt(line, j)
    decreases |line| - i
  {
    if !DigitStartsAt(line, i) {
      FirstDigitIsFirst(line, i + 1);
    }
  }

  /** Scanning downwards below `n` finds nothing exactly when no digit starts below `n`. */
  lemma {:induction false} LastDigitNone(line: string, n: nat)
    requires n <= |line|
    ensures LastDigitBelow(line, n).None? <==> NoDigitBetween(line, 0, n)
    decreases n
  {
    if n > 0 {
      if DigitStartsAt(line, n - 1) {
        assert !NoDigitBetween(line, 0, n);
      } else {
        LastDigitNone(line, n - 1);
        assert NoDigitBetween(line, 0, n) <==> NoDigitBetween(line, 0, n - 1);
      }
    }
  }

  /** The digit found scanning downwards below `n` starts at `k`, and none starts between `k` and `n`. */
  lemma {:induction false} LastDigitIsLast(line: string, n: nat)
    requires n <= |line|
    requires LastDigitBelow(line, n).Some?
    ensures exists k :: 0 <= k < n && LastDigitBelow(line, n) == DigitAt(line[k..])
                        && forall j :: k < j < n ==> !DigitStartsAt(line, j)
    decreases n
  {
    if !DigitStartsAt(line, n - 1) {
      LastDigitIsLast(line, n - 1);
    }
  }

  /** A first digit exists exactly when a last one does, which `parse_calibration_line` relies on. */
  lemma FirstAndLastAgree(line: string)
    ensures FirstDigitFrom(line, 0).Some? <==> LastDigitBelow(line, |line|).Some?
  {
    FirstDigitNone(line, 0);
    LastDigitNone(line, |line|);
  }

  /**
   * `parse_calibration_line`: ten times the first digit plus the last, a
   * two-digit number, or NoDigits when no digit starts anywhere.
   */
  method ParseCalibrationLine(line: string) returns (r: Result<nat, Error>)
    ensures r.Err? <==> NoDigitBetween(line, 0, |line|)
    ensures r.Ok? ==> FirstDigitFrom(line, 0).Some? && LastDigitBelow(line, |line|).Some?
                      && r.value == 10 * FirstDigitFrom(line, 0).value + LastDigitBelow(line, |line|).value
    ensures r.Ok? ==> r.value <= 99
  {
    var first := FindFirstDigit(line);
    FirstDigitNone(line, 0);
    if first.None? {
      return Err(NoDigits);
    }
    var last := FindLastDigit(line);
    FirstAndLastAgree(line);
    return Ok(first.value * 10 + last.value);
  }

  /** "sixnine" starts with six. */
  lemma SixNineFirstExample()
    ensures FirstDigitFrom("sixnine", 0) == Some(6)
  {
    var line := "sixnine";
    assert line[0..] == line && DIGIT_NAMES[6] <= line;
    DigitAtSpec(line);
  }

  /** Text shorter than every name, not starting with an ASCII digit, starts no digit. */
  lemma ShortTextStartsNoDigit(s: string)
    requires 0 < |s| < 3 && !IsDigit(s[0])
    ensures DigitAt(s) == None
  {
    NameFromSpec(s, 0);
  }

  /** "sixnine" ends with nine. */
  lemma SixNineLastExample()
    ensures LastDigitBelow("sixnine", 7) == Some(9)
  {
    var line := "sixnine";
    assert line[6..] == "e" && line[5..] == "ne" && line[4..] == "ine" && line[3..] == "nine";
    ShortTextStartsNoDigit("e");
    ShortTextStartsNoDigit("ne");
    NameFromSpec("ine", 0);
    assert LastDigitBelow(line, 7) == LastDigitBelow(line, 4);
    assert DIGIT_NAMES[9] <= "nine";
    DigitAtSpec("nine");
  }

  /** "four20" starts with the spelled four, before the ASCII 2. */
  lemma FourTwentyExample()
    ensures FirstDigitFrom("four20", 0) == Some(4)
  {
    assert "four20"[0..] == "four20" && DIGIT_NAMES[4] <= "four20";
    DigitAtSpec("four20");
  }

  /** "42zero" ends with the spelled zero, after the ASCII digits. */
  lemma FortyTwoZeroExample()
    ensures LastDigitBelow("42zero", 6) == Some(0)
  {
    var line := "42zero";
    assert line[5..] == "o" && line[4..] == "ro" && line[3..] == "ero" && line[2..] == "zero";
    ShortTextStartsNoDigit("o");
    ShortTextStartsNoDigit("ro");
    NameFromSpec("ero", 0);
    assert LastDigitBelow(line, 6) == LastDigitBelow(line, 3);
    assert DIGIT_NAMES[0] <= "zero";
    DigitAtSpec("zero");
  }

  /** The empty line and a line without digits have neither a first nor a last digit. */
  lemma NoDigitExamples()
    ensures FirstDigitFrom("", 0) == None && LastDigitBelow("", 0) == None
    ensures FirstDigitFrom("foo", 0) == None
  {
    var line := "foo";
    assert line[0..] == line && line[1..] == "oo" && line[2..] == "o";
    DigitAtSpec(line);
    DigitAtSpec("oo");
    DigitAtSpec("o");
  }
}
