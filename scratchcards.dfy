/**
 * Scratchcards (2023, day 4).  A card line is "Card   #: " followed by the
 * winning numbers, a '|', and the numbers you have.  Its matches are the
 * numbers you have that are winning, counted with repetition; the first
 * match is worth one point and each further match doubles the points.
 *
 * The card reading and match counting here are shared with the copy
 * counting of part two (module ScratchcardCopies).
 */
module Scratchcards {
  import opened Text

  datatype Error = MissingPrefix | MissingBar | BadNumber

  /** Length of the "Card   #: " prefix cut off the front of every line. */
  const PREFIX_LENGTH: nat := 10

  /** A card: its winning numbers as a set, the numbers you have in order. */
  datatype Card = Card(winning: set<nat>, have: seq<nat>)

  /** The values of a list, duplicates merged. */
  function Elements(ns: seq<nat>): (s: set<nat>)
    ensures forall x :: x in s <==> x in ns
  {
    set x | x in ns
  }

  /** What `parse_number_list` returns: the whitespace tokens as u32 values, in order. */
  function NumberList(numbers: string): (r: Option<seq<nat>>)
    ensures r.Some? ==> forall i :: 0 <= i < |Tokens(numbers)| ==> ParseUnsigned(Tokens(numbers)[i], U32_LIMIT).Some?
    ensures (forall i :: 0 <= i < |Tokens(numbers)| ==> ParseUnsigned(Tokens(numbers)[i], U32_LIMIT).Some?) ==> r.Some?
    ensures r.Some? ==> |r.value| == |Tokens(numbers)|
                        && forall i :: 0 <= i < |r.value| ==> Some(r.value[i]) == ParseUnsigned(Tokens(numbers)[i], U32_LIMIT)
  {
    var tokens := Tokens(numbers);
    ParseAllEach(tokens, U32_LIMIT);
    ParseAll(tokens, U32_LIMIT)
  }

  /** `parse_number_list`: each token parsed in turn; the first non-number ends it. */
  method ParseNumberList(numbers: string) returns (r: Option<seq<nat>>)
    ensures r == NumberList(numbers)
  {
    var tokens := Tokens(numbers);
    var list: seq<nat> := [];
    for i := 0 to |tokens|
      invariant ParseAll(tokens[..i], U32_LIMIT) == Some(list)
    {
      var number := ParseUnsigned(tokens[i], U32_LIMIT);
      ParseAllExtend(tokens, i, U32_LIMIT);
      if number.None? {
        return None;
      }
      list := list + [number.value];
    }
    assert tokens[..|tokens|] == tokens;
    return Some(list);
  }

  /** `parse_number_set`: the same numbers as a set. */
  method ParseNumberSet(numbers: string) returns (r: Option<set<nat>>)
    ensures r.Some? <==> NumberList(numbers).Some?
    ensures r.Some? ==> forall x :: x in r.value <==> x in NumberList(numbers).value
  {
    var list := ParseNumberList(numbers);
    if list.None? {
      return None;
    }
    return Some(Elements(list.value));
  }

  /**
   * A card line read as a card: too short for the prefix, no '|' after
   * the prefix, or a bad number on either side is an error.
   */
  function ParseCard(line: string): (r: Result<Card, Error>)
    ensures r == Err(MissingPrefix) <==> |line| < PREFIX_LENGTH
    ensures r == Err(MissingBar) <==> |line| >= PREFIX_LENGTH && '|' !in line[PREFIX_LENGTH..]
  {
    if |line| < PREFIX_LENGTH then Err(MissingPrefix)
    else
      match SplitOnce(line[PREFIX_LENGTH..], '|')
      case None => Err(MissingBar)
      case Some((winningText, haveText)) =>
        match NumberList(winningText)
        case None => Err(BadNumber)
        case Some(winning) =>
          match NumberList(haveText)
          case None => Err(BadNumber)
          case Some(have) => Ok(Card(Elements(winning), have))
  }

  /**
   * Past the prefix, the line is cut at its first '|': the card is read
   * exactly when both sides are lists of u32 numbers, and it is then the
   * set of the winning numbers and the list of the held ones; otherwise
   * the error is a bad number.
   */
  lemma ParseCardAccepts(line: string, winningText: string, haveText: string)
    requires |line| >= PREFIX_LENGTH
    requires line[PREFIX_LENGTH..] == winningText + ['|'] + haveText && '|' !in winningText
    ensures ParseCard(line).Ok? <==> NumberList(winningText).Some? && NumberList(haveText).Some?
    ensures ParseCard(line) == Err(BadNumber) <==> NumberList(winningText).None? || NumberList(haveText).None?
    ensures ParseCard(line).Ok? ==>
              ParseCard(line).value == Card(Elements(NumberList(winningText).value), NumberList(haveText).value)
  {
    SplitOnceOf(winningText, '|', haveText);
  }

  /** The first half of `process_card`: the checks and parses in the order the source makes them. */
  method ReadCard(line: string) returns (r: Result<Card, Error>)
    ensures r == ParseCard(line)
  {
    if |line| < PREFIX_LENGTH {
      return Err(MissingPrefix);
    }
    var trimmed := line[PREFIX_LENGTH..];
    var halves := SplitOnce(trimmed, '|');
    if halves.None? {
      return Err(MissingBar);
    }
    var winning := ParseNumberSet(halves.value.0);
    if winning.None? {
      return Err(BadNumber);
    }
    var have := ParseNumberList(halves.value.1);
    if have.None? {
      return Err(BadNumber);
    }
    assert winning.value == Elements(NumberList(halves.value.0).value);
    return Ok(Card(winning.value, have.value));
  }

  /** The numbers you have that are winning, counted with repetition. */
  function MatchCount(winning: set<nat>, have: seq<nat>): (n: nat)
    ensures n <= |have|
    ensures n == 0 <==> forall i :: 0 <= i < |have| ==> have[i] !in winning
    ensures n == |have| <==> forall i :: 0 <= i < |have| ==> have[i] in winning
  {
    if have == [] then 0
    else MatchCount(winning, have[..|have| - 1]) + (if have[|have| - 1] in winning then 1 else 0)
  }

  /** The matches loop of `process_card`. */
  method CountMatches(winning: set<nat>, have: seq<nat>) returns (matches: nat)
    ensures matches == MatchCount(winning, have)
  {
    matches := 0;
    for i := 0 to |have|
      invariant matches == MatchCount(winning, have[..i])
    {
      assert have[..i + 1][..i] == have[..i];
      if have[i] in winning {
        matches := matches + 1;
      }
    }
    assert have[..|have|] == have;
  }

  /** Matches in two runs of numbers add up. */
  lemma {:induction false} MatchCountAppend(winning: set<nat>, a: seq<nat>, b: seq<nat>)
    ensures MatchCount(winning, a + b) == MatchCount(winning, a) + MatchCount(winning, b)
    decreases |b|
  {
    if b == [] {
      assert a + b == a;
    } else {
      var ab := a + b;
      assert ab[..|ab| - 1] == a + b[..|b| - 1];
      MatchCountAppend(winning, a, b[..|b| - 1]);
    }
  }

  /** The match count depends only on which numbers you have, not on their order. */
  lemma {:induction false} MatchCountPermutation(winning: set<nat>, a: seq<nat>, b: seq<nat>)
    requires multiset(a) == multiset(b)
    ensures MatchCount(winning, a) == MatchCount(winning, b)
    decreases |a|
  {
    if a == [] {
      assert |multiset(b)| == 0;
    } else {
      var x := a[|a| - 1];
      var a' := a[..|a| - 1];
      assert a == a' + [x];
      assert x in multiset(b);
      var j :| 0 <= j < |b| && b[j] == x;
      var b' := b[..j] + b[j + 1..];
      assert b == b[..j] + [x] + b[j + 1..];
      assert multiset(b) == multiset(b[..j]) + multiset{x} + multiset(b[j + 1..]);
      assert multiset(b') == multiset(b[..j]) + multiset(b[j + 1..]);
      assert multiset(a) == multiset(a') + multiset{x};
      assert multiset(a') == multiset(a) - multiset{x};
      assert multiset(b') == multiset(b) - multiset{x};
      MatchCountPermutation(winning, a', b');
      MatchCountAppend(winning, b[..j], b[j + 1..]);
      MatchCountAppend(winning, b[..j] + [x], b[j + 1..]);
      MatchCountAppend(winning, b[..j], [x]);
      assert [x][..0] == [];
    }
  }

  function Pow2(k: nat): (p: nat)
    ensures p >= 1
  {
    if k == 0 then 1 else 2 * Pow2(k - 1)
  }

  /** Points of a card: none without a match, one for the first, doubled by each further match. */
  function Score(matches: nat): (s: nat)
    ensures s == 0 <==> matches == 0
    ensures matches == 1 ==> s == 1
    ensures matches >= 2 ==> s == 2 * Score(matches - 1)
  {
    if matches == 0 then 0 else Pow2(matches - 1)
  }

  /** `process_card` of part one: the points the card on `line` is worth. */
  method ProcessCard(line: string) returns (r: Result<nat, Error>)
    ensures ParseCard(line).Err? ==> r == Err(ParseCard(line).error)
    ensures ParseCard(line).Ok? ==>
              r == Ok(Score(MatchCount(ParseCard(line).value.winning, ParseCard(line).value.have)))
  {
    var card := ReadCard(line);
    if card.Err? {
      return Err(card.error);
    }
    var matches := CountMatches(card.value.winning, card.value.have);
    return Ok(Score(matches));
  }

  /** A card line written out from its parts, the way the puzzle input lays it out. */
  function CardLine(prefix: string, winning: seq<nat>, have: seq<nat>): string
  {
    prefix + Unwords(Shown(winning)) + " | " + Unwords(Shown(have))
  }

  /** The winning numbers as laid out before the '|': a trailing space adds no token. */
  lemma WinningTextRoundTrip(ns: seq<nat>)
    requires forall i :: 0 <= i < |ns| ==> ns[i] < U32_LIMIT
    ensures NumberList(Unwords(Shown(ns)) + " ") == Some(ns)
    ensures '|' !in Unwords(Shown(ns)) + " "
  {
    TokensOfUnwordsSpace(Shown(ns));
    ParseAllOfShown(ns, U32_LIMIT);
    UnwordsAvoids(Shown(ns), '|');
  }

  /** The numbers you have as laid out after the '|': a leading space adds no token. */
  lemma HaveTextRoundTrip(ns: seq<nat>)
    requires forall i :: 0 <= i < |ns| ==> ns[i] < U32_LIMIT
    ensures NumberList(" " + Unwords(Shown(ns))) == Some(ns)
  {
    var text := " " + Unwords(Shown(ns));
    assert text[1..] == Unwords(Shown(ns));
    assert Tokens(text) == Tokens(Unwords(Shown(ns)));
    TokensOfUnwords(Shown(ns));
    ParseAllOfShown(ns, U32_LIMIT);
  }

  /** A well-formed card line reads back as its winning numbers (as a set) and the numbers you have. */
  lemma CardLineRoundTrip(prefix: string, winning: seq<nat>, have: seq<nat>)
    requires |prefix| == PREFIX_LENGTH
    requires forall i :: 0 <= i < |winning| ==> winning[i] < U32_LIMIT
    requires forall i :: 0 <= i < |have| ==> have[i] < U32_LIMIT
    ensures ParseCard(CardLine(prefix, winning, have)) == Ok(Card(Elements(winning), have))
  {
    var left, right := Unwords(Shown(winning)) + " ", " " + Unwords(Shown(have));
    var line := CardLine(prefix, winning, have);
    assert line[PREFIX_LENGTH..] == left + ['|'] + right;
    WinningTextRoundTrip(winning);
    HaveTextRoundTrip(have);
    SplitOnceOf(left, '|', right);
  }

  /** Repeated winning numbers count once; repeated numbers you have count each time. */
  lemma MatchExamples()
    ensures MatchCount(Elements([1, 2, 3]), [4, 5, 6]) == 0
    ensures MatchCount(Elements([1, 2, 3]), [1, 5, 6]) == 1
    ensures MatchCount(Elements([1, 2, 3]), [1, 1, 1]) == 3 && Score(3) == 4
    ensures MatchCount(Elements([1, 1, 1]), [1, 2, 3]) == 1
  {
    assert [1, 5, 6][..2] == [1, 5] && [1, 5][..1] == [1];
    assert [1, 1, 1][..2] == [1, 1] && [1, 1][..1] == [1];
    assert [1, 2, 3][..2] == [1, 2] && [1, 2][..1] == [1];
  }

  /** The number lists of the third test card, written out. */
  lemma ShownThirdCard()
    ensures Unwords(Shown([1, 2, 3])) == "1 2 3" && Unwords(Shown([1, 1, 1])) == "1 1 1"
  {
    assert Shown([1, 2, 3]) == ["1", "2", "3"] by {
      assert ShowNat(1) == "1" && ShowNat(2) == "2" && ShowNat(3) == "3";
    }
    assert Shown([1, 1, 1]) == ["1", "1", "1"];
    assert Unwords(["1", "2", "3"]) == "1 2 3" by {
      assert ["1", "2", "3"][1..] == ["2", "3"] && ["2", "3"][1..] == ["3"];
    }
    assert Unwords(["1", "1", "1"]) == "1 1 1" by {
      assert ["1", "1", "1"][1..] == ["1", "1"] && ["1", "1"][1..] == ["1"];
    }
  }

  /** The third test card, read from its line: winning {1, 2, 3}, held 1, 1, 1, worth 4 points. */
  lemma CardThreeExample(line: string)
    requires line == "Card   3: 1 2 3 | 1 1 1"
    ensures ParseCard(line) == Ok(Card(Elements([1, 2, 3]), [1, 1, 1]))
    ensures Score(MatchCount(ParseCard(line).value.winning, ParseCard(line).value.have)) == 4
  {
    ShownThirdCard();
    assert line == CardLine("Card   3: ", [1, 2, 3], [1, 1, 1]);
    CardLineRoundTrip("Card   3: ", [1, 2, 3], [1, 1, 1]);
    MatchExamples();
  }
}
