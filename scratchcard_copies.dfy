/**
 * Scratchcards, part two (2023, day 4).  A card with m matches wins one
 * copy of each of the next m cards, once for every copy of itself that is
 * held.  `process_all_cards` keeps the number of copies of each card in a
 * vector that starts as [1], grows by pushing 1 whenever a card beyond its
 * end is reached, and answers the sum of the vector — which also counts
 * cards won beyond the last line of the input.
 *
 * The vector is a local `seq` the method reassigns; CountsAfter specifies
 * its contents after each card, and CountsAreCopies proves they agree with
 * the closed-form count Copies.
 */
module ScratchcardCopies {
  import opened Text
  import Scratchcards

  function Max(a: nat, b: nat): nat
  {
    if a < b then b else a
  }

  function Min(a: nat, b: nat): nat
  {
    if a < b then a else b
  }

  // ---------------------------------------------------------------------
  // One card line
  // ---------------------------------------------------------------------

  /** The number of matches of the card on `line`, or why it cannot be read. */
  function CardMatches(line: string): (r: Result<nat, Scratchcards.Error>)
    ensures r.Err? <==> Scratchcards.ParseCard(line).Err?
    ensures r.Err? ==> r.error == Scratchcards.ParseCard(line).error
    ensures r.Ok? ==> r.value <= |Scratchcards.ParseCard(line).value.have|
  {
    match Scratchcards.ParseCard(line)
    case Err(e) => Err(e)
    case Ok(card) => Ok(Scratchcards.MatchCount(card.winning, card.have))
  }

  /** `process_card` of part two: the number of matches on the card. */
  method ProcessCard(line: string) returns (r: Result<nat, Scratchcards.Error>)
    ensures r == CardMatches(line)
  {
    var card := Scratchcards.ReadCard(line);
    if card.Err? {
      return Err(card.error);
    }
    var matches := Scratchcards.CountMatches(card.value.winning, card.value.have);
    return Ok(matches);
  }

  /** The matches of the first `n` lines in order, or the error of the first of them that cannot be read. */
  function AllMatches(lines: seq<string>, n: nat): (r: Result<seq<nat>, Scratchcards.Error>)
    requires n <= |lines|
    ensures r.Ok? ==> |r.value| == n
  {
    if n == 0 then Ok([])
    else
      match AllMatches(lines, n - 1)
      case Err(e) => Err(e)
      case Ok(ms) =>
        match CardMatches(lines[n - 1])
        case Err(e) => Err(e)
        case Ok(m) => Ok(ms + [m])
  }

  /** Once a line fails, reading further lines keeps its error. */
  lemma {:induction false} AllMatchesKeepsError(lines: seq<string>, i: nat, n: nat)
    requires i <= n <= |lines|
    requires AllMatches(lines, i).Err?
    ensures AllMatches(lines, n) == AllMatches(lines, i)
  {
    if n > i {
      AllMatchesKeepsError(lines, i, n - 1);
    }
  }

  /** Reading one more line: its error ends the reading, or its matches are appended. */
  lemma AllMatchesNext(lines: seq<string>, i: nat, ms: seq<nat>, r: Result<nat, Scratchcards.Error>)
    requires i < |lines| && AllMatches(lines, i) == Ok(ms)
    requires r == CardMatches(lines[i])
    ensures r.Err? ==> AllMatches(lines, |lines|) == Err(r.error)
    ensures r.Ok? ==> AllMatches(lines, i + 1) == Ok(ms + [r.value])
  {
    if r.Err? {
      AllMatchesKeepsError(lines, i + 1, |lines|);
    }
  }

  // ---------------------------------------------------------------------
  // The copy-count vector
  // ---------------------------------------------------------------------

  /** The vector once index `k` exists: a 1 is pushed when `k` is one past the end. */
  function Reach(counts: seq<nat>, k: nat): (c: seq<nat>)
    requires k <= |counts|
    ensures |c| == Max(|counts|, k + 1)
    ensures forall j :: 0 <= j < |c| ==> c[j] == if j < |counts| then counts[j] else 1
  {
    if k == |counts| then counts + [1] else counts
  }

  /** Card `i` wins one copy of card `k` per copy of itself. */
  function Win(counts: seq<nat>, i: nat, k: nat): (c: seq<nat>)
    requires i < k <= |counts|
  {
    var reached := Reach(counts, k);
    reached[k := reached[k] + counts[i]]
  }

  /** The inner loop of `process_all_cards` for card `i` with `m` matches. */
  function WinNext(counts: seq<nat>, i: nat, m: nat): (c: seq<nat>)
    requires i < |counts|
    ensures |c| == Max(|counts|, i + m + 1)
    decreases m
  {
    if m == 0 then counts else Win(WinNext(counts, i, m - 1), i, i + m)
  }

  /**
   * The inner loop adds `counts[i]` to each of the next `m` entries,
   * pushing 1s first where they do not exist yet, and changes nothing else.
   */
  lemma {:induction false} WinNextSpec(counts: seq<nat>, i: nat, m: nat)
    requires i < |counts|
    ensures forall k :: 0 <= k < |WinNext(counts, i, m)| ==>
              WinNext(counts, i, m)[k] == (if k < |counts| then counts[k] else 1) + (if i < k <= i + m then counts[i] else 0)
    decreases m
  {
    if m > 0 {
      WinNextSpec(counts, i, m - 1);
    }
  }

  /** The copy counts after the cards with matches `ms`, one card after the other. */
  function CountsAfter(ms: seq<nat>): (counts: seq<nat>)
    ensures |counts| >= 1 && |counts| >= |ms|
    ensures forall i :: 0 <= i < |ms| ==> i + ms[i] < |counts|
  {
    if ms == [] then [1]
    else
      var n := |ms| - 1;
      var before := CountsAfter(ms[..n]);
      WinNext(Reach(before, n), n, ms[n])
  }

  /**
   * The vector is no longer than it must be: its length is 1, the number
   * of cards, or one past the last card some card wins, whichever is
   * greatest (the lower bounds are `CountsAfter`'s own contract).
   */
  lemma {:induction false} CountsAfterLength(ms: seq<nat>)
    ensures |CountsAfter(ms)| == 1 || |CountsAfter(ms)| == |ms|
            || exists i :: 0 <= i < |ms| && |CountsAfter(ms)| == i + ms[i] + 1
  {
    if ms != [] {
      var n := |ms| - 1;
      var before := CountsAfter(ms[..n]);
      CountsAfterLength(ms[..n]);
      if |CountsAfter(ms)| == n + ms[n] + 1 {
        assert 0 <= n < |ms| && |CountsAfter(ms)| == n + ms[n] + 1;
      } else if |CountsAfter(ms)| != n + 1 {
        assert |CountsAfter(ms)| == |before|;
        if |before| != 1 && |before| != n {
          var i :| 0 <= i < n && |before| == i + ms[..n][i] + 1;
          assert 0 <= i < |ms| && |CountsAfter(ms)| == i + ms[i] + 1;
        }
      }
    }
  }

  /** One more card: reach its entry, then let it win copies of the next ones. */
  lemma CountsAfterStep(ms: seq<nat>, m: nat)
    ensures CountsAfter(ms + [m]) == WinNext(Reach(CountsAfter(ms), |ms|), |ms|, m)
  {
    assert (ms + [m])[..|ms|] == ms;
  }

  /** One loop round on the vector: pushing a 1 when the card's entry is missing, then winning copies, gives the vector after one more card. */
  lemma CountsAfterNext(ms: seq<nat>, m: nat, counts: seq<nat>, reached: seq<nat>)
    requires counts == CountsAfter(ms)
    requires reached == if |ms| >= |counts| then counts + [1] else counts
    ensures |ms| < |reached|
    ensures WinNext(reached, |ms|, m) == CountsAfter(ms + [m])
  {
    assert reached == Reach(counts, |ms|);
    CountsAfterStep(ms, m);
  }

  function Sum(s: seq<nat>): nat
  {
    if s == [] then 0 else Sum(s[..|s| - 1]) + s[|s| - 1]
  }

  /** What `process_all_cards` returns for the lines of a whole input. */
  function TotalCards(lines: seq<string>): (r: Result<nat, Scratchcards.Error>)
    ensures r.Ok? ==> r.value >= |lines| && r.value >= 1
  {
    match AllMatches(lines, |lines|)
    case Err(e) => Err(e)
    case Ok(ms) =>
      TotalAtLeastCards(ms);
      Ok(Sum(CountsAfter(ms)))
  }

  /**
   * The inner loop of `process_all_cards`: every index it writes is at
   * most one past the end, where a 1 is pushed first.
   */
  method WinCopies(counts: seq<nat>, i: nat, matches: nat) returns (c: seq<nat>)
    requires i < |counts|
    ensures c == WinNext(counts, i, matches)
  {
    c := counts;
    for j := 0 to matches
      invariant c == WinNext(counts, i, j)
    {
      assert i + j + 1 <= |c|;
      if i + j + 1 >= |c| {
        c := c + [1];
      }
      c := c[i + j + 1 := c[i + j + 1] + c[i]];
    }
  }

  /**
   * `process_all_cards`: the copy vector updated in place, card by card.
   * The assertion the source makes before each card, and the fact that
   * every index written is at most one past the end, are proved here.
   */
  method ProcessAllCards(lines: seq<string>) returns (r: Result<nat, Scratchcards.Error>)
    ensures r == TotalCards(lines)
  {
    var counts: seq<nat> := [1];
    ghost var ms: seq<nat> := [];
    for i := 0 to |lines|
      invariant AllMatches(lines, i) == Ok(ms) && |ms| == i
      invariant counts == CountsAfter(ms)
    {
      ghost var before := counts;
      if i >= |counts| {
        counts := counts + [1];
      }
      var matches := ProcessCard(lines[i]);
      AllMatchesNext(lines, i, ms, matches);
      if matches.Err? {
        return Err(matches.error);
      }
      CountsAfterNext(ms, matches.value, before, counts);
      counts := WinCopies(counts, i, matches.value);
      ms := ms + [matches.value];
    }
    return Ok(Sum(counts));
  }

  // ---------------------------------------------------------------------
  // The closed form
  // ---------------------------------------------------------------------

  /**
   * Copies of card `k` (counting from 0, possibly past the last card): the
   * original, plus one for every copy of each earlier card `i` whose
   * matches reach it (`k <= i + ms[i]`).
   */
  function Copies(ms: seq<nat>, k: nat): (c: nat)
    ensures c >= 1
    decreases k, 1, 0
  {
    1 + Contrib(ms, k, Min(k, |ms|))
  }

  /** Copies of card `k` won from cards `0 .. upto - 1`. */
  function Contrib(ms: seq<nat>, k: nat, upto: nat): nat
    requires upto <= k && upto <= |ms|
    decreases k, 0, upto
  {
    if upto == 0 then 0
    else Contrib(ms, k, upto - 1) + (if k <= upto - 1 + ms[upto - 1] then Copies(ms, upto - 1) else 0)
  }

  /** Later cards do not change the copies of earlier ones. */
  lemma {:induction false} CopiesExtend(ms: seq<nat>, m: nat, k: nat)
    requires k <= |ms|
    ensures Copies(ms + [m], k) == Copies(ms, k)
    decreases k, 1, 0
  {
    ContribExtend(ms, m, k, k);
  }

  lemma {:induction false} ContribExtend(ms: seq<nat>, m: nat, k: nat, upto: nat)
    requires upto <= k && upto <= |ms|
    ensures Contrib(ms + [m], k, upto) == Contrib(ms, k, upto)
    decreases k, 0, upto
  {
    if upto > 0 {
      ContribExtend(ms, m, k, upto - 1);
      CopiesExtend(ms, m, upto - 1);
      assert (ms + [m])[upto - 1] == ms[upto - 1];
    }
  }

  /** No earlier card reaches `k`: nothing is won. */
  lemma {:induction false} ContribZero(ms: seq<nat>, k: nat, upto: nat)
    requires upto <= k && upto <= |ms|
    requires forall i :: 0 <= i < upto ==> i + ms[i] < k
    ensures Contrib(ms, k, upto) == 0
    decreases upto
  {
    if upto > 0 {
      ContribZero(ms, k, upto - 1);
    }
  }

  /** The vector `process_all_cards` keeps holds exactly the closed-form copy counts. */
  lemma {:induction false} CountsAreCopies(ms: seq<nat>)
    ensures forall k :: 0 <= k < |CountsAfter(ms)| ==> CountsAfter(ms)[k] == Copies(ms, k)
  {
    if ms == [] {
      assert Copies(ms, 0) == 1;
    } else {
      var n := |ms| - 1;
      var pre, m := ms[..n], ms[n];
      assert ms == pre + [m];
      CountsAreCopies(pre);
      var before := CountsAfter(pre);
      var reached := Reach(before, n);
      var after := WinNext(reached, n, m);
      WinNextSpec(reached, n, m);
      forall k | 0 <= k < |after|
        ensures after[k] == Copies(ms, k)
      {
        CopiesExtend(pre, m, Min(k, n));
        if n >= |before| {
          ContribZero(pre, n, n);
        }
        if k <= n {
          if k >= |before| {
            ContribZero(pre, k, k);
          }
        } else {
          ContribExtend(pre, m, k, n);
          if k >= |before| {
            ContribZero(pre, k, n);
          }
        }
      }
    }
  }

  // ---------------------------------------------------------------------
  // Consequences
  // ---------------------------------------------------------------------

  lemma {:induction false} SumAtLeastLength(s: seq<nat>)
    requires forall k :: 0 <= k < |s| ==> s[k] >= 1
    ensures Sum(s) >= |s|
  {
    if s != [] {
      SumAtLeastLength(s[..|s| - 1]);
    }
  }

  /** Every card is held at least once, so the total is at least the number of cards, and never 0. */
  lemma TotalAtLeastCards(ms: seq<nat>)
    ensures forall k :: 0 <= k < |CountsAfter(ms)| ==> CountsAfter(ms)[k] >= 1
    ensures Sum(CountsAfter(ms)) >= |ms| && Sum(CountsAfter(ms)) >= 1
  {
    CountsAreCopies(ms);
    SumAtLeastLength(CountsAfter(ms));
  }

  /** No cards at all still answer 1: the vector starts as [1]. */
  lemma EmptyInput()
    ensures TotalCards([]) == Ok(1)
  {
    assert CountsAfter([]) == [1];
    assert [1][..0] == [];
  }

  /** Cards matching 3, 1, 0, 0 and 0 numbers end with 1, 2, 4, 2 and 1 copies: 10 cards. */
  lemma FiveCardsExample()
    ensures CountsAfter([3, 1, 0, 0, 0]) == [1, 2, 4, 2, 1]
    ensures Sum(CountsAfter([3, 1, 0, 0, 0])) == 10
  {
    var c0: seq<nat> := [1];
    assert CountsAfter([]) == c0;
    CountsAfterStep([], 3);
    assert [] + [3] == [3];
    WinNextSpec(c0, 0, 3);
    var c1 := CountsAfter([3]);
    assert c1 == [1, 2, 2, 2];
    CountsAfterStep([3], 1);
    WinNextSpec(c1, 1, 1);
    var c2 := CountsAfter([3, 1]);
    assert c2 == [1, 2, 4, 2];
    CountsAfterStep([3, 1], 0);
    assert [3, 1] + [0] == [3, 1, 0];
    CountsAfterStep([3, 1, 0], 0);
    assert [3, 1, 0] + [0] == [3, 1, 0, 0];
    CountsAfterStep([3, 1, 0, 0], 0);
    assert [3, 1, 0, 0] + [0] == [3, 1, 0, 0, 0];
    SumFive();
  }

  lemma SumFive()
    ensures Sum([1, 2, 4, 2, 1]) == 10
  {
    assert [1][..0] == [] && [1, 2][..1] == [1] && [1, 2, 4][..2] == [1, 2];
    assert Sum([1]) == 1 && Sum([1, 2]) == 3 && Sum([1, 2, 4]) == 7;
    assert [1, 2, 4, 2][..3] == [1, 2, 4] && [1, 2, 4, 2, 1][..4] == [1, 2, 4, 2];
  }

  /** The copies after the first three cards of SixCardsExample. */
  lemma ThreeOfSixCards()
    ensures CountsAfter([4, 2, 2]) == [1, 2, 4, 8, 6]
  {
    var c0: seq<nat> := [1];
    assert CountsAfter([]) == c0;
    CountsAfterStep([], 4);
    assert [] + [4] == [4];
    WinNextSpec(c0, 0, 4);
    var c1 := CountsAfter([4]);
    assert c1 == [1, 2, 2, 2, 2];
    CountsAfterStep([4], 2);
    WinNextSpec(c1, 1, 2);
    var c2 := CountsAfter([4, 2]);
    assert c2 == [1, 2, 4, 4, 2];
    CountsAfterStep([4, 2], 2);
    assert [4, 2] + [2] == [4, 2, 2];
    WinNextSpec(c2, 2, 2);
  }

  /** Cards matching 4, 2, 2, 1, 0 and 0 numbers end with 1, 2, 4, 8, 14 and 1 copies: 30 cards. */
  lemma SixCardsExample()
    ensures CountsAfter([4, 2, 2, 1, 0, 0]) == [1, 2, 4, 8, 14, 1]
    ensures Sum(CountsAfter([4, 2, 2, 1, 0, 0])) == 30
  {
    ThreeOfSixCards();
    var c3 := CountsAfter([4, 2, 2]);
    CountsAfterStep([4, 2, 2], 1);
    assert [4, 2, 2] + [1] == [4, 2, 2, 1];
    WinNextSpec(c3, 3, 1);
    var c4 := CountsAfter([4, 2, 2, 1]);
    assert c4 == [1, 2, 4, 8, 14];
    CountsAfterStep([4, 2, 2, 1], 0);
    assert [4, 2, 2, 1] + [0] == [4, 2, 2, 1, 0];
    CountsAfterStep([4, 2, 2, 1, 0], 0);
    assert [4, 2, 2, 1, 0] + [0] == [4, 2, 2, 1, 0, 0];
    SumSix();
  }

  lemma SumSix()
    ensures Sum([1, 2, 4, 8, 14, 1]) == 30
  {
    assert [1][..0] == [] && [1, 2][..1] == [1] && [1, 2, 4][..2] == [1, 2];
    assert Sum([1]) == 1 && Sum([1, 2]) == 3 && Sum([1, 2, 4]) == 7;
    assert [1, 2, 4, 8][..3] == [1, 2, 4] && [1, 2, 4, 8, 14][..4] == [1, 2, 4, 8];
    assert Sum([1, 2, 4, 8]) == 15 && Sum([1, 2, 4, 8, 14]) == 29;
    assert [1, 2, 4, 8, 14, 1][..5] == [1, 2, 4, 8, 14];
  }
}
