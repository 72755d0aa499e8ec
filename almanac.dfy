/**
 * The seed-to-location almanac (2023, day 5).
 *
 * A map converts numbers of one category into numbers of the next: each of
 * its mappings sends a half-open source range onto a range of the same
 * length starting at `destinationStart`; numbers no mapping covers pass
 * through unchanged.  Maps are keyed by their source category, and a seed
 * is resolved by following the maps from "seed" until one leads to
 * "location".  The input is a seeds line followed by blocks of the form
 * "<source>-to-<destination> map:" and mapping lines, separated by blank
 * lines.
 */
module Almanac {
  import opened Text

  datatype Error =
    | BadSeeds            // the seeds line lacks "seeds: " or holds a non-number
    | BadHeader           // a map header is not "<a>-to-<b> map:"
    | BadMapping          // a mapping line is not three u64 numbers
    | NoMap(key: string)  // the walk reached a category no map starts from
    | NoSeeds             // there is no seed to choose from

  /** `Mapping`: the source range `[sourceStart, sourceEnd)` and the start of its image. */
  datatype Mapping = Mapping(sourceStart: nat, sourceEnd: nat, destinationStart: nat)
  {
    /** `Range::contains`. */
    predicate Contains(v: nat)
    {
      sourceStart <= v < sourceEnd
    }
  }

  /** `Map`: the mappings from one category to the next, in input order. */
  datatype Map = Map(source: string, destination: string, mappings: seq<Mapping>)

  /** `Mappings`: every map, keyed by its source category. */
  type Mappings = map<string, Map>

  // ---------------------------------------------------------------------
  // Lookup through one map
  // ---------------------------------------------------------------------

  /** Index of the first mapping whose source range holds `v` (the iterator's `find`). */
  function FirstMatch(ms: seq<Mapping>, v: nat): (r: Option<nat>)
    ensures r.Some? ==> r.value < |ms| && ms[r.value].Contains(v)
    ensures r.Some? ==> forall j :: 0 <= j < r.value ==> !ms[j].Contains(v)
    ensures r.None? ==> forall j :: 0 <= j < |ms| ==> !ms[j].Contains(v)
  {
    if ms == [] then None
    else if ms[0].Contains(v) then Some(0)
    else
      match FirstMatch(ms[1..], v)
      case None => None
      case Some(k) => Some(k + 1)
  }

  /**
   * `Map::lookup`: the image of `v` under the map, either `v` itself or
   * its shift by a mapping whose source range holds it.
   */
  function Lookup(m: Map, v: nat): (r: nat)
    ensures r == v || exists i :: 0 <= i < |m.mappings| && m.mappings[i].Contains(v)
                                  && r == m.mappings[i].destinationStart + (v - m.mappings[i].sourceStart)
  {
    match FirstMatch(m.mappings, v)
    case Some(k) => m.mappings[k].destinationStart + (v - m.mappings[k].sourceStart)
    case None => v
  }

  /** A number no mapping holds is its own image. */
  lemma LookupUnmatched(m: Map, v: nat)
    requires forall j :: 0 <= j < |m.mappings| ==> !m.mappings[j].Contains(v)
    ensures Lookup(m, v) == v
  {
  }

  /**
   * The first mapping (in input order) whose range holds `v` decides its
   * image; later mappings that also hold it are ignored.
   */
  lemma LookupFirstMatch(m: Map, i: nat, v: nat)
    requires i < |m.mappings| && m.mappings[i].Contains(v)
    requires forall j :: 0 <= j < i ==> !m.mappings[j].Contains(v)
    ensures Lookup(m, v) == m.mappings[i].destinationStart + (v - m.mappings[i].sourceStart)
  {
  }

  /** No two mappings of the map share a source number. */
  ghost predicate Disjoint(m: Map)
  {
    forall i, j, v :: 0 <= i < j < |m.mappings| && m.mappings[i].Contains(v) ==> !m.mappings[j].Contains(v)
  }

  /** In a map whose ranges do not overlap, any mapping that holds `v` gives its image. */
  lemma LookupDisjoint(m: Map, i: nat, v: nat)
    requires Disjoint(m)
    requires i < |m.mappings| && m.mappings[i].Contains(v)
    ensures Lookup(m, v) == m.mappings[i].destinationStart + (v - m.mappings[i].sourceStart)
  {
    LookupFirstMatch(m, i, v);
  }

  /** The map of the lookup test: 98..100 -> 50 and 50..98 -> 52. */
  lemma LookupExample()
    ensures var m := Map("seed", "soil", [Mapping(98, 100, 50), Mapping(50, 98, 52)]);
            Lookup(m, 79) == 81 && Lookup(m, 14) == 14 && Lookup(m, 55) == 57 && Lookup(m, 13) == 13
  {
  }

  // ---------------------------------------------------------------------
  // Walking the maps from "seed" to "location"
  // ---------------------------------------------------------------------

  /** The category every walk starts from, and the one it ends at. */
  const START: string := "seed"
  const GOAL: string := "location"

  /**
   * The walk from `key` stops within `n` further maps: at a category with
   * no map, or at a map whose destination is "location".  The source has
   * no guard against maps that form a cycle; the model asks its callers for
   * such a bound instead.
   */
  predicate Ends(maps: Mappings, key: string, n: nat)
    decreases n
  {
    key !in maps || maps[key].destination == GOAL
    || (n > 0 && Ends(maps, maps[key].destination, n - 1))
  }

  /** The result of walking from `key` with value `v`, one lookup per map. */
  function Resolve(maps: Mappings, key: string, v: nat, n: nat): (r: Result<nat, Error>)
    requires Ends(maps, key, n)
    ensures r.Err? ==> r.error.NoMap? && r.error.key !in maps
    decreases n
  {
    if key !in maps then Err(NoMap(key))
    else
      var m := maps[key];
      if m.destination == GOAL then Ok(Lookup(m, v))
      else Resolve(maps, m.destination, Lookup(m, v), n - 1)
  }

  /** The maps the walk from `key` applies, in order. */
  function Route(maps: Mappings, key: string, n: nat): seq<Map>
    requires Ends(maps, key, n)
    decreases n
  {
    if key !in maps then []
    else if maps[key].destination == GOAL then [maps[key]]
    else [maps[key]] + Route(maps, maps[key].destination, n - 1)
  }

  /** The lookups of `ms` applied one after the other. */
  function Apply(ms: seq<Map>, v: nat): nat
  {
    if ms == [] then v else Apply(ms[1..], Lookup(ms[0], v))
  }

  /** The bound only decides termination: any two bounds give the same result. */
  lemma {:induction false} ResolveBoundIrrelevant(maps: Mappings, key: string, v: nat, n1: nat, n2: nat)
    requires Ends(maps, key, n1) && Ends(maps, key, n2)
    ensures Resolve(maps, key, v, n1) == Resolve(maps, key, v, n2)
    decreases n1
  {
    if key in maps && maps[key].destination != GOAL {
      ResolveBoundIrrelevant(maps, maps[key].destination, Lookup(maps[key], v), n1 - 1, n2 - 1);
    }
  }

  /**
   * Which maps the walk visits does not depend on the value carried: a
   * walk fails for one seed exactly when it fails for every seed, with the
   * same missing category.
   */
  lemma {:induction false} ResolveFailureIndependent(maps: Mappings, key: string, v1: nat, v2: nat, n: nat)
    requires Ends(maps, key, n)
    ensures Resolve(maps, key, v1, n).Err? <==> Resolve(maps, key, v2, n).Err?
    ensures Resolve(maps, key, v1, n).Err? ==> Resolve(maps, key, v1, n) == Resolve(maps, key, v2, n)
    decreases n
  {
    if key in maps && maps[key].destination != GOAL {
      ResolveFailureIndependent(maps, maps[key].destination, Lookup(maps[key], v1), Lookup(maps[key], v2), n - 1);
    }
  }

  /** A successful walk is the composition of the lookups of the maps on its route. */
  lemma {:induction false} ResolveAppliesRoute(maps: Mappings, key: string, v: nat, n: nat)
    requires Ends(maps, key, n)
    ensures Resolve(maps, key, v, n).Ok? ==> Resolve(maps, key, v, n).value == Apply(Route(maps, key, n), v)
    decreases n
  {
    if key in maps && maps[key].destination != GOAL {
      ResolveAppliesRoute(maps, maps[key].destination, Lookup(maps[key], v), n - 1);
    }
  }

  /** The walk succeeds exactly when its route is non-empty and its last map leads to "location". */
  lemma {:induction false} ResolveOkOnRoute(maps: Mappings, key: string, v: nat, n: nat)
    requires Ends(maps, key, n)
    ensures Resolve(maps, key, v, n).Ok? <==>
              Route(maps, key, n) != [] && Route(maps, key, n)[|Route(maps, key, n)| - 1].destination == GOAL
    decreases n
  {
    if key in maps && maps[key].destination != GOAL {
      var next := maps[key].destination;
      ResolveOkOnRoute(maps, next, Lookup(maps[key], v), n - 1);
      var rest := Route(maps, next, n - 1);
      assert Route(maps, key, n) == [maps[key]] + rest;
      if rest != [] {
        assert Route(maps, key, n)[|Route(maps, key, n)| - 1] == rest[|rest| - 1];
      }
    }
  }

  /** `Mappings::lookup_seed_location`: walk from "seed" until a map leads to "location". */
  method LookupSeedLocation(maps: Mappings, seed: nat, ghost n: nat) returns (r: Result<nat, Error>)
    requires Ends(maps, START, n)
    ensures r == Resolve(maps, START, seed, n)
  {
    var key := START;
    var value := seed;
    ghost var fuel := n;
    while true
      invariant Ends(maps, key, fuel)
      invariant Resolve(maps, key, value, fuel) == Resolve(maps, START, seed, n)
      decreases fuel
    {
      if key !in maps {
        return Err(NoMap(key));
      }
      var m := maps[key];
      key := m.destination;
      value := Lookup(m, value);
      if key == GOAL {
        return Ok(value);
      }
      fuel := fuel - 1;
    }
  }

  /** Where `seed` ends up. */
  function Location(maps: Mappings, seed: nat, n: nat): Result<nat, Error>
    requires Ends(maps, START, n)
  {
    Resolve(maps, START, seed, n)
  }

  /** `seeds[i]` has a location no other seed beats, and every earlier seed's is larger. */
  ghost predicate IsEarliestMinimum(maps: Mappings, seeds: seq<nat>, n: nat, i: nat)
    requires Ends(maps, START, n)
    requires i < |seeds|
  {
    Location(maps, seeds[i], n).Ok?
    && (forall j :: 0 <= j < |seeds| ==>
          Location(maps, seeds[j], n).Ok? && Location(maps, seeds[i], n).value <= Location(maps, seeds[j], n).value)
    && (forall j :: 0 <= j < i ==> Location(maps, seeds[i], n).value < Location(maps, seeds[j], n).value)
  }

  /**
   * `find_seed_with_smallest_location`: no seeds is an error; the first
   * seed whose walk fails decides the error; otherwise the seed with the
   * smallest location, the earliest one on a tie.
   */
  method FindSeedWithSmallestLocation(seeds: seq<nat>, maps: Mappings, ghost n: nat) returns (r: Result<nat, Error>)
    requires Ends(maps, START, n)
    ensures seeds == [] ==> r == Err(NoSeeds)
    ensures seeds != [] && r.Err? ==>
      exists i :: 0 <= i < |seeds| && Location(maps, seeds[i], n) == r
                  && forall j :: 0 <= j < i ==> Location(maps, seeds[j], n).Ok?
    ensures seeds != [] && (forall j :: 0 <= j < |seeds| ==> Location(maps, seeds[j], n).Ok?) ==> r.Ok?
    ensures r.Ok? ==> exists i :: 0 <= i < |seeds| && seeds[i] == r.value && IsEarliestMinimum(maps, seeds, n, i)
  {
    if seeds == [] {
      return Err(NoSeeds);
    }
    var location := LookupSeedLocation(maps, seeds[0], n);
    if location.Err? {
      assert Location(maps, seeds[0], n) == Err(location.error);
      return Err(location.error);
    }
    var smallest := (seeds[0], location.value);
    ghost var best := 0;
    for k := 1 to |seeds|
      invariant best < k && seeds[best] == smallest.0 && Location(maps, seeds[best], n) == Ok(smallest.1)
      invariant forall j :: 0 <= j < k ==>
                  Location(maps, seeds[j], n).Ok? && smallest.1 <= Location(maps, seeds[j], n).value
      invariant forall j :: 0 <= j < best ==> smallest.1 < Location(maps, seeds[j], n).value
    {
      location := LookupSeedLocation(maps, seeds[k], n);
      if location.Err? {
        assert Location(maps, seeds[k], n) == Err(location.error);
        return Err(location.error);
      }
      if location.value < smallest.1 {
        smallest := (seeds[k], location.value);
        best := k;
      }
    }
    assert IsEarliestMinimum(maps, seeds, n, best);
    return Ok(smallest.0);
  }

  // ---------------------------------------------------------------------
  // Parsing
  // ---------------------------------------------------------------------

  /**
   * `Mapping::from_str`: exactly three whitespace-separated u64 numbers,
   * destination start, source start and length, in that order.
   */
  function ParseMapping(s: string): (r: Result<Mapping, Error>)
    ensures r.Ok? ==> r.value.sourceStart <= r.value.sourceEnd
    ensures r.Err? ==> r.error == BadMapping
  {
    var parts := Tokens(s);
    if |parts| != 3 then Err(BadMapping)
    else
      match ParseAll(parts, U64_LIMIT)
      case None => Err(BadMapping)
      case Some(ns) => Ok(Mapping(ns[1], ns[1] + ns[2], ns[0]))
  }

  /** A mapping line written out in its canonical form parses back to the range it describes. */
  lemma ParseMappingOfLine(destinationStart: nat, sourceStart: nat, length: nat)
    requires destinationStart < U64_LIMIT && sourceStart < U64_LIMIT && length < U64_LIMIT
    ensures ParseMapping(Unwords(Shown([destinationStart, sourceStart, length])))
            == Ok(Mapping(sourceStart, sourceStart + length, destinationStart))
  {
    var ns := [destinationStart, sourceStart, length];
    TokensOfUnwords(Shown(ns));
    ParseAllOfShown(ns, U64_LIMIT);
  }

  /**
   * A mapping line is accepted exactly when it has three whitespace
   * tokens and each is a u64 number; the mapping then takes the range of
   * the second and third numbers to the first.
   */
  lemma ParseMappingAccepts(s: string)
    ensures ParseMapping(s).Ok? <==>
              |Tokens(s)| == 3 && forall i :: 0 <= i < 3 ==> ParseUnsigned(Tokens(s)[i], U64_LIMIT).Some?
    ensures ParseMapping(s).Ok? ==>
              var d := ParseUnsigned(Tokens(s)[0], U64_LIMIT).value;
              var st := ParseUnsigned(Tokens(s)[1], U64_LIMIT).value;
              var l := ParseUnsigned(Tokens(s)[2], U64_LIMIT).value;
              ParseMapping(s).value == Mapping(st, st + l, d)
  {
    ParseAllEach(Tokens(s), U64_LIMIT);
  }

  /** A line of more or fewer than three words is refused, whatever the words are. */
  lemma ParseMappingNeedsThreeParts(ws: seq<string>)
    requires forall i :: 0 <= i < |ws| ==> IsWord(ws[i])
    requires |ws| != 3
    ensures ParseMapping(Unwords(ws)) == Err(BadMapping)
  {
    TokensOfUnwords(ws);
  }

  /**
   * `parse_map_header`: the line ends in " map:" and what precedes it has
   * exactly three '-'-separated parts, the middle one "to".
   */
  function ParseMapHeader(line: string): (r: Result<(string, string), Error>)
    ensures r.Err? ==> r.error == BadHeader
  {
    if |line| < 5 || line[|line| - 5..] != " map:" then Err(BadHeader)
    else
      var parts := Split(line[..|line| - 5], '-');
      if |parts| != 3 || parts[1] != "to" then Err(BadHeader)
      else Ok((parts[0], parts[2]))
  }

  lemma JoinAroundTo(source: string, destination: string)
    ensures Join([source, "to", destination], '-') == source + "-to-" + destination
  {
    Join3(source, "to", destination, '-');
    var x := source + "-to-" + destination;
    var y := source + ['-'] + "to" + ['-'] + destination;
    assert |x| == |y|;
    assert forall i :: 0 <= i < |x| ==> x[i] == y[i];
  }

  /** Every accepted header is "<source>-to-<destination> map:" with no '-' in either name. */
  lemma MapHeaderAccepted(line: string)
    requires ParseMapHeader(line).Ok?
    ensures var (source, destination) := ParseMapHeader(line).value;
            '-' !in source && '-' !in destination && line == source + "-to-" + destination + " map:"
  {
    var body := line[..|line| - 5];
    var parts := Split(body, '-');
    JoinSplit(body, '-');
    assert |parts| == 3 && parts[1] == "to";
    assert parts == [parts[0], "to", parts[2]];
    JoinAroundTo(parts[0], parts[2]);
    assert body == parts[0] + "-to-" + parts[2];
    assert line == body + " map:";
  }

  /** Every such line is accepted, with its two names. */
  lemma MapHeaderOfNames(source: string, destination: string)
    requires '-' !in source && '-' !in destination
    ensures ParseMapHeader(source + "-to-" + destination + " map:") == Ok((source, destination))
  {
    var line := source + "-to-" + destination + " map:";
    var body := source + "-to-" + destination;
    assert line == body + " map:";
    assert line[|line| - 5..] == " map:";
    assert line[..|line| - 5] == body;
    var parts := [source, "to", destination];
    JoinAroundTo(source, destination);
    SplitJoin(parts, '-');
    assert Split(line[..|line| - 5], '-') == parts;
  }

  /** The header of the map parsing test. */
  lemma MapHeaderExample()
    ensures ParseMapHeader("seed-to-soil map:") == Ok(("seed", "soil"))
  {
    MapHeaderOfNames("seed", "soil");
    assert "seed" + "-to-" + "soil" + " map:" == "seed-to-soil map:";
  }

  /** The second header of the read_all_maps test. */
  lemma SoilHeaderExample()
    ensures ParseMapHeader("soil-to-fertilizer map:") == Ok(("soil", "fertilizer"))
  {
    HeaderParse("soil-to-fertilizer map:", "soil", "fertilizer");
  }

  /** A header without the hyphens is refused. */
  lemma MapHeaderWithoutHyphens()
    ensures ParseMapHeader("seed to soil map:") == Err(BadHeader)
  {
    var body := "seed to soil";
    assert "seed to soil map:"[..12] == body;
    FindAbsent(body, '-');
    assert Split(body, '-') == [body];
  }

  /** The two mapping lines of the read_map test. */
  lemma MappingLinesExample()
    ensures ParseMapping("50 98 2") == Ok(Mapping(98, 100, 50))
    ensures ParseMapping("52 50 48") == Ok(Mapping(50, 98, 52))
  {
    SeedLinesParse("50 98 2", "52 50 48");
  }

  lemma ShownFirstMappingLine()
    ensures Unwords(Shown([50, 98, 2])) == "50 98 2"
  {
    assert ShowNat(50) == "50" && ShowNat(98) == "98" && ShowNat(2) == "2";
    assert Shown([50, 98, 2]) == ["50", "98", "2"];
    assert ["50", "98", "2"][1..] == ["98", "2"] && ["98", "2"][1..] == ["2"];
  }

  lemma ShownSecondMappingLine()
    ensures Unwords(Shown([52, 50, 48])) == "52 50 48"
  {
    assert ShowNat(52) == "52" && ShowNat(50) == "50" && ShowNat(48) == "48";
    assert Shown([52, 50, 48]) == ["52", "50", "48"];
    assert ["52", "50", "48"][1..] == ["50", "48"] && ["50", "48"][1..] == ["48"];
  }

  /** The three mapping lines of the second block of the read_all_maps test. */
  lemma SoilLinesParse(one: string, two: string, three: string)
    requires one == "0 15 37" && two == "37 52 2" && three == "39 0 15"
    ensures ParseMapping(one) == Ok(Mapping(15, 52, 0))
    ensures ParseMapping(two) == Ok(Mapping(52, 54, 37))
    ensures ParseMapping(three) == Ok(Mapping(0, 15, 39))
  {
    ShownSoilLineOne();
    ShownSoilLineTwo();
    ShownSoilLineThree();
    ParseMappingOfLine(0, 15, 37);
    ParseMappingOfLine(37, 52, 2);
    ParseMappingOfLine(39, 0, 15);
  }

  /** Those lines written out from their numbers. */
  lemma ShownSoilLineOne()
    ensures Unwords(Shown([0, 15, 37])) == "0 15 37"
  {
    assert ShowNat(0) == "0" && ShowNat(15) == "15" && ShowNat(37) == "37";
    assert Shown([0, 15, 37]) == ["0", "15", "37"];
    assert ["0", "15", "37"][1..] == ["15", "37"] && ["15", "37"][1..] == ["37"];
  }

  lemma ShownSoilLineTwo()
    ensures Unwords(Shown([37, 52, 2])) == "37 52 2"
  {
    assert ShowNat(37) == "37" && ShowNat(52) == "52" && ShowNat(2) == "2";
    assert Shown([37, 52, 2]) == ["37", "52", "2"];
    assert ["37", "52", "2"][1..] == ["52", "2"] && ["52", "2"][1..] == ["2"];
  }

  lemma ShownSoilLineThree()
    ensures Unwords(Shown([39, 0, 15])) == "39 0 15"
  {
    assert ShowNat(39) == "39" && ShowNat(0) == "0" && ShowNat(15) == "15";
    assert Shown([39, 0, 15]) == ["39", "0", "15"];
    assert ["39", "0", "15"][1..] == ["0", "15"] && ["0", "15"][1..] == ["15"];
  }

  /** What `read_seeds` returns for a line. */
  function SeedList(line: string): (r: Result<seq<nat>, Error>)
    ensures r.Err? ==> r.error == BadSeeds
    ensures r.Ok? ==> "seeds: " <= line && |r.value| == |Tokens(line[7..])|
  {
    if !("seeds: " <= line) then Err(BadSeeds)
    else
      match ParseAll(Tokens(line[7..]), U64_LIMIT)
      case None => Err(BadSeeds)
      case Some(seeds) => Ok(seeds)
  }

  /** `read_seeds`: after "seeds: ", every whitespace-separated token as a u64, in order. */
  method ReadSeeds(line: string) returns (r: Result<seq<nat>, Error>)
    ensures r == SeedList(line)
  {
    if !("seeds: " <= line) {
      return Err(BadSeeds);
    }
    var tokens := Tokens(line[7..]);
    var seeds: seq<nat> := [];
    for i := 0 to |tokens|
      invariant ParseAll(tokens[..i], U64_LIMIT) == Some(seeds)
    {
      var seed := ParseUnsigned(tokens[i], U64_LIMIT);
      ParseAllExtend(tokens, i, U64_LIMIT);
      if seed.None? {
        return Err(BadSeeds);
      }
      seeds := seeds + [seed.value];
    }
    assert tokens[..|tokens|] == tokens;
    return Ok(seeds);
  }

  /** A seeds line written out from u64 seeds reads back as those seeds; none is allowed. */
  lemma SeedListOfSeeds(seeds: seq<nat>)
    requires forall i :: 0 <= i < |seeds| ==> seeds[i] < U64_LIMIT
    ensures SeedList("seeds: " + Unwords(Shown(seeds))) == Ok(seeds)
  {
    var line := "seeds: " + Unwords(Shown(seeds));
    assert line[7..] == Unwords(Shown(seeds));
    TokensOfUnwords(Shown(seeds));
    ParseAllOfShown(seeds, U64_LIMIT);
  }

  /** The accepted seeds line of the source's tests with three seeds. */
  lemma SeedListExample()
    ensures SeedList("seeds: 1 2 3") == Ok([1, 2, 3])
  {
    ShownOneTwoThree();
    SeedListOfSeeds([1, 2, 3]);
  }

  lemma ShownOneTwoThree()
    ensures "seeds: " + Unwords(Shown([1, 2, 3])) == "seeds: 1 2 3"
  {
    assert Shown([1, 2, 3]) == ["1", "2", "3"] by {
      assert ShowNat(1) == "1" && ShowNat(2) == "2" && ShowNat(3) == "3";
    }
    assert Unwords(["1", "2", "3"]) == "1 2 3" by {
      assert ["1", "2", "3"][1..] == ["2", "3"] && ["2", "3"][1..] == ["3"];
    }
  }

  /** The accepted seeds lines of the source's tests with one seed and with none. */
  lemma SeedListShortExamples()
    ensures SeedList("seeds: 1") == Ok([1])
    ensures SeedList("seeds: ") == Ok([])
  {
    assert Shown([1]) == ["1"] by {
      assert ShowNat(1) == "1";
    }
    SeedListOfSeeds([1]);
    SeedListOfSeeds([]);
  }

  /** The refused seeds lines of the source's tests: a token that is not a number. */
  lemma SeedListRefusals()
    ensures SeedList("seeds: a").Err?
    ensures SeedList("seeds: 1 a").Err?
  {
    SeedListAccepts("seeds: a");
    assert "seeds: a"[7..] == "a";
    assert Tokens("a") == ["a"] by {
      assert WordLength("a") == 1 && "a"[..1] == "a" && "a"[1..] == "";
    }
    assert ParseUnsigned("a", U64_LIMIT).None?;
    SeedListAccepts("seeds: 1 a");
    assert "seeds: 1 a"[7..] == "1 a";
    assert Tokens("1 a")[1] == "a" by {
      assert "1 a"[1..] == " a" && " a"[1..] == "a";
      assert WordLength("1 a") == 1;
    }
  }

  /**
   * The seeds line is accepted exactly when it starts with "seeds: " and
   * every token after that is a u64 number, and the seeds are those
   * numbers in token order.
   */
  lemma SeedListAccepts(line: string)
    ensures SeedList(line).Ok? <==>
              "seeds: " <= line && forall t :: t in Tokens(line[7..]) ==> ParseUnsigned(t, U64_LIMIT).Some?
    ensures SeedList(line).Ok? ==>
              forall i :: 0 <= i < |SeedList(line).value| ==> ParseUnsigned(Tokens(line[7..])[i], U64_LIMIT) == Some(SeedList(line).value[i])
  {
    if "seeds: " <= line {
      var ts := Tokens(line[7..]);
      ParseAllEach(ts, U64_LIMIT);
      if ParseAll(ts, U64_LIMIT).None? {
        var i :| 0 <= i < |ts| && ParseUnsigned(ts[i], U64_LIMIT).None?;
        assert ts[i] in ts;
      }
    }
  }

  /** Index of the first blank line at or after `from`, or the end of the input. */
  function BlockEnd(lines: seq<string>, from: nat): (e: nat)
    requires from <= |lines|
    ensures from <= e <= |lines|
    ensures forall i :: from <= i < e ==> lines[i] != ""
    ensures e < |lines| ==> lines[e] == ""
    decreases |lines| - from
  {
    if from == |lines| || lines[from] == "" then from else BlockEnd(lines, from + 1)
  }

  /** Lines `from .. until - 1` as mappings, in order; a malformed line fails them all. */
  function ParseMappings(lines: seq<string>, from: nat, until: nat): (r: Result<seq<Mapping>, Error>)
    requires from <= until <= |lines|
    ensures r.Err? ==> r.error == BadMapping
    decreases until
  {
    if until == from then Ok([])
    else
      match ParseMappings(lines, from, until - 1)
      case Err(e) => Err(e)
      case Ok(ms) =>
        match ParseMapping(lines[until - 1])
        case Err(e) => Err(e)
        case Ok(m) => Ok(ms + [m])
  }

  /** When the lines parse, line `from + i` gives mapping `i`, so every line parses. */
  lemma {:induction false} ParseMappingsEach(lines: seq<string>, from: nat, until: nat)
    requires from <= until <= |lines|
    requires ParseMappings(lines, from, until).Ok?
    ensures |ParseMappings(lines, from, until).value| == until - from
    ensures forall k :: from <= k < until ==> ParseMapping(lines[k]) == Ok(ParseMappings(lines, from, until).value[k - from])
    decreases until
  {
    if until > from {
      var previous := ParseMappings(lines, from, until - 1).value;
      var last := ParseMapping(lines[until - 1]).value;
      assert ParseMappings(lines, from, until).value == previous + [last];
      ParseMappingsEach(lines, from, until - 1);
    }
  }

  /** Lines that each parse as a mapping parse together. */
  lemma {:induction false} ParseMappingsAllParse(lines: seq<string>, from: nat, until: nat)
    requires from <= until <= |lines|
    requires forall k :: from <= k < until ==> ParseMapping(lines[k]).Ok?
    ensures ParseMappings(lines, from, until).Ok?
    decreases until
  {
    if until > from {
      ParseMappingsAllParse(lines, from, until - 1);
      assert ParseMapping(lines[until - 1]).Ok?;
    }
  }

  /** A malformed line fails every longer run of lines that contains it. */
  lemma {:induction false} ParseMappingsKeepsError(lines: seq<string>, from: nat, mid: nat, until: nat)
    requires from <= mid <= until <= |lines|
    requires ParseMappings(lines, from, mid).Err?
    ensures ParseMappings(lines, from, until).Err?
    decreases until
  {
    if until > mid {
      ParseMappingsKeepsError(lines, from, mid, until - 1);
    }
  }

  /**
   * What `read_map` does from line `pos`: nothing left means no map;
   * otherwise the header, then the mappings up to a blank line or the end
   * of the input, and the position after the blank line.
   */
  function MapBlock(lines: seq<string>, pos: nat): (r: Result<Option<(Map, nat)>, Error>)
    requires pos <= |lines|
    ensures r == Ok(None) <==> pos == |lines|
    ensures r.Err? ==> r.error == BadHeader || r.error == BadMapping
    ensures r.Ok? && r.value.Some? ==> pos < r.value.value.1 <= |lines|
  {
    if pos == |lines| then Ok(None)
    else
      match ParseMapHeader(lines[pos])
      case Err(e) => Err(e)
      case Ok((source, destination)) =>
        match MapBody(lines, pos + 1, source, destination)
        case Err(e) => Err(e)
        case Ok((m, next)) => Ok(Some((m, next)))
  }

  /** The map made of the mapping lines from `from` on, and the position after the blank line that ends them. */
  function MapBody(lines: seq<string>, from: nat, source: string, destination: string): (r: Result<(Map, nat), Error>)
    requires from <= |lines|
    ensures r.Err? ==> r.error == BadMapping
    ensures r.Ok? ==> from <= r.value.1 <= |lines|
  {
    var end := BlockEnd(lines, from);
    match ParseMappings(lines, from, end)
    case Err(e) => Err(e)
    case Ok(ms) => Ok((Map(source, destination, ms), if end < |lines| then end + 1 else end))
  }

  /**
   * A block body is accepted exactly when every line before the first
   * blank line (or the end of the input) is a mapping line; the map then
   * holds one mapping per line, in order, and reading resumes after the
   * blank line, or at the end of the input when there is none.
   */
  lemma MapBodyAccepts(lines: seq<string>, from: nat, source: string, destination: string)
    requires from <= |lines|
    ensures MapBody(lines, from, source, destination).Ok? <==>
              forall k :: from <= k < BlockEnd(lines, from) ==> ParseMapping(lines[k]).Ok?
    ensures MapBody(lines, from, source, destination).Ok? ==>
              MapBody(lines, from, source, destination).value.1
              == (if BlockEnd(lines, from) < |lines| then BlockEnd(lines, from) + 1 else |lines|)
    ensures MapBody(lines, from, source, destination).Ok? ==>
              var m := MapBody(lines, from, source, destination).value.0;
              m.source == source && m.destination == destination &&
              |m.mappings| == BlockEnd(lines, from) - from &&
              forall k :: from <= k < BlockEnd(lines, from) ==> ParseMapping(lines[k]) == Ok(m.mappings[k - from])
  {
    var end := BlockEnd(lines, from);
    if forall k :: from <= k < end ==> ParseMapping(lines[k]).Ok? {
      ParseMappingsAllParse(lines, from, end);
    }
    if ParseMappings(lines, from, end).Ok? {
      ParseMappingsEach(lines, from, end);
    }
  }

  /** The read_map test: a header, two mapping lines and a blank line make one map, and reading goes on after the blank line. */
  lemma ReadMapExample()
    ensures MapBlock(["seed-to-soil map:", "50 98 2", "52 50 48", ""], 0)
            == Ok(Some((Map("seed", "soil", [Mapping(98, 100, 50), Mapping(50, 98, 52)]), 4)))
  {
    var lines := ["seed-to-soil map:", "50 98 2", "52 50 48", ""];
    assert lines[0] == "seed-to-soil map:" && lines[1] == "50 98 2" && lines[2] == "52 50 48" && lines[3] == "";
    FirstBlockOf(lines);
  }

  /** A block of two mapping lines closed by a blank line. */
  lemma MapBodyOfTwoLines(lines: seq<string>, from: nat, source: string, destination: string, a: Mapping, b: Mapping)
    requires from + 3 <= |lines|
    requires lines[from] != "" && lines[from + 1] != "" && lines[from + 2] == ""
    requires ParseMapping(lines[from]) == Ok(a) && ParseMapping(lines[from + 1]) == Ok(b)
    ensures MapBody(lines, from, source, destination) == Ok((Map(source, destination, [a, b]), from + 3))
  {
    assert BlockEnd(lines, from + 2) == from + 2;
    assert BlockEnd(lines, from + 1) == from + 2;
    assert BlockEnd(lines, from) == from + 2;
    assert ParseMappings(lines, from, from) == Ok([]);
    assert lines[from + 1 - 1] == lines[from] && [] + [a] == [a];
    assert ParseMappings(lines, from, from + 1) == Ok([a]);
    assert ParseMappings(lines, from, from + 2) == Ok([a] + [b]);
    assert [a] + [b] == [a, b];
  }

  /** A block of three mapping lines closed by a blank line. */
  lemma MapBodyOfThreeLines(lines: seq<string>, from: nat, source: string, destination: string, a: Mapping, b: Mapping, c: Mapping)
    requires from + 4 <= |lines|
    requires lines[from] != "" && lines[from + 1] != "" && lines[from + 2] != "" && lines[from + 3] == ""
    requires ParseMapping(lines[from]) == Ok(a) && ParseMapping(lines[from + 1]) == Ok(b)
    requires ParseMapping(lines[from + 2]) == Ok(c)
    ensures MapBody(lines, from, source, destination) == Ok((Map(source, destination, [a, b, c]), from + 4))
  {
    assert BlockEnd(lines, from + 3) == from + 3;
    assert BlockEnd(lines, from + 2) == from + 3;
    assert BlockEnd(lines, from + 1) == from + 3;
    assert BlockEnd(lines, from) == from + 3;
    assert ParseMappings(lines, from, from) == Ok([]);
    assert lines[from + 1 - 1] == lines[from] && [] + [a] == [a];
    assert ParseMappings(lines, from, from + 1) == Ok([a]);
    assert ParseMappings(lines, from, from + 2) == Ok([a] + [b]);
    assert [a] + [b] == [a, b];
    assert ParseMappings(lines, from, from + 3) == Ok([a, b] + [c]);
    assert [a, b] + [c] == [a, b, c];
  }

  /** The lines of the read_all_maps test: two blocks, each closed by a blank line. */
  function AllMapsLines(): seq<string>
  {
    ["seed-to-soil map:", "50 98 2", "52 50 48", "",
     "soil-to-fertilizer map:", "0 15 37", "37 52 2", "39 0 15", ""]
  }

  /** A block is its header's names and the body that follows the header. */
  lemma MapBlockOf(lines: seq<string>, pos: nat, source: string, destination: string, m: Map, next: nat)
    requires pos < |lines|
    requires ParseMapHeader(lines[pos]) == Ok((source, destination))
    requires MapBody(lines, pos + 1, source, destination) == Ok((m, next))
    ensures MapBlock(lines, pos) == Ok(Some((m, next)))
  {
  }

  /** The first block of the read_all_maps test, read from position 0. */
  lemma AllMapsFirstBlock(lines: seq<string>)
    requires lines == AllMapsLines()
    ensures MapBlock(lines, 0) == Ok(Some((SeedToSoil(), 4)))
  {
    assert lines[0] == "seed-to-soil map:" && lines[1] == "50 98 2" && lines[2] == "52 50 48" && lines[3] == "";
    FirstBlockOf(lines);
  }

  /** The block of the read_map test, which also opens the read_all_maps test. */
  lemma FirstBlockOf(lines: seq<string>)
    requires |lines| >= 4
    requires lines[0] == "seed-to-soil map:" && lines[1] == "50 98 2" && lines[2] == "52 50 48" && lines[3] == ""
    ensures MapBlock(lines, 0) == Ok(Some((SeedToSoil(), 4)))
  {
    HeaderParse(lines[0], "seed", "soil");
    SeedLinesParse(lines[1], lines[2]);
    FirstBlockOfParsed(lines);
  }

  lemma SeedLinesParse(one: string, two: string)
    requires one == "50 98 2" && two == "52 50 48"
    ensures ParseMapping(one) == Ok(Mapping(98, 100, 50))
    ensures ParseMapping(two) == Ok(Mapping(50, 98, 52))
  {
    ShownFirstMappingLine();
    ShownSecondMappingLine();
    ParseMappingOfLine(50, 98, 2);
    ParseMappingOfLine(52, 50, 48);
  }

  lemma FirstBlockOfParsed(lines: seq<string>)
    requires |lines| >= 4
    requires ParseMapHeader(lines[0]) == Ok(("seed", "soil"))
    requires lines[1] != "" && lines[2] != "" && lines[3] == ""
    requires ParseMapping(lines[1]) == Ok(Mapping(98, 100, 50)) && ParseMapping(lines[2]) == Ok(Mapping(50, 98, 52))
    ensures MapBlock(lines, 0) == Ok(Some((SeedToSoil(), 4)))
  {
    MapBodyOfTwoLines(lines, 1, "seed", "soil", Mapping(98, 100, 50), Mapping(50, 98, 52));
    MapBlockOf(lines, 0, "seed", "soil", SeedToSoil(), 4);
  }

  /** The second block of the read_all_maps test, read from position 4, which ends the input. */
  lemma AllMapsSecondBlock(lines: seq<string>)
    requires lines == AllMapsLines()
    ensures MapBlock(lines, 4) == Ok(Some((SoilToFertilizer(), 9)))
  {
    assert lines[4] == "soil-to-fertilizer map:" && lines[5] == "0 15 37" && lines[6] == "37 52 2";
    assert lines[7] == "39 0 15" && lines[8] == "";
    SecondBlockOf(lines);
  }

  lemma SecondBlockOf(lines: seq<string>)
    requires |lines| == 9
    requires lines[4] == "soil-to-fertilizer map:" && lines[5] == "0 15 37" && lines[6] == "37 52 2"
    requires lines[7] == "39 0 15" && lines[8] == ""
    ensures MapBlock(lines, 4) == Ok(Some((SoilToFertilizer(), 9)))
  {
    HeaderParse(lines[4], "soil", "fertilizer");
    SoilLinesParse(lines[5], lines[6], lines[7]);
    SecondBlockOfParsed(lines);
  }

  /** A header given as text, read through its names. */
  lemma HeaderParse(header: string, source: string, destination: string)
    requires '-' !in source && '-' !in destination
    requires header == source + "-to-" + destination + " map:"
    ensures ParseMapHeader(header) == Ok((source, destination))
  {
    MapHeaderOfNames(source, destination);
  }

  lemma SecondBlockOfParsed(lines: seq<string>)
    requires |lines| == 9
    requires ParseMapHeader(lines[4]) == Ok(("soil", "fertilizer"))
    requires lines[5] != "" && lines[6] != "" && lines[7] != "" && lines[8] == ""
    requires ParseMapping(lines[5]) == Ok(Mapping(15, 52, 0)) && ParseMapping(lines[6]) == Ok(Mapping(52, 54, 37))
    requires ParseMapping(lines[7]) == Ok(Mapping(0, 15, 39))
    ensures MapBlock(lines, 4) == Ok(Some((SoilToFertilizer(), 9)))
  {
    MapBodyOfThreeLines(lines, 5, "soil", "fertilizer", Mapping(15, 52, 0), Mapping(52, 54, 37), Mapping(0, 15, 39));
    MapBlockOf(lines, 4, "soil", "fertilizer", SoilToFertilizer(), 9);
  }

  /** Two blocks, the second ending the input, read as those two maps. */
  lemma MapBlocksOfTwo(lines: seq<string>, m1: Map, next: nat, m2: Map)
    requires next <= |lines|
    requires MapBlock(lines, 0) == Ok(Some((m1, next)))
    requires MapBlock(lines, next) == Ok(Some((m2, |lines|)))
    ensures MapBlocks(lines, 0) == Ok([m1, m2])
  {
    assert MapBlocks(lines, |lines|) == Ok([]);
    assert MapBlocks(lines, next) == Ok([m2] + []);
    assert [m2] + [] == [m2] && [m1] + [m2] == [m1, m2];
  }

  /**
   * The loop of `read_map`: mapping lines from `from` up to a blank line or
   * the end of the input; `end` is where the block stops.
   */
  method ReadMappings(lines: seq<string>, from: nat) returns (r: Result<seq<Mapping>, Error>, end: nat)
    requires from <= |lines|
    ensures r == ParseMappings(lines, from, BlockEnd(lines, from))
    ensures r.Ok? ==> end == BlockEnd(lines, from)
  {
    var mappings: seq<Mapping> := [];
    end := from;
    while end < |lines| && lines[end] != ""
      invariant from <= end <= BlockEnd(lines, from)
      invariant BlockEnd(lines, end) == BlockEnd(lines, from)
      invariant ParseMappings(lines, from, end) == Ok(mappings)
    {
      assert BlockEnd(lines, end) == BlockEnd(lines, end + 1);
      var mapping := ParseMapping(lines[end]);
      if mapping.Err? {
        ParseMappingsKeepsError(lines, from, end + 1, BlockEnd(lines, from));
        return Err(mapping.error), end;
      }
      mappings := mappings + [mapping.value];
      end := end + 1;
    }
    return Ok(mappings), end;
  }

  /** The mapping lines of one block, read as `read_map` reads them after the header. */
  method ReadMapBody(lines: seq<string>, from: nat, source: string, destination: string) returns (r: Result<(Map, nat), Error>)
    requires from <= |lines|
    ensures r == MapBody(lines, from, source, destination)
  {
    var mappings, end := ReadMappings(lines, from);
    if mappings.Err? {
      return Err(mappings.error);
    }
    var next := if end < |lines| then end + 1 else end;
    return Ok((Map(source, destination, mappings.value), next));
  }

  /** `read_map` over the lines, from position `pos`; returns the map and where the next block starts. */
  method ReadMap(lines: seq<string>, pos: nat) returns (r: Result<Option<(Map, nat)>, Error>)
    requires pos <= |lines|
    ensures r == MapBlock(lines, pos)
  {
    if pos == |lines| {
      return Ok(None);
    }
    var header := ParseMapHeader(lines[pos]);
    if header.Err? {
      return Err(header.error);
    }
    var body := ReadMapBody(lines, pos + 1, header.value.0, header.value.1);
    if body.Err? {
      return Err(body.error);
    }
    return Ok(Some(body.value));
  }

  /** Every map block from `pos` on, in input order. */
  function MapBlocks(lines: seq<string>, pos: nat): Result<seq<Map>, Error>
    requires pos <= |lines|
    decreases |lines| - pos
  {
    match MapBlock(lines, pos)
    case Err(e) => Err(e)
    case Ok(None) => Ok([])
    case Ok(Some((m, next))) =>
      match MapBlocks(lines, next)
      case Err(e) => Err(e)
      case Ok(ms) => Ok([m] + ms)
  }

  /** The maps inserted one after the other, keyed by source: a later map replaces an earlier one. */
  function Index(blocks: seq<Map>): (r: Mappings)
    ensures r.Keys == set i | 0 <= i < |blocks| :: blocks[i].source
    ensures forall k :: k in r ==> r[k].source == k
  {
    if blocks == [] then map[]
    else
      var last := blocks[|blocks| - 1];
      var r := Index(blocks[..|blocks| - 1])[last.source := last];
      assert forall i :: 0 <= i < |blocks| - 1 ==> blocks[..|blocks| - 1][i] == blocks[i];
      r
  }

  /** Under each source the index holds the last block with that source. */
  lemma {:induction false} IndexKeepsLast(blocks: seq<Map>, i: nat)
    requires i < |blocks|
    requires forall j :: i < j < |blocks| ==> blocks[j].source != blocks[i].source
    ensures blocks[i].source in Index(blocks) && Index(blocks)[blocks[i].source] == blocks[i]
    decreases |blocks|
  {
    if i < |blocks| - 1 {
      var front := blocks[..|blocks| - 1];
      assert forall j :: i < j < |front| ==> front[j] == blocks[j];
      IndexKeepsLast(front, i);
    }
  }

  /** Prefixes `done` to a successful list of blocks. */
  function PrependBlocks(done: seq<Map>, rest: Result<seq<Map>, Error>): Result<seq<Map>, Error>
  {
    match rest
    case Err(e) => Err(e)
    case Ok(ms) => Ok(done + ms)
  }

  lemma PrependNothing(rest: Result<seq<Map>, Error>)
    ensures PrependBlocks([], rest) == rest
  {
    if rest.Ok? {
      assert [] + rest.value == rest.value;
    }
  }

  /** The blocks from `pos` after those already read, when no block starts at `pos`. */
  lemma MapBlocksStop(lines: seq<string>, pos: nat, done: seq<Map>)
    requires pos <= |lines|
    requires MapBlock(lines, pos).Err? || MapBlock(lines, pos) == Ok(None)
    ensures MapBlock(lines, pos).Err? ==> PrependBlocks(done, MapBlocks(lines, pos)) == Err(MapBlock(lines, pos).error)
    ensures MapBlock(lines, pos) == Ok(None) ==> PrependBlocks(done, MapBlocks(lines, pos)) == Ok(done)
  {
    assert done + [] == done;
  }

  /** Reading the block at `pos` moves it to the blocks already read. */
  lemma MapBlocksNext(lines: seq<string>, pos: nat, done: seq<Map>, m: Map, next: nat)
    requires pos <= |lines|
    requires MapBlock(lines, pos) == Ok(Some((m, next)))
    ensures next <= |lines|
    ensures PrependBlocks(done, MapBlocks(lines, pos)) == PrependBlocks(done + [m], MapBlocks(lines, next))
  {
    match MapBlocks(lines, next)
    case Err(e) =>
    case Ok(ms) =>
      assert done + ([m] + ms) == (done + [m]) + ms;
  }

  /**
   * The read_all_maps test: both blocks are read, and the table holds the
   * "seed" and the "soil" map under their sources, and nothing else.
   */
  lemma AllMapsExample()
    ensures MapBlocks(AllMapsLines(), 0) == Ok([SeedToSoil(), SoilToFertilizer()])
    ensures Index([SeedToSoil(), SoilToFertilizer()]) == map["seed" := SeedToSoil(), "soil" := SoilToFertilizer()]
  {
    AllMapsBlocks(AllMapsLines());
    var blocks := [SeedToSoil(), SoilToFertilizer()];
    assert blocks[..1] == [SeedToSoil()] && [SeedToSoil()][..0] == [];
  }

  lemma AllMapsBlocks(lines: seq<string>)
    requires lines == AllMapsLines()
    ensures MapBlocks(lines, 0) == Ok([SeedToSoil(), SoilToFertilizer()])
  {
    AllMapsFirstBlock(lines);
    AllMapsSecondBlock(lines);
    MapBlocksOfTwo(lines, SeedToSoil(), 4, SoilToFertilizer());
  }

  /** Inserting one more map extends the index. */
  lemma IndexStep(done: seq<Map>, m: Map)
    ensures Index(done + [m]) == Index(done)[m.source := m]
  {
    assert (done + [m])[..|done|] == done;
  }

  /** `read_all_maps`: read blocks until none is left, inserting each map under its source. */
  method ReadAllMaps(lines: seq<string>) returns (r: Result<Mappings, Error>)
    ensures r == (match MapBlocks(lines, 0) case Err(e) => Err(e) case Ok(blocks) => Ok(Index(blocks)))
  {
    var maps: Mappings := map[];
    var pos := 0;
    ghost var done: seq<Map> := [];
    PrependNothing(MapBlocks(lines, 0));
    while true
      invariant pos <= |lines|
      invariant maps == Index(done)
      invariant MapBlocks(lines, 0) == PrependBlocks(done, MapBlocks(lines, pos))
      decreases |lines| - pos
    {
      var block := ReadMap(lines, pos);
      if block.Err? || block.value.None? {
        MapBlocksStop(lines, pos, done);
        if block.Err? {
          return Err(block.error);
        }
        return Ok(maps);
      }
      var (m, next) := block.value.value;
      MapBlocksNext(lines, pos, done, m, next);
      IndexStep(done, m);
      maps := maps[m.source := m];
      done := done + [m];
      pos := next;
    }
  }

  // ---------------------------------------------------------------------
  // The almanac of the source's tests
  // ---------------------------------------------------------------------

  /** The seven maps of the walk test, in the order the walk takes them. */
  function ExampleChain(): seq<Map>
  {
    [SeedToSoil(), SoilToFertilizer(), FertilizerToWater(), WaterToLight(),
     LightToTemperature(), TemperatureToHumidity(), HumidityToLocation()]
  }

  /** The maps of the walk test; line "d s l" of the text is the mapping `Mapping(s, s + l, d)`. */
  function SeedToSoil(): Map
  {
    Map("seed", "soil", [Mapping(98, 100, 50), Mapping(50, 98, 52)])
  }

  function SoilToFertilizer(): Map
  {
    Map("soil", "fertilizer", [Mapping(15, 52, 0), Mapping(52, 54, 37), Mapping(0, 15, 39)])
  }

  function FertilizerToWater(): Map
  {
    Map("fertilizer", "water", [Mapping(53, 61, 49), Mapping(11, 53, 0), Mapping(0, 7, 42), Mapping(7, 11, 57)])
  }

  function WaterToLight(): Map
  {
    Map("water", "light", [Mapping(18, 25, 88), Mapping(25, 95, 18)])
  }

  function LightToTemperature(): Map
  {
    Map("light", "temperature", [Mapping(77, 100, 45), Mapping(45, 64, 81), Mapping(64, 77, 68)])
  }

  function TemperatureToHumidity(): Map
  {
    Map("temperature", "humidity", [Mapping(69, 70, 0), Mapping(0, 69, 1)])
  }

  function HumidityToLocation(): Map
  {
    Map("humidity", "location", [Mapping(56, 93, 60), Mapping(93, 97, 56)])
  }

  /** The same maps keyed by their source category. */
  function ExampleMaps(): Mappings
  {
    var c := ExampleChain();
    map["seed" := c[0], "soil" := c[1], "fertilizer" := c[2], "water" := c[3],
        "light" := c[4], "temperature" := c[5], "humidity" := c[6]]
  }

  /** The walk from "seed" takes the seven maps in order and ends at "location". */
  lemma ExampleRoute()
    ensures Ends(ExampleMaps(), START, 6)
    ensures Route(ExampleMaps(), START, 6) == ExampleChain()
    ensures ExampleChain()[6].destination == GOAL
  {
    var maps := ExampleMaps();
    var c := ExampleChain();
    assert Ends(maps, "humidity", 0) && Route(maps, "humidity", 0) == c[6..];
    assert Ends(maps, "temperature", 1) && Route(maps, "temperature", 1) == c[5..];
    assert Ends(maps, "light", 2) && Route(maps, "light", 2) == c[4..];
    assert Ends(maps, "water", 3) && Route(maps, "water", 3) == c[3..];
    assert Ends(maps, "fertilizer", 4) && Route(maps, "fertilizer", 4) == c[2..];
    assert Ends(maps, "soil", 5) && Route(maps, "soil", 5) == c[1..];
    assert Route(maps, "seed", 6) == c[0..];
  }

  /** The walk test: seeds 79, 14, 55 and 13 end at locations 82, 43, 86 and 35. */
  lemma WalkExample()
    ensures Ends(ExampleMaps(), START, 6)
    ensures Resolve(ExampleMaps(), START, 79, 6) == Ok(82)
    ensures Resolve(ExampleMaps(), START, 14, 6) == Ok(43)
    ensures Resolve(ExampleMaps(), START, 55, 6) == Ok(86)
    ensures Resolve(ExampleMaps(), START, 13, 6) == Ok(35)
  {
    ExampleRoute();
    var maps := ExampleMaps();
    var c := ExampleChain();
    ApplyExamples();
    forall v: nat
      ensures Resolve(maps, START, v, 6) == Ok(Apply(c, v))
    {
      ResolveOkOnRoute(maps, START, v, 6);
      ResolveAppliesRoute(maps, START, v, 6);
    }
  }

  /** Applying the maps from the `k`-th on: the `k`-th lookup, then the rest. */
  lemma ApplyStep(ms: seq<Map>, k: nat, v: nat)
    requires k < |ms|
    ensures Apply(ms[k..], v) == Apply(ms[k + 1..], Lookup(ms[k], v))
  {
    assert ms[k..][1..] == ms[k + 1..];
  }

  /** The lookups of the walk test in each map, for the four seeds in turn. */
  lemma SeedToSoilLookups()
    ensures Lookup(SeedToSoil(), 79) == 81 && Lookup(SeedToSoil(), 14) == 14 && Lookup(SeedToSoil(), 55) == 57 && Lookup(SeedToSoil(), 13) == 13
  {
  }

  lemma SoilToFertilizerLookups()
    ensures Lookup(SoilToFertilizer(), 81) == 81 && Lookup(SoilToFertilizer(), 14) == 53 && Lookup(SoilToFertilizer(), 57) == 57 && Lookup(SoilToFertilizer(), 13) == 52
  {
  }

  lemma FertilizerToWaterLookups()
    ensures Lookup(FertilizerToWater(), 81) == 81 && Lookup(FertilizerToWater(), 53) == 49 && Lookup(FertilizerToWater(), 57) == 53 && Lookup(FertilizerToWater(), 52) == 41
  {
  }

  lemma WaterToLightLookups()
    ensures Lookup(WaterToLight(), 81) == 74 && Lookup(WaterToLight(), 49) == 42 && Lookup(WaterToLight(), 53) == 46 && Lookup(WaterToLight(), 41) == 34
  {
  }

  lemma LightToTemperatureLookups()
    ensures Lookup(LightToTemperature(), 74) == 78 && Lookup(LightToTemperature(), 42) == 42 && Lookup(LightToTemperature(), 46) == 82 && Lookup(LightToTemperature(), 34) == 34
  {
  }

  lemma TemperatureToHumidityLookups()
    ensures Lookup(TemperatureToHumidity(), 78) == 78 && Lookup(TemperatureToHumidity(), 42) == 43 && Lookup(TemperatureToHumidity(), 82) == 82 && Lookup(TemperatureToHumidity(), 34) == 35
  {
  }

  lemma HumidityToLocationLookups()
    ensures Lookup(HumidityToLocation(), 78) == 82 && Lookup(HumidityToLocation(), 43) == 43 && Lookup(HumidityToLocation(), 82) == 86 && Lookup(HumidityToLocation(), 35) == 35
  {
  }

  /** Applying seven maps is seven lookups, one after the other. */
  lemma ApplySeven(ms: seq<Map>, v: nat)
    requires |ms| == 7
    ensures Apply(ms, v) == Lookup(ms[6], Lookup(ms[5], Lookup(ms[4], Lookup(ms[3], Lookup(ms[2], Lookup(ms[1], Lookup(ms[0], v)))))))
  {
    var w1 := Lookup(ms[0], v);
    var w2 := Lookup(ms[1], w1);
    var w3 := Lookup(ms[2], w2);
    var w4 := Lookup(ms[3], w3);
    var w5 := Lookup(ms[4], w4);
    var w6 := Lookup(ms[5], w5);
    ApplyStep(ms, 0, v);
    ApplyStep(ms, 1, w1);
    ApplyStep(ms, 2, w2);
    ApplyStep(ms, 3, w3);
    ApplyStep(ms, 4, w4);
    ApplyStep(ms, 5, w5);
    ApplyStep(ms, 6, w6);
    assert ms[0..] == ms && ms[7..] == [];
  }

  /** The walk test through the seven maps, one seed at a time. */
  lemma ApplyExamples()
    ensures Apply(ExampleChain(), 79) == 82
    ensures Apply(ExampleChain(), 14) == 43
    ensures Apply(ExampleChain(), 55) == 86
    ensures Apply(ExampleChain(), 13) == 35
  {
    SeedToSoilLookups();
    SoilToFertilizerLookups();
    FertilizerToWaterLookups();
    WaterToLightLookups();
    LightToTemperatureLookups();
    TemperatureToHumidityLookups();
    HumidityToLocationLookups();
    ApplySeven(ExampleChain(), 79);
    ApplySeven(ExampleChain(), 14);
    ApplySeven(ExampleChain(), 55);
    ApplySeven(ExampleChain(), 13);
  }
}
