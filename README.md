# Advent of Code 2023 solvers, days 1, 4, 5 and 6, in Dafny

This project models the puzzle logic of four Advent of Code 2023 solvers
(each with its second part where the repository has one) and proves what
each of them computes. Every solver reads lines of text and answers with a
number; the model takes the lines as a `seq<string>` and leaves the reading
of standard input and the printing out.

- `text.dfy` (module `Text`): the string handling the solvers share.
  Whitespace tokens (`split_ascii_whitespace`), unsigned decimal numbers
  below a bound (`str::parse::<u32>` / `::<u64>`), splitting on a
  character, trimming white space, deleting spaces. Tokenising, number
  parsing and splitting come with their inverses: words joined by single
  spaces tokenise back to the words (`Tokens`/`Unwords`), numbers written
  out in decimal parse back to themselves (`ParseUnsigned`/`ShowNat`,
  `ParseAll`/`Shown`), and pieces joined on a separator they do not
  contain split back to the pieces (`Split`/`Join`). Trimming and deleting
  spaces have no inverse; they are characterised where they are used.
- `almanac.dfy` (module `Almanac`, day 5): the seed almanac.
  - A `Map` turns numbers of one category into numbers of the next. Its
    first `Mapping` whose half-open source range holds a value shifts it;
    a value no range holds passes through unchanged.
  - `lookup_seed_location` walks the maps from "seed" until a map leads to
    "location".
  - `find_seed_with_smallest_location` picks the seed with the smallest
    location, the earliest one on ties.
  - The readers of the seeds line, map headers, mapping lines and map
    blocks are modelled over the sequence of input lines.
- `scratchcards.dfy` (module `Scratchcards`, day 4): a card line is
  parsed into a set of winning numbers and a list of numbers held. Its
  matches are the held numbers, counted with repetition, that are winning
  numbers, and its score is 0 or `2^(matches-1)`.
- `scratchcard_copies.dfy` (module `ScratchcardCopies`, day 4 part two):
  each card wins one copy of each of the next `matches` cards per copy of
  itself. The copy-count vector is updated entry by entry as in the
  source, and proved equal to a closed form (`Copies`).
- `boat_race.dfy` (module `BoatRace`, day 6): holding the button for
  `hold` of a race's `time` milliseconds travels `(time - hold) * hold`.
  - The searches for the first and last winning hold are proved to find
    the least and greatest winners in the range they scan.
  - Concavity makes the winners one interval, so the difference of the
    two plus one is the number of winners in that range.
  - `read_races` pairs the numbers of the "Time:" and "Distance:" lines.
  - Part two's copies of the search functions (over `u64` instead of
    `u32`) are the same functions on unbounded integers and are not
    repeated.
- `boat_race_kerning.dfy` (module `BoatRaceKerning`, day 6 part two): the
  spaces of each line are deleted and what remains is read as one 64-bit
  number, so the numbers of a line run together.
- `calibration.dfy` (module `Calibration`, day 1): a line's calibration
  value is ten times its first ASCII digit plus its last.
- `calibration_spelled.dfy` (module `CalibrationSpelled`, day 1 part
  two): a digit may also be spelled out, "zero" to "nine", and spelled
  names may overlap: in "eightwo" the "t" ends "eight" and starts "two",
  so the first digit is 8 and the last 2.

Where the source loops and updates variables (the walk over the maps, the
argmin, the line readers, the copy-count vector, the hold-time searches,
the digit scans of part two), the model has a method with that loop. Most
such methods are proved equal to a specification function, whose
properties are lemmas. Six carry their property directly in their
contract instead: `BoatRace.FindFirstWinningRaceIter`,
`BoatRace.FindMinimumWinningRace`, `BoatRace.FindMaximumWinningRace`,
`BoatRace.CountWinningHoldsBelow`, `BoatRace.PairRaces` and
`Almanac.FindSeedWithSmallestLocation` state what they find (the first,
least or greatest winner, the count, the pairing, the earliest seed with
the least location). Where the source
is an expression or an iterator chain (`Map::lookup`, the headers, day 1
part one), the model is a function. The properties are lemmas about those
functions.

## Model

| member | source | states |
|---|---|---|
| Text.ParseAllEach | 2023/day05/src/main.rs:115-120 | a list of tokens parses exactly when each token parses, and the result holds their values in token order |
| Almanac.FirstMatch | 2023/day05/src/main.rs:40-41 | the index found holds the value and no earlier mapping does; none is found exactly when no mapping holds the value |
| Almanac.Lookup | 2023/day05/src/main.rs:39-46 | the image is the value itself or its shift by a mapping whose source range holds it (destination start plus the offset into the range) |
| Almanac.LookupUnmatched | 2023/day05/src/main.rs:39-46 | a value that no mapping's source range contains passes through unchanged |
| Almanac.LookupFirstMatch | 2023/day05/src/main.rs:40-43 | the first mapping in order that contains the value shifts it by destination start minus source start; later overlapping mappings are ignored |
| Almanac.LookupDisjoint | 2023/day05/src/main.rs:39-46 | when no two source ranges overlap, any mapping that contains the value decides the lookup |
| Almanac.LookupExample | 2023/day05/src/main.rs:281-284 | with ranges 98..100 -> 50 and 50..98 -> 52: 79 -> 81, 14 -> 14, 55 -> 57, 13 -> 13 |
| Almanac.ResolveBoundIrrelevant | 2023/day05/src/main.rs:23-35 | the hop bound only ensures termination: any two valid bounds give the same walk result |
| Almanac.ResolveFailureIndependent | 2023/day05/src/main.rs:28-29 | the walk fails for one seed exactly when it fails for any other, with the same missing category |
| Almanac.ResolveAppliesRoute | 2023/day05/src/main.rs:26-34 | a successful walk returns the composition of the lookups of the maps on its route, in route order |
| Almanac.Resolve | 2023/day05/src/main.rs:23-35 | a walk fails only with the name of a category that has no map |
| Almanac.ResolveOkOnRoute | 2023/day05/src/main.rs:23-35 | the walk succeeds exactly when its route is non-empty and the route's last map leads to "location" |
| Almanac.LookupSeedLocation | 2023/day05/src/main.rs:23-35 | the loop from "seed" computes the walk result: the missing category when a key has no map, otherwise the value once a map leads to "location" |
| Almanac.FindSeedWithSmallestLocation | 2023/day05/src/main.rs:92-106 | no seeds is an error; the first seed whose walk fails gives that failure; otherwise the result is a listed seed whose location is at most every other's, the earliest such seed |
| Almanac.ParseMapping | 2023/day05/src/main.rs:50-70 | an accepted mapping line gives a source range whose start is at most its end; every refusal is BadMapping |
| Almanac.ParseMappingOfLine | 2023/day05/src/main.rs:50-70 | the line "d s l" reads back as the source range s..s+l mapped to d |
| Almanac.ParseMappingNeedsThreeParts | 2023/day05/src/main.rs:51-54 | a line of more or fewer than three words is refused |
| Almanac.ParseMappingAccepts | 2023/day05/src/main.rs:51-69 | a mapping line is accepted exactly when it has three tokens and each parses as a u64; the mapping then takes the range from the second number, of the third's length, to the first |
| Almanac.MappingLinesExample | 2023/day05/src/main.rs:197-198 | "50 98 2" reads as 98..100 -> 50 and "52 50 48" as 50..98 -> 52 |
| Almanac.MapHeaderAccepted | 2023/day05/src/main.rs:165-176 | every accepted header is "a-to-b map:" with no '-' in a or b, and the result is (a, b) |
| Almanac.MapHeaderOfNames | 2023/day05/src/main.rs:165-176 | every "a-to-b map:" whose names have no '-' is accepted with (a, b) |
| Almanac.MapHeaderExample | 2023/day05/src/main.rs:165-176 | "seed-to-soil map:" gives ("seed", "soil") |
| Almanac.ParseMapHeader | 2023/day05/src/main.rs:165-176 | every refused header is refused with BadHeader |
| Almanac.SoilHeaderExample | 2023/day05/src/main.rs:224 | "soil-to-fertilizer map:" gives ("soil", "fertilizer") |
| Almanac.MapHeaderWithoutHyphens | 2023/day05/src/main.rs:170-173 | "seed to soil map:" is refused |
| Almanac.ReadSeeds | 2023/day05/src/main.rs:109-123 | the loop pushing the numbers after "seeds: " computes the seeds-line reading |
| Almanac.SeedListOfSeeds | 2023/day05/src/main.rs:109-123 | "seeds: " followed by any list of u64 numbers, the empty list included, reads back as that list in order |
| Almanac.SeedList | 2023/day05/src/main.rs:109-123 | a refused seeds line is refused with BadSeeds; an accepted one starts with "seeds: " and gives one seed per token after it |
| Almanac.SeedListAccepts | 2023/day05/src/main.rs:109-123 | the seeds line is accepted exactly when it starts with "seeds: " and every token after that parses as a u64, and seed i is the value of token i |
| Almanac.SeedListExample | 2023/day05/src/main.rs:186 | "seeds: 1 2 3" gives 1, 2, 3 |
| Almanac.SeedListShortExamples | 2023/day05/src/main.rs:187-188 | "seeds: 1" gives 1 and "seeds: " gives no seeds |
| Almanac.SeedListRefusals | 2023/day05/src/main.rs:189-190 | "seeds: a" and "seeds: 1 a" are refused |
| Almanac.BlockEnd | 2023/day05/src/main.rs:145-149 | a block's mapping lines run up to the first blank line or the end of the input, and none of them is blank |
| Almanac.ParseMappings | 2023/day05/src/main.rs:145-155 | a block of mapping lines that fails to parse fails with BadMapping |
| Almanac.ParseMappingsEach | 2023/day05/src/main.rs:145-155 | a parsed block has one mapping per line, each the parse of its own line, in order |
| Almanac.ParseMappingsAllParse | 2023/day05/src/main.rs:145-155 | a block whose every line parses is accepted |
| Almanac.ParseMappingsKeepsError | 2023/day05/src/main.rs:152-154 | a failing line fails the whole block, whatever follows it |
| Almanac.MapBlock | 2023/day05/src/main.rs:136-161 | there is no map exactly when reading is at the end of the input; a failure is a bad header or a bad mapping line; reading a block moves strictly forward and stays within the input |
| Almanac.MapBody | 2023/day05/src/main.rs:144-160 | a failure is a bad mapping line; a block's body ends within the input |
| Almanac.MapBodyAccepts | 2023/day05/src/main.rs:144-160 | the body is read exactly when every line before the first blank line (or the end) is a mapping line; the map then has the header's names and one mapping per line, each that line's parse, in order; reading resumes after the blank line, or at the end of the input when there is none |
| Almanac.MapBodyOfTwoLines | 2023/day05/src/main.rs:144-160 | two parsed mapping lines closed by a blank line make a map of those two mappings, and reading resumes after the blank line |
| Almanac.MapBodyOfThreeLines | 2023/day05/src/main.rs:144-160 | the same for three mapping lines |
| Almanac.MapBlockOf | 2023/day05/src/main.rs:136-161 | a block is the map of its header's names and its body, and reading resumes where the body ends |
| Almanac.ReadMapExample | 2023/day05/src/main.rs:194-214 | the header "seed-to-soil map:", "50 98 2", "52 50 48" and a blank line read as the seed-to-soil map with ranges 98..100 -> 50 and 50..98 -> 52, in that order, and reading resumes after the blank line |
| Almanac.ReadMappings | 2023/day05/src/main.rs:144-155 | the loop pushing mappings until a blank line computes the parse of the lines up to the block end |
| Almanac.ReadMapBody | 2023/day05/src/main.rs:144-160 | the body reader computes the block body's specification |
| Almanac.ReadMap | 2023/day05/src/main.rs:136-161 | read_map returns nothing at end of input, the header error for a bad header, otherwise the block's map and the next position |
| Almanac.Index | 2023/day05/src/main.rs:128-130 | the table's keys are exactly the blocks' sources, and each key holds a map with that source |
| Almanac.IndexKeepsLast | 2023/day05/src/main.rs:128-130 | a block whose source no later block repeats is the map stored under that source, so a later block replaces an earlier one |
| Almanac.ReadAllMaps | 2023/day05/src/main.rs:126-133 | the loop inserting maps computes the table of all blocks keyed by source, or the first block's error |
| Almanac.MapBlocksOfTwo | 2023/day05/src/main.rs:126-133 | a block followed by a block that ends the input read as those two maps, in order |
| Almanac.AllMapsExample | 2023/day05/src/main.rs:218-262 | the read_all_maps test lines read as the seed-to-soil and soil-to-fertilizer maps, and the table holds exactly those two, under "seed" and "soil" |
| Almanac.ExampleRoute | 2023/day05/src/main.rs:289-320 | in the maps of the walk test, the walk from "seed" takes the seven maps in order and its last map leads to "location" |
| Almanac.ApplySeven | 2023/day05/src/main.rs:26-34 | applying seven maps is the seven lookups one after the other |
| Almanac.ApplyExamples | 2023/day05/src/main.rs:324-327 | through the seven maps of the walk test, seeds 79, 14, 55 and 13 reach 82, 43, 86 and 35 |
| Almanac.WalkExample | 2023/day05/src/main.rs:324-327 | lookup_seed_location on the walk test's maps gives locations 82, 43, 86 and 35 for seeds 79, 14, 55 and 13 |
| Scratchcards.Elements | 2023/day04/src/main.rs:59-61 | the set holds exactly the numbers of the list |
| Scratchcards.NumberList | 2023/day04/src/main.rs:47-57 | the list is read exactly when every whitespace token parses as a u32, and then it holds one value per token, the value of that token, in order |
| Scratchcards.ParseNumberList | 2023/day04/src/main.rs:47-57 | the loop pushing parsed tokens computes the number-list reading: every token as a u32 in order, or failure |
| Scratchcards.ParseNumberSet | 2023/day04/src/main.rs:59-61 | the set succeeds exactly when the list does and holds exactly its numbers |
| Scratchcards.ParseCard | 2023/day04/src/main.rs:18-32 | a line shorter than 10 characters fails with MissingPrefix; one with no '\|' after those 10 fails with MissingBar; these are the only lines that fail that way |
| Scratchcards.ParseCardAccepts | 2023/day04/src/main.rs:23-32 | past the prefix, with the text cut at its first '\|', the card is read exactly when both sides are u32 number lists, and is then the set of the winning numbers and the list of the held ones; otherwise the error is BadNumber |
| Scratchcards.ReadCard | 2023/day04/src/main.rs:18-32 | the card reader computes the card parse |
| Scratchcards.MatchCount | 2023/day04/src/main.rs:34-39 | the count is at most the held numbers; 0 exactly when none is winning; all of them exactly when each is winning |
| Scratchcards.CountMatches | 2023/day04/src/main.rs:34-39 | the loop incrementing matches computes the match count |
| Scratchcards.MatchCountAppend | 2023/day04/src/main.rs:34-39 | the count of held numbers split in two is the sum of the counts of the parts |
| Scratchcards.MatchCountPermutation | 2023/day04/src/main.rs:34-39 | the count depends only on the multiset of held numbers, not their order |
| Scratchcards.Score | 2023/day04/src/main.rs:40-44 | the score is 0 exactly when there are no matches, 1 for one match, and doubles with each further match |
| Scratchcards.ProcessCard | 2023/day04/src/main.rs:18-45 | a card's result is its parse error, or the score of its match count |
| Scratchcards.CardLineRoundTrip | 2023/day04/src/main.rs:18-32 | a 10-character prefix, winning numbers, " \| " and held numbers parse back to the set of winning numbers and the held list |
| Scratchcards.MatchExamples | 2023/day04/src/main.rs:69-72 | the four test cards have 0, 1, 3 and 1 matches, and 3 matches score 4 |
| Scratchcards.CardThreeExample | 2023/day04/src/main.rs:71 | the line "Card   3: 1 2 3 \| 1 1 1" reads as winning {1, 2, 3} and held 1, 1, 1, and is worth 4 points, the result of process_card |
| ScratchcardCopies.ProcessCard | 2023/day04-part2/src/main.rs:38-61 | part two's card reader returns the card's match count or its parse error |
| ScratchcardCopies.CardMatches | 2023/day04-part2/src/main.rs:38-61 | a card fails exactly when its line does not parse, with the parse error; otherwise its match count is at most the numbers held |
| ScratchcardCopies.AllMatchesKeepsError | 2023/day04-part2/src/main.rs:23 | a card that fails to parse fails every longer input |
| ScratchcardCopies.AllMatchesNext | 2023/day04-part2/src/main.rs:18-23 | one more card line either ends the whole reading with its error or appends its match count |
| ScratchcardCopies.Reach | 2023/day04-part2/src/main.rs:20-22 | entry k comes to exist by pushing a 1 when it is one past the end, and nothing else changes |
| ScratchcardCopies.WinNext | 2023/day04-part2/src/main.rs:25-30 | after card i wins m cards the vector reaches at least entry i+m |
| ScratchcardCopies.WinNextSpec | 2023/day04-part2/src/main.rs:25-30 | entries i+1..i+m grow by the copies of card i (new ones start at 1), and every other entry is unchanged |
| ScratchcardCopies.CountsAfter | 2023/day04-part2/src/main.rs:17-31 | the vector is never empty, covers every card, and covers every index a card's matches reach |
| ScratchcardCopies.CountsAfterLength | 2023/day04-part2/src/main.rs:17-31 | the vector is no longer than that: its length is 1, the number of cards, or one past the last card some card wins, so it is the greatest of these |
| ScratchcardCopies.CountsAfterNext | 2023/day04-part2/src/main.rs:19-30 | pushing a 1 when the card's entry is missing, then letting the card win copies, gives the vector after one more card |
| ScratchcardCopies.WinCopies | 2023/day04-part2/src/main.rs:25-30 | the inner loop computes the wins of card i: it only ever writes in bounds, at most one past the end after a push |
| ScratchcardCopies.ProcessAllCards | 2023/day04-part2/src/main.rs:16-35 | process_all_cards returns the first card error or the sum of the copy-count vector; the bounds assert holds on every card |
| ScratchcardCopies.Copies | 2023/day04-part2/src/main.rs:17-30 | every card, even one past the last, is held at least once |
| ScratchcardCopies.CountsAreCopies | 2023/day04-part2/src/main.rs:16-31 | each entry of the vector is 1 plus, over every earlier card whose matches reach it, the copies of that card |
| ScratchcardCopies.TotalAtLeastCards | 2023/day04-part2/src/main.rs:17-32 | every entry is at least 1, so the total is at least the number of cards and never 0 |
| ScratchcardCopies.TotalCards | 2023/day04-part2/src/main.rs:16-35 | a successful total is at least the number of cards and at least 1 |
| ScratchcardCopies.EmptyInput | 2023/day04-part2/src/main.rs:17-32 | no cards at all answer 1 |
| ScratchcardCopies.FiveCardsExample | 2023/day04-part2/src/main.rs:94-104 | cards with 3, 1, 0, 0, 0 matches end with 1, 2, 4, 2, 1 copies, 10 in all |
| ScratchcardCopies.SixCardsExample | 2023/day04-part2/src/main.rs:107-118 | cards with 4, 2, 2, 1, 0, 0 matches end with 1, 2, 4, 8, 14, 1 copies, 30 in all |
| BoatRace.DistanceSymmetric | 2023/day06/src/main.rs:105-111 | holding for h or for time-h travels the same distance, so both win or neither does |
| BoatRace.Distance | 2023/day06/src/main.rs:105-111 | the distance is 0 exactly when the button is held for no time or for the whole race |
| BoatRace.EndsNeverWin | 2023/day06/src/main.rs:105-111 | holding for 0 or for the whole race travels 0 and never wins |
| BoatRace.WinsBetween | 2023/day06/src/main.rs:60-66 | every hold between two winning holds wins (the distance is concave) |
| BoatRace.WinnersAreInterval | 2023/day06/src/main.rs:60-66 | when the least and greatest winners of a range are known, the winners are exactly the holds between them, max - min + 1 of them |
| BoatRace.FindFirstWinningRaceIter | 2023/day06/src/main.rs:81-91 | the search fails exactly when no hold in the order given wins, and otherwise returns a winning hold from that order, the first one |
| BoatRace.FindMinimumWinningRace | 2023/day06/src/main.rs:69-72 | ascending from 1 below the end: fails exactly when none wins, otherwise returns the least winner |
| BoatRace.FindMaximumWinningRace | 2023/day06/src/main.rs:75-78 | descending from the end: fails exactly when none wins, otherwise returns the greatest winner |
| BoatRace.CountWinningHoldsBelow | 2023/day06/src/main.rs:61-66 | max - min + 1 is the number of winners from 1 below the end (and min <= max), or NoWin when there are none |
| BoatRace.FindNumberOfWinningHoldTimes | 2023/day06/src/main.rs:61-78 | as written: the count is that of the winners among holds 1 to time-2 only |
| BoatRace.CountWinningHoldTimes | 2023/day06/src/main.rs:61-78 | corrected range: the count is the number of all winning holds, an error exactly when there is none |
| BoatRace.AsWrittenCountsAllWhenFirstHoldLoses | 2023/day06/src/main.rs:70 | when hold 1 loses, the scanned range 1 to time-2 holds every winner |
| BoatRace.AsWrittenMissesLastHold | 2023/day06/src/main.rs:70 | when hold 1 wins, so does time-1, which the scan skips: the as-written count is one short |
| BoatRace.AsWrittenMissesHoldTwo | 2023/day06/src/main.rs:70 | time 3, record 1: holds 1 and 2 both win, the scan sees only 1 |
| BoatRace.AsWrittenMissesOnlyWinner | 2023/day06/src/main.rs:70 | time 2, record 0: hold 1 wins, the scan sees no hold at all |
| BoatRace.TrimLinePrefix | 2023/day06/src/main.rs:52-58 | succeeds exactly when the line starts with the prefix, with the line being prefix + result; otherwise MissingPrefix |
| BoatRace.RaceTexts | 2023/day06/src/main.rs:24-32 | the two texts are read exactly when there are two lines starting "Time: " and "Distance: "; no line is MissingTimeLine, one time line alone is MissingDistanceLine, a line without its prefix is MissingPrefix; the texts are what follows the prefixes, trimmed |
| BoatRace.RaceNumbers | 2023/day06/src/main.rs:34-49 | the races pair the u32 values of the time tokens and the distance tokens position by position, one race per token; CountMismatch only when the two token counts differ |
| BoatRace.Races | 2023/day06/src/main.rs:24-50 | races are read only from two lines carrying both prefixes, and every time and record is below 2^32 |
| BoatRace.PairRaces | 2023/day06/src/main.rs:45-49 | race i pairs time i with distance i, one race per time |
| BoatRace.RaceNumbersAccepts | 2023/day06/src/main.rs:34-49 | the numbers are read exactly when every token on both lines is a u32 and the two lines hold equally many; BadNumber exactly when some token on either line is not a u32 |
| BoatRace.ReadRaceNumbers | 2023/day06/src/main.rs:34-49 | the number reader computes the parse of both lines, the count check and the pairing |
| BoatRace.ReadRaces | 2023/day06/src/main.rs:24-50 | read_races computes the race-list reading of the lines |
| BoatRace.RacesRoundTrip | 2023/day06/src/main.rs:24-50 | lines "Time: " and "Distance: " followed by equally many u32 numbers read back as the races pairing them in order |
| BoatRace.RacesCountMismatch | 2023/day06/src/main.rs:37-43 | lines with different numbers of times and distances are refused with CountMismatch |
| BoatRaceKerning.RemoveSpacesUnwords | 2023/day06-part2/src/main.rs:29-30 | deleting the spaces of words joined by spaces runs the words together |
| BoatRaceKerning.KernedDigits | 2023/day06-part2/src/main.rs:29-30 | the run-together numbers are all digits and their value is the kerned number |
| BoatRaceKerning.KernedText | 2023/day06-part2/src/main.rs:29-30 | a line of numbers without its spaces parses as the kerned number when it fits in 64 bits |
| BoatRaceKerning.KernedRoundTrip | 2023/day06-part2/src/main.rs:19-33 | the two lines read as one race of the kerned time and kerned record |
| BoatRaceKerning.KernedRace | 2023/day06-part2/src/main.rs:29-32 | the race is read exactly when both texts, spaces deleted, parse as u64 numbers, and then it is those two numbers; otherwise BadNumber |
| BoatRaceKerning.RaceOfLines | 2023/day06-part2/src/main.rs:19-33 | a race is read only from two lines starting "Time: " and "Distance: ", with time and record below 2^64; no line is MissingTimeLine, a time line alone MissingDistanceLine |
| BoatRaceKerning.EmptyLineRefused | 2023/day06-part2/src/main.rs:29-30 | a time line with no number is refused with BadNumber |
| BoatRaceKerning.KernedTimesExample | 2023/day06-part2/src/main.rs:29-30 | 7, 15 and 30 run together as 71530 |
| BoatRaceKerning.KernedDistancesExample | 2023/day06-part2/src/main.rs:29-30 | 9, 40 and 200 run together as 940200 |
| Calibration.FirstDigitIsFirst | 2023/day01/src/main.rs:27-32 | no digit is found exactly when the line has none; otherwise the result is the value of a digit no other digit precedes |
| Calibration.FindFirstDigit | 2023/day01/src/main.rs:27-32 | a digit found is below 10, and nothing is found only in a line without an ASCII digit |
| Calibration.LastDigitIsLast | 2023/day01/src/main.rs:35-41 | no digit is found exactly when the line has none; otherwise the result is the value of a digit no other digit follows |
| Calibration.FindLastDigit | 2023/day01/src/main.rs:35-41 | a digit found is below 10, and nothing is found only in a line without an ASCII digit |
| Calibration.FirstAndLastAgree | 2023/day01/src/main.rs:20-21 | a first digit exists exactly when a last one does, so the unwrap never fails |
| Calibration.CalibrationValue | 2023/day01/src/main.rs:19-24 | the line fails exactly when it has no digit, and the value is at most 99 |
| Calibration.ParseCalibrationLine | 2023/day01/src/main.rs:19-24 | the value's tens digit is the first digit found and its units digit the last; the only failure is NoDigits, for a line without an ASCII digit |
| Calibration.SingleDigit | 2023/day01/src/main.rs:19-24 | a line whose only digit is d is worth 11 * d |
| Calibration.CalibrationExamples | 2023/day01/src/main.rs:19-24 | "1abc2" is worth 12, "treb7uchet" 77, and "abc" fails |
| CalibrationSpelled.NamesExclusive | 2023/day01-part2/src/main.rs:50 | no text starts with two different digit names |
| CalibrationSpelled.NameFromSpec | 2023/day01-part2/src/main.rs:58-64 | the name loop finds a name exactly when one of the names it tries starts the text, and what it finds starts the text |
| CalibrationSpelled.DigitAtSpec | 2023/day01-part2/src/main.rs:49-65 | a leading ASCII digit gives its value; otherwise a digit is found exactly when some name starts the text, and it is that name's index |
| CalibrationSpelled.DigitAt | 2023/day01-part2/src/main.rs:49-65 | the digit read at the start of a text is below 10 (DigitAtSpec says which digit) |
| CalibrationSpelled.FirstDigitFrom | 2023/day01-part2/src/main.rs:27-35 | the digit the upward scan finds is below 10 (FirstDigitNone and FirstDigitIsFirst say which) |
| CalibrationSpelled.LastDigitBelow | 2023/day01-part2/src/main.rs:38-46 | the digit the downward scan finds is below 10 (LastDigitNone and LastDigitIsLast say which) |
| CalibrationSpelled.ParseStartsWithDigit | 2023/day01-part2/src/main.rs:49-65 | the method with its name loop computes the digit read at the start of the text |
| CalibrationSpelled.FindFirstDigit | 2023/day01-part2/src/main.rs:27-35 | the ascending loop computes the upward scan |
| CalibrationSpelled.FindLastDigit | 2023/day01-part2/src/main.rs:38-46 | the descending loop computes the downward scan |
| CalibrationSpelled.FirstDigitNone | 2023/day01-part2/src/main.rs:27-35 | the upward scan finds nothing exactly when no digit starts at any position it tries |
| CalibrationSpelled.FirstDigitIsFirst | 2023/day01-part2/src/main.rs:27-35 | what the upward scan finds is the digit starting at some position k, and no digit starts before k |
| CalibrationSpelled.LastDigitNone | 2023/day01-part2/src/main.rs:38-46 | the downward scan finds nothing exactly when no digit starts below its start |
| CalibrationSpelled.LastDigitIsLast | 2023/day01-part2/src/main.rs:38-46 | what the downward scan finds is the digit starting at some position k, and no digit starts after k |
| CalibrationSpelled.FirstAndLastAgree | 2023/day01-part2/src/main.rs:20-21 | a first digit exists exactly when a last one does, so the unwrap never fails |
| CalibrationSpelled.ParseCalibrationLine | 2023/day01-part2/src/main.rs:19-24 | fails exactly when no digit starts anywhere; otherwise ten times the first digit plus the last, at most 99 |
| CalibrationSpelled.SixNineFirstExample | 2023/day01-part2/src/main.rs:81 | the first digit of "sixnine" is 6 |
| CalibrationSpelled.SixNineLastExample | 2023/day01-part2/src/main.rs:96 | the last digit of "sixnine" is 9 |
| CalibrationSpelled.FourTwentyExample | 2023/day01-part2/src/main.rs:83 | the first digit of "four20" is 4 |
| CalibrationSpelled.FortyTwoZeroExample | 2023/day01-part2/src/main.rs:98 | the last digit of "42zero" is 0 |
| CalibrationSpelled.NoDigitExamples | 2023/day01-part2/src/main.rs:75-76 | "" and "foo" have no digit |

## Left out

- Every `main`: reading standard input, the `io::Result` unwraps, the check for the blank line after the seeds, printing, and the running sum or product. The model starts from the sequence of lines.
- Error messages: each error is a tag of an `Error` datatype; the text and context of the messages are not modelled.
- Rust's integer parsing is modelled as an optional '+' followed by ASCII digits whose value is below 2^32 or 2^64. That is what `str::parse` accepts for unsigned types.
- Text is modelled as sequences of characters and assumed to be ASCII, so byte offsets (`&line[10..]`, `&line[i..]`) are character offsets.
- `HashMap` and `HashSet` are Dafny `map` and `set`; their iteration order and hashing are not modelled.
- Almanac.ParseMapping: the sum `source_start + length` is not checked for overflow of 64 bits; the range end is unbounded.
- Almanac.Lookup: `destination_start + offset` is not checked for overflow of 64 bits.
- Almanac.LookupSeedLocation: the source has no guard against maps that form a cycle, so its loop need not end. The model takes a ghost bound on the number of hops that its caller must show sufficient; the walk never fails for that reason.
- Almanac.FindSeedWithSmallestLocation: it walks every seed the same way, so it carries the same hop bound as a precondition; maps that form a cycle are not modelled there either.
- Scratchcards.Score: `1 << (matches - 1)` is modelled as an unbounded power of two; a shift of 32 or more, which would overflow a u32, is not modelled.
- ScratchcardCopies.ProcessAllCards: the card counts and their sum are unbounded; the 32-bit overflow is not modelled.
- BoatRace.Distance: `(time - hold) * hold` is unbounded; the overflow of 32 (part one) or 64 (part two) bits is not modelled.
- BoatRace.FindNumberOfWinningHoldTimes: requires a time of at least 1, because `race.time - 1` underflows for a time of 0.
- BoatRace.FindFirstWinningRaceIter: the iterator is modelled as the finite sequence of holds it yields.
- Calibration.ParseCalibrationLine: the result is a `u32` in the source; since it is at most 99 no width is modelled.

## Findings

| source | as written | input that shows it | evidently intended | confidence | as-written member | corrected member |
|---|---|---|---|---|---|---|
| 2023/day06/src/main.rs:70 | the minimum and maximum searches scan `1..race.time - 1`, holds 1 to time-2, so hold time-1 is never tried (the same in 2023/day06-part2/src/main.rs:53) | time 3, record 1: holds 1 and 2 both travel 2, the answer is 1 instead of 2; time 2, record 0: hold 1 travels 1, yet the answer is "no way to win" | count every hold that wins, 1 to time-1 | not executed | BoatRace.AsWrittenMissesHoldTwo | BoatRace.CountWinningHoldTimes |
