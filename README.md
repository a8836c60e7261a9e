# Steam play-profile aggregation and classifier, in Dafny

This project models the core of a small web service that profiles one Steam
player's play behaviour. There are two parts:

- **Aggregation** (module `Aggregation`). The player's owned games are reduced
  to a few summary figures:
  - total hours: the sum of `playtime_forever` in minutes, divided by 60 and
    rounded to one decimal;
  - the number of games with a positive playtime;
  - a per-game achievement breakdown;
  - an overall completion percentage, weighted by achievement count.

  Each game carries the results of its two achievement lookups, the schema and
  the player's achievement list. Absent or empty data means the game is
  skipped. For every game with data, one breakdown entry is appended, in
  place, to a list the caller supplies.
- **Classifier** (module `Classifier`). This is a pure function of the summary
  and the breakdown. It runs four independent decision tables and joins their
  one-letter codes into a four-character type code:
  - progression: `C` / `F` / `-`;
  - challenge: `S` / `M` / `E` / `-`;
  - social: `T` / `C` / `L`, plus a dead `-` branch;
  - rhythm: `H` / `B` / `D`.

How numbers are represented:

- Percentages are integers in hundredths of a percent (8000 means 80.00%).
- Hours are in tenths of an hour.
- Scores are in tenths (7 means 0.7).
- Python's `round(x, k)` is modelled by `Rounding.RoundDiv`, which rounds the
  exact quotient to the nearest unit with ties to the even neighbour. Every
  threshold test is applied to the rounded value, as in the source.

Helper modules:

- `Wrappers`: `Option` and `Result`.
- `Text`: the case-sensitive substring test behind Python's `k in s`, and
  decimal rendering of an appid for the default name `"App <appid>"`.

One place where the code does not do what is intended, and one assumption it
makes about its data:

- Axis 1 is meant to read an absent overall completion as 0%. The code compares
  `None < 30` at main.py:169, which raises `TypeError`.
  `Classifier.ProgressionAsWritten` models that behaviour.
  `Classifier.Progression` is the corrected version, and `Classify` uses it
  (see Findings).
- The code takes for granted that an entry's unlocked count never exceeds its
  total, but it never checks this. The unlocked count is the sum of the flags
  the player-achievement lookup returns, and the total is the length of the
  schema; nothing ties the two together. The model proves the bound under the
  data-consistency condition `ConsistentUnlocks`, and `UnlockedMayExceedTotal`
  exhibits data without that condition for which the bound fails. This is a
  property of the data the service returns, not a defect of the code, so it
  is not listed under Findings.

## Model

| member | source | states |
|---|---|---|
| `Rounding.RoundDiv` | main.py:101 | the result is within half a unit of n/d; on a tie it is even; a non-negative quotient rounds to a non-negative value |
| `Rounding.RoundDivBounds` | main.py:107 | a quotient between 0 and k rounds to a value between 0 and k |
| `Text.Contains` | main.py:183 | a keyword found in a name is no longer than the name; the empty keyword is found in every name |
| `Text.ContainsIff` | main.py:183 | the substring test holds exactly when the keyword occurs at some position of the name |
| `Text.NatToString` | main.py:86 | the decimal digits of a natural number; the string starts with `0` only when it is `"0"`; reading the digits back gives the number |
| `Text.IntToString` | main.py:86 | the rendering of an appid starts with `-` exactly when the appid is negative; the digits that follow read back as its magnitude, with no leading zero (only `"0"` itself starts with `0`) |
| `Aggregation.Playtime` | main.py:76-77 | a game's playtime is its `playtime_forever`, and 0 when that field is missing |
| `Aggregation.TotalMinutes` | main.py:76 | sum of playtimes, with a missing playtime counting as 0; non-negative when every playtime is |
| `Aggregation.PlayedCount` | main.py:77 | the number of played games never exceeds the number of games |
| `Aggregation.AggregatePlaytimeAndCounts` | main.py:75-78 | total hours are the minute total divided by 60 to the nearest tenth, non-negative for non-negative playtimes; the played count is the number of games with positive playtime, equal to the number of games iff every game was played and 0 iff none was |
| `Aggregation.TotalMinutesConcat` | main.py:76 | the minute total splits over a concatenation of game lists |
| `Aggregation.PlayedCountExtremes` | main.py:77 | the count equals the number of games iff each game has positive playtime; it is 0 iff none has |
| `Aggregation.PlaytimeExample` | main.py:75-78 | games of 90 and 30 minutes give 2.0 hours and 2 played games |
| `Aggregation.AchievedByName` | main.py:71 | the dict built from the list is empty exactly when the list is |
| `Aggregation.AchievedByNameKeys` | main.py:71 | the dict's keys are exactly the API names in the list |
| `Aggregation.AchievedByNameValues` | main.py:71 | every value is the flag of some list element with that name |
| `Aggregation.AchievedByNameLastWins` | main.py:71 | for a repeated name, the last element with that name decides its flag |
| `Aggregation.UnlockMap` | main.py:68-71 | `None` iff the list is missing or empty; otherwise a non-empty dict built from the list |
| `Aggregation.SumOver` | main.py:93 | a sum of the map's values over a set of keys is non-negative when those values are |
| `Aggregation.SumValues` | main.py:93 | `sum(player.values())` is non-negative when every flag is |
| `Aggregation.SumOverRemove` | main.py:93 | the sum of the map's values does not depend on the order in which keys are taken |
| `Aggregation.SumOverFlags` | main.py:93 | with 0/1 flags the sum lies between 0 and the number of keys |
| `Aggregation.SumFlags` | main.py:93 | the loop returns the sum of all values of the unlock map |
| `Aggregation.DisplayName` | main.py:86 | a game's own name when it has one; otherwise `App ` followed by exactly `Text.IntToString` of its appid |
| `Aggregation.PercentNearest` | main.py:101 | the entry percentage is unlocked / total x 100 to the nearest hundredth; it lies in [0, 100] when 0 <= unlocked <= total |
| `Aggregation.EntryOf` | main.py:85-101 | a game yields an entry iff its schema and achievement list are both present and non-empty; the entry is the record built by `MakeEntry` (main.py:96-101): the appid, the default-filled name, the schema length as total (which is > 0), the sum of the flags as unlocked, and `Percent(unlocked, total)` |
| `Aggregation.Breakdown` | main.py:84-102 | the breakdown never has more entries than there are games |
| `Aggregation.BreakdownConcat` | main.py:84-102 | the breakdown of a concatenation is the concatenation of the breakdowns, so entries follow the games' order |
| `Aggregation.BreakdownAtMostOnePerGame` | main.py:84-102 | never more entries than games; the multiset of entry appids is included in the multiset of game appids (at most one entry per title) |
| `Aggregation.BreakdownEntries` | main.py:90-101 | every entry has total > 0, its percentage is unlocked/total rounded to hundredths, and it is the entry of one of the games |
| `Aggregation.UnlockedWithinTotal` | main.py:92-101 | if every unlocked name is defined by the schema and every flag is 0/1, then 0 <= unlocked <= total and the percentage is in [0, 100] |
| `Aggregation.UnlockedMayExceedTotal` | main.py:92-101 | without that condition, one defined achievement and two unlocked names give 2 of 1 (200%) |
| `Aggregation.SumTotalZeroIff` | main.py:105-106 | with a positive total in every entry, the achievement total is 0 only when there are no entries |
| `Aggregation.SumsOrdered` | main.py:94-95 | with 0 <= unlocked <= total in every entry, the unlocked total lies between 0 and the achievement total |
| `Aggregation.SumsConcat` | main.py:94-95 | both running totals add over a concatenation of entry lists |
| `Aggregation.SumsPermutation` | main.py:94-95 | both running totals are the same for any rearrangement of the entries |
| `Aggregation.OverallOf` | main.py:105-107 | `None` iff no achievements were counted; otherwise within half a hundredth of 100 x total unlocked / total achievements |
| `Aggregation.OverallOrderIndependent` | main.py:94-107 | two entry lists with the same multiset of entries give the same overall completion |
| `Aggregation.BreakdownPermutation` | main.py:84-102 | rearranging the games rearranges their breakdown: both give the same multiset of entries |
| `Aggregation.OverallGamesOrderIndependent` | main.py:84-107 | rearranging the games leaves the overall completion unchanged |
| `Aggregation.OverallNoneIffNoEntries` | main.py:105-106 | the overall completion is absent iff no game contributed an entry |
| `Aggregation.OverallBounds` | main.py:107 | with 0 <= unlocked <= total in every entry, the overall completion is in [0, 100] |
| `Aggregation.WeightedNotMean` | main.py:94-107 | entries (1 of 10) and (1 of 2) give 16.67%, not the per-title mean of 30% |
| `Aggregation.BreakdownList.constructor` | main.py:114 | the output list starts empty |
| `Aggregation.BreakdownList.Append` | main.py:96-102 | appending adds exactly one entry at the end |
| `Aggregation.CompletionPercentage` | main.py:80-107 | the caller's list becomes its old contents followed by the breakdown of the games (append-only); the result is the weighted overall completion of the appended entries |
| `Aggregation.GatherPlayerStats` | main.py:109-124 | the summary holds the fetched name and level, the rounded hours, the played count and the overall completion; the fresh list holds the breakdown |
| `Classifier.CountIf` | main.py:162 | a count of breakdown entries never exceeds the number of entries |
| `Classifier.CountIfPositions` | main.py:162 | the count equals the number of positions whose entry passes the test |
| `Classifier.CountIfConcat` | main.py:230 | counts add over a concatenation of entry lists |
| `Classifier.CountIfImplies` | main.py:162 | a test that implies another never passes more entries than the other |
| `Classifier.CountIfPermutation` | main.py:162 | a count does not depend on the order of the entries |
| `Classifier.HighAtMostRegular` | main.py:162 | there are never more entries at 80% or more than entries above 30% |
| `Classifier.IsHighCompletion` | main.py:162 | an entry at 80% or more is also an entry of regular play (above 30%) |
| `Classifier.IsRegularPlay` | main.py:230 | an entry above 30% also clears the 20% gate of the challenge axis |
| `Classifier.RegularStoryWins` | main.py:183-190 | an entry above 30% from a story title gives `S` with the story reason |
| `Classifier.MatchesAny` | main.py:183-185 | a name matches a keyword list iff some keyword of the list occurs in the name at some position |
| `Classifier.MatchesAnyConcat` | main.py:183-185 | a name matches the union of two keyword lists iff it matches one of them |
| `Classifier.Signal` | main.py:183-185 | the outer `any` over the entries (also main.py:208-209): a signal holds iff some keyword occurs at some position in the name of some entry whose completion is above the gate; an empty keyword list gives no signal |
| `Classifier.SignalConcat` | main.py:183-185 | a signal over two entry lists joined holds iff it holds over one of them |
| `Classifier.SignalOrderIndependent` | main.py:183-185 | a signal does not depend on the order of the entries |
| `Classifier.ProgressionAsWritten` | main.py:162-176 | as written, axis 1 fails iff the overall completion is absent and fewer than three entries reach 80%; otherwise it gives `C`, `F` or `-` |
| `Classifier.Progression` | main.py:162-176 | the corrected axis 1: `C` with 1.0 and the high-completion count as reason iff at least three entries reach 80%; otherwise `F` with 0.3 iff the overall completion (absent read as 0) is below 30%, and `-` with 0.5 iff it is 30% or more, both with that completion as reason |
| `Classifier.AsWrittenRaisesOnlyWithoutData` | main.py:163-169 | on aggregated data, the as-written axis 1 fails iff no game contributed an entry |
| `Classifier.ProgressionRefinesAsWritten` | main.py:165-176 | where the as-written axis succeeds, the corrected one agrees with it; where it fails, the corrected one gives `F` |
| `Classifier.ProgressionThreeHigh` | main.py:162-168 | three distinct entries at 80% or more give `C` with score 1.0, whatever the overall completion |
| `Classifier.Challenge` | main.py:183-202 | axis 2: `S` iff a story title is above 20%; `M` iff none is but a skill title is; `E` iff neither is but an exploration title is; each code with its own fixed reason; score 0.6 for these three and 0.3 for `-` |
| `Classifier.StoryWins` | main.py:183-190 | one story title above 20% gives `S`, whatever else is present (story has the highest priority) |
| `Classifier.ChallengeUndeterminedIff` | main.py:183-202 | `-` iff no entry above 20% matches any of the three keyword lists |
| `Classifier.ChallengeMonotone` | main.py:187-202 | more breakdown entries never lower the priority S > M > E > `-` |
| `Classifier.Social` | main.py:208-227 | axis 3: `T` with 0.7 iff a cooperative title is above 10%; `C` with 0.6 iff none is but a competitive title is above 5%; otherwise `L` with 0.2, or `-` with 0.3; each code with its own fixed reason |
| `Classifier.SocialNeverUndetermined` | main.py:210-227 | the `-` branch is unreachable: the code is always `T`, `C` or `L` |
| `Classifier.SocialLonerIff` | main.py:208-223 | `L` iff no cooperative title is above 10% and no competitive title is above 5% |
| `Classifier.SocialMonotone` | main.py:212-223 | more breakdown entries never lower the priority T > C > L |
| `Classifier.Rhythm` | main.py:230-243 | axis 4: `H` with 1.0 iff more than 2000 hours and at least five entries above 30%; otherwise `B` with 0.7 iff more than 500 hours, and `D` with 0.3 iff 500 hours or fewer; the reason carries the hours and the regular-play count for `H`, the hours for `B` |
| `Classifier.RhythmMonotone` | main.py:232-243 | more hours or more entries never lower the level H > B > D |
| `Classifier.RhythmExamples` | main.py:230-243 | 2500 hours with six entries above 30% give `H`; with two entries they give `B` |
| `Classifier.ClassifyOrderIndependent` | main.py:161-256 | two breakdowns holding the same entries in different orders give the same profile |
| `Classifier.Classify` | main.py:245-256 | the four axes are the decision tables applied to the summary's completion and hours and to the breakdown; the type code is their four codes in order, drawn from `CF-`, `SME-`, `TCL`, `HBD`; every score is in (0, 1] |

## Left out

- Network calls are not modelled.
  - `steam_get` (main.py:31-40) and the wrappers `get_player_name`, `get_steam_level` and `get_owned_games` (main.py:42-55) are HTTP I/O. They return a value or raise: `SteamAPIError` from line 40, an exception of the `requests` library from line 35 (outside the `try`), or `KeyError`/`IndexError` from the subscripts at lines 44, 48 and 55.
  - `GatherPlayerStats` takes the fetched name, level and game list as parameters. The abort on a failed identity or ownership lookup is not modelled.
- The achievement lookups `get_achievement_schema` and `get_player_achievements` (main.py:57-73) swallow every exception and return `None`.
  - Each `Game` carries their result directly. A failed lookup is `None`.
  - A list element without `apiname` or `achieved` raises `KeyError`, which the code also maps to `None`. The model's elements always have both fields.
  - From the schema the code uses only the length. The model keeps the definitions as a list of names.
- A game without `appid` raises `KeyError` at main.py:85, and nothing catches it. In the model, `appid` is a required field.
- `time.sleep(0.3)` and the `print` tracing lines are left out. They pace and log, and have no effect on results.
- Binary floating point is not modelled.
  - `round` works on binary floats. The model rounds the exact rational `unlocked / total * 100` half-to-even to hundredths, and hours to tenths.
  - Where the float product lands on the other side of a rounding boundary, Python may differ by one unit in the last place.
- Reason strings are not modelled as text. Five of them interpolate numbers, whose rendering depends on Python's formatting: the count of high-completion games at main.py:167, the overall completion (a float) at main.py:171 and 175, the hours (a float) and the count of regular games at main.py:234, and the hours at main.py:238.
  - `Reason` records which branch was taken, together with the numbers the text would show.
  - Scores are integers in tenths.
- The route handlers `get_achievements` and `get_datas` (main.py:127-152) are left out. So are the async client contexts and the CORS, dotenv and session setup (main.py:3-26). These are web plumbing.
- Concurrency and ordering of lookups are not modelled. The source loop is sequential, and so is the model.

## Findings

| source | as written | input that shows it | evidently intended | confidence | as-written member | corrected member |
|---|---|---|---|---|---|---|
| main.py:169 | axis 1 evaluates `avg_completion < 30` when fewer than three entries reach 80%, even if the overall completion is `None`; in Python that comparison raises `TypeError` | a player for whom no game has both an achievement schema and achievement data (for example, owned games that have no achievements): the breakdown is empty and the overall completion is `None` | an absent overall completion counts as 0, so the player gets `F` | not executed | `Classifier.ProgressionAsWritten`, `Classifier.AsWrittenRaisesOnlyWithoutData` | `Classifier.Progression`, `Classifier.ProgressionRefinesAsWritten` |
