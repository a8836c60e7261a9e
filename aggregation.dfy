/** The aggregation engine: reduces a player's owned games, together with the
    achievement lookups made for each game, into summary statistics and a
    per-game achievement breakdown. The remote lookups are inputs: each game
    carries what the schema lookup and the player-achievement lookup returned
    (or `None` when the lookup failed or found nothing). Percentages are in
    hundredths of a percent and hours in tenths of an hour, the precision the
    system rounds them to. */
module Aggregation {
  import opened Wrappers
  import opened Rounding
  import opened Text

  /** One element of a player's achievement list for a game: the achievement's
      API name and its achieved flag (0 or 1 as the service reports it). */
  datatype PlayerAchievement = PlayerAchievement(apiname: string, achieved: int)

  /** An owned game as listed by the ownership lookup, with the results of the
      two achievement lookups made for it. `schema` is the game's list of
      achievement definitions (by name); `achievements` is the player's
      achievement list. Either is `None` when its lookup failed or the field
      was missing. */
  datatype Game = Game(
    appid: int,
    name: Option<string>,
    playtimeForever: Option<int>,
    schema: Option<seq<string>>,
    achievements: Option<seq<PlayerAchievement>>)

  /** One record of the achievement breakdown. `completionPercent` is in
      hundredths of a percent. */
  datatype AchievementEntry = AchievementEntry(
    appid: int,
    name: string,
    totalAchievements: nat,
    unlocked: int,
    completionPercent: int)

  /** The summary statistics. `totalHours` is in tenths of an hour,
      `completionPercent` in hundredths of a percent. */
  datatype Summary = Summary(
    playerName: string,
    steamLevel: int,
    totalHours: int,
    playedGames: nat,
    completionPercent: Option<int>)

  // ---------------------------------------------------------------------------
  // Playtime and played-game count

  /** A game's lifetime playtime in minutes; a missing value counts as 0. */
  function Playtime(g: Game): (m: int)
    ensures g.playtimeForever.None? ==> m == 0
    ensures g.playtimeForever.Some? ==> m == g.playtimeForever.value
  {
    g.playtimeForever.GetOr(0)
  }

  predicate NonNegativePlaytimes(games: seq<Game>) {
    forall i :: 0 <= i < |games| ==> Playtime(games[i]) >= 0
  }

  /** Sum of the playtimes of all games, in minutes. */
  function TotalMinutes(games: seq<Game>): (m: int)
    ensures NonNegativePlaytimes(games) ==> m >= 0
  {
    if games == [] then 0
    else
      assert NonNegativePlaytimes(games) ==> NonNegativePlaytimes(games[1..]) by {
        if NonNegativePlaytimes(games) {
          forall i | 0 <= i < |games[1..]| ensures Playtime(games[1..][i]) >= 0 {
            assert games[1..][i] == games[i + 1];
          }
        }
      }
      Playtime(games[0]) + TotalMinutes(games[1..])
  }

  /** Number of games with a positive playtime. */
  function PlayedCount(games: seq<Game>): (n: nat)
    ensures n <= |games|
  {
    if games == [] then 0
    else (if Playtime(games[0]) > 0 then 1 else 0) + PlayedCount(games[1..])
  }

  /** Total hours (rounded to tenths) and the number of games played. */
  function AggregatePlaytimeAndCounts(games: seq<Game>): (r: (int, nat))
    ensures 2 * (10 * TotalMinutes(games) - r.0 * 60) <= 60 && 2 * (r.0 * 60 - 10 * TotalMinutes(games)) <= 60
    ensures NonNegativePlaytimes(games) ==> r.0 >= 0
    ensures r.1 == PlayedCount(games) && r.1 <= |games|
    ensures r.1 == |games| <==> forall i :: 0 <= i < |games| ==> Playtime(games[i]) > 0
    ensures r.1 == 0 <==> forall i :: 0 <= i < |games| ==> Playtime(games[i]) <= 0
  {
    PlayedCountExtremes(games);
    (RoundDiv(10 * TotalMinutes(games), 60), PlayedCount(games))
  }

  /** The total is a sum: it splits over a concatenation of game lists. */
  lemma {:induction false} TotalMinutesConcat(a: seq<Game>, b: seq<Game>)
    ensures TotalMinutes(a + b) == TotalMinutes(a) + TotalMinutes(b)
  {
    if a == [] {
      assert a + b == b;
    } else {
      assert (a + b)[1..] == a[1..] + b;
      TotalMinutesConcat(a[1..], b);
    }
  }

  /** Every game is counted as played exactly when all games have a positive
      playtime, and none is counted exactly when no game has. */
  lemma {:induction false} PlayedCountExtremes(games: seq<Game>)
    ensures PlayedCount(games) == |games| <==> forall i :: 0 <= i < |games| ==> Playtime(games[i]) > 0
    ensures PlayedCount(games) == 0 <==> forall i :: 0 <= i < |games| ==> Playtime(games[i]) <= 0
  {
    if games != [] {
      PlayedCountExtremes(games[1..]);
      assert forall i :: 0 < i < |games| ==> games[i] == games[1..][i - 1];
    }
  }

  /** Games of 90 and 30 minutes give 2.0 hours and two played games. */
  lemma PlaytimeExample()
    ensures AggregatePlaytimeAndCounts([Game(1, None, Some(90), None, None), Game(2, None, Some(30), None, None)])
            == (20, 2)
  {
    var g1, g2 := Game(1, None, Some(90), None, None), Game(2, None, Some(30), None, None);
    assert [g1, g2][1..] == [g2];
    assert [g2][1..] == [];
    assert TotalMinutes([g2]) == 30 + TotalMinutes([]);
    assert TotalMinutes([g1, g2]) == 90 + TotalMinutes([g2]);
  }

  // ---------------------------------------------------------------------------
  // The player's achievement list as a map

  /** The dictionary built from an achievement list (a dict comprehension
      keyed by API name): later elements overwrite earlier ones. */
  function AchievedByName(list: seq<PlayerAchievement>): (m: map<string, int>)
    ensures m == map[] <==> list == []
  {
    if list == [] then map[]
    else
      var last := list[|list| - 1];
      var m := AchievedByName(list[..|list| - 1])[last.apiname := last.achieved];
      assert last.apiname in m;
      m
  }

  /** No element after position `i` carries the name of element `i`. */
  predicate LastWithName(list: seq<PlayerAchievement>, i: int)
    requires 0 <= i < |list|
  {
    forall j :: i < j < |list| ==> list[j].apiname != list[i].apiname
  }

  /** The dictionary's keys are exactly the names in the list. */
  lemma {:induction false} AchievedByNameKeys(list: seq<PlayerAchievement>)
    ensures forall k :: k in AchievedByName(list) <==> exists i :: 0 <= i < |list| && list[i].apiname == k
  {
    if list != [] {
      var init := list[..|list| - 1];
      AchievedByNameKeys(init);
      assert forall i :: 0 <= i < |init| ==> init[i] == list[i];
    }
  }

  /** Every key maps to the flag of some element with that name. */
  lemma {:induction false} AchievedByNameValues(list: seq<PlayerAchievement>)
    ensures forall k :: k in AchievedByName(list) ==>
      exists i :: 0 <= i < |list| && list[i].apiname == k && list[i].achieved == AchievedByName(list)[k]
  {
    if list != [] {
      var init, last := list[..|list| - 1], list[|list| - 1];
      AchievedByNameValues(init);
      var m, m' := AchievedByName(init), AchievedByName(list);
      forall k | k in m'
        ensures exists i :: 0 <= i < |list| && list[i].apiname == k && list[i].achieved == m'[k]
      {
        if k == last.apiname {
          assert list[|list| - 1].apiname == k && list[|list| - 1].achieved == m'[k];
        } else {
          var i :| 0 <= i < |init| && init[i].apiname == k && init[i].achieved == m[k];
          assert list[i] == init[i];
        }
      }
    }
  }

  /** The last element carrying a name decides that name's flag. */
  lemma {:induction false} AchievedByNameLastWins(list: seq<PlayerAchievement>)
    ensures forall i :: 0 <= i < |list| && LastWithName(list, i) ==>
      list[i].apiname in AchievedByName(list) && AchievedByName(list)[list[i].apiname] == list[i].achieved
  {
    if list != [] {
      var init := list[..|list| - 1];
      AchievedByNameLastWins(init);
      forall i | 0 <= i < |list| && LastWithName(list, i)
        ensures list[i].apiname in AchievedByName(list) && AchievedByName(list)[list[i].apiname] == list[i].achieved
      {
        if i < |init| {
          assert init[i] == list[i];
          assert LastWithName(init, i);
        }
      }
    }
  }

  /** The player-achievement lookup's list-to-map step: a missing or empty list
      gives `None`, otherwise the dictionary keyed by API name. */
  function UnlockMap(achievements: Option<seq<PlayerAchievement>>): (r: Option<map<string, int>>)
    ensures r.None? <==> achievements.None? || achievements.value == []
    ensures r.Some? ==> r.value != map[] && r.value == AchievedByName(achievements.value)
  {
    match achievements
    case None => None
    case Some(list) =>
      if list == [] then None
      else
        AchievedByNameKeys(list);
        assert list[0].apiname in AchievedByName(list);
        Some(AchievedByName(list))
  }

  // ---------------------------------------------------------------------------
  // Summing the unlock flags

  /** Sum of the values of `m` over the keys in `keys`. */
  ghost function SumOver(m: map<string, int>, keys: set<string>): (s: int)
    requires keys <= m.Keys
    ensures (forall k :: k in keys ==> m[k] >= 0) ==> s >= 0
    decreases keys
  {
    if keys == {} then 0
    else
      var k :| k in keys;
      m[k] + SumOver(m, keys - {k})
  }

  /** `sum(m.values())`. */
  ghost function SumValues(m: map<string, int>): (s: int)
    ensures (forall k :: k in m ==> m[k] >= 0) ==> s >= 0
  {
    SumOver(m, m.Keys)
  }

  /** The sum does not depend on which key is taken out first. */
  lemma {:induction false} SumOverRemove(m: map<string, int>, keys: set<string>, k: string)
    requires keys <= m.Keys && k in keys
    ensures SumOver(m, keys) == m[k] + SumOver(m, keys - {k})
    decreases keys
  {
    var j :| j in keys && SumOver(m, keys) == m[j] + SumOver(m, keys - {j});
    if j != k {
      SumOverRemove(m, keys - {j}, k);
      SumOverRemove(m, keys - {k}, j);
      assert keys - {j} - {k} == keys - {k} - {j};
    }
  }

  /** With 0/1 flags the sum is between 0 and the number of keys. */
  lemma {:induction false} SumOverFlags(m: map<string, int>, keys: set<string>)
    requires keys <= m.Keys
    requires forall k :: k in keys ==> 0 <= m[k] <= 1
    ensures 0 <= SumOver(m, keys) <= |keys|
    decreases keys
  {
    if keys != {} {
      var k :| k in keys;
      SumOverRemove(m, keys, k);
      SumOverFlags(m, keys - {k});
    }
  }

  /** Sums the values of `m`, one key at a time. */
  method SumFlags(m: map<string, int>) returns (total: int)
    ensures total == SumValues(m)
  {
    total := 0;
    var rest := m.Keys;
    while rest != {}
      invariant rest <= m.Keys
      invariant total + SumOver(m, rest) == SumValues(m)
      decreases rest
    {
      var k :| k in rest;
      SumOverRemove(m, rest, k);
      total := total + m[k];
      rest := rest - {k};
    }
  }

  // ---------------------------------------------------------------------------
  // The per-game breakdown entry

  /** The name reported for a game: its own, or "App <appid>". */
  function DisplayName(g: Game): (r: string)
    ensures g.name.Some? ==> r == g.name.value
    ensures g.name.None? ==> |r| > 4 && r[..4] == "App " && r[4..] == IntToString(g.appid)
  {
    g.name.GetOr("App " + IntToString(g.appid))
  }

  /** The completion of `unlocked` out of `total`, in hundredths of a percent. */
  function Percent(unlocked: int, total: int): int
    requires total > 0
  {
    RoundDiv(unlocked * 100 * 100, total)
  }

  /** The percentage is the ratio to the nearest hundredth of a percent, and it
      lies in [0, 100] when 0 <= unlocked <= total. */
  lemma PercentNearest(unlocked: int, total: int)
    requires total > 0
    ensures 2 * (unlocked * 100 * 100 - Percent(unlocked, total) * total) <= total
    ensures 2 * (Percent(unlocked, total) * total - unlocked * 100 * 100) <= total
    ensures 0 <= unlocked <= total ==> 0 <= Percent(unlocked, total) <= 100 * 100
  {
    if 0 <= unlocked <= total {
      RoundDivBounds(unlocked * 100 * 100, total, 100 * 100);
    }
  }

  /** The breakdown entry a game contributes: one exactly when its schema and
      its player achievement list are both present and non-empty. */
  ghost function EntryOf(g: Game): (r: Option<AchievementEntry>)
    ensures r.Some? <==> g.schema.Some? && g.schema.value != [] && g.achievements.Some? && g.achievements.value != []
    ensures r.Some? ==> r.value.appid == g.appid && r.value.name == DisplayName(g) &&
                        r.value.totalAchievements == |g.schema.value| > 0
    ensures r.Some? ==> r.value.unlocked == SumValues(UnlockMap(g.achievements).value) &&
                        r.value.completionPercent == Percent(r.value.unlocked, r.value.totalAchievements)
  {
    var player := UnlockMap(g.achievements);
    if g.schema.None? || g.schema.value == [] || player.None? || player.value == map[] then None
    else
      Some(MakeEntry(g, SumValues(player.value)))
  }

  /** The record appended for a game with achievement data whose flags sum to
      `unlocked`. */
  function MakeEntry(g: Game, unlocked: int): AchievementEntry
    requires g.schema.Some? && g.schema.value != []
  {
    var total := |g.schema.value|;
    AchievementEntry(g.appid, DisplayName(g), total, unlocked, Percent(unlocked, total))
  }

  /** The entries of a list of games, in the games' order. */
  ghost function Breakdown(games: seq<Game>): (r: seq<AchievementEntry>)
    ensures |r| <= |games|
  {
    if games == [] then []
    else
      var init := Breakdown(games[..|games| - 1]);
      match EntryOf(games[|games| - 1])
      case None => init
      case Some(e) => init + [e]
  }

  /** The breakdown of a concatenation is the concatenation of the breakdowns:
      each game's entry depends on that game alone, and entries keep the
      games' order. */
  lemma {:induction false} BreakdownConcat(a: seq<Game>, b: seq<Game>)
    ensures Breakdown(a + b) == Breakdown(a) + Breakdown(b)
    decreases |b|
  {
    if b == [] {
      assert a + b == a;
    } else {
      var b' := b[..|b| - 1];
      assert (a + b)[..|a + b| - 1] == a + b';
      assert (a + b)[|a + b| - 1] == b[|b| - 1];
      BreakdownConcat(a, b');
    }
  }

  /** The appids of a list of games or of entries, in order. */
  function Appids<T>(xs: seq<T>, appid: T -> int): (ids: seq<int>)
    ensures |ids| == |xs|
    ensures forall i :: 0 <= i < |xs| ==> ids[i] == appid(xs[i])
  {
    if xs == [] then [] else Appids(xs[..|xs| - 1], appid) + [appid(xs[|xs| - 1])]
  }

  function GameAppid(g: Game): int { g.appid }

  function EntryAppid(e: AchievementEntry): int { e.appid }

  /** At most one entry per game: no appid occurs more often among the entries
      than among the games (so a list of distinct titles gives entries with
      distinct titles), and there are never more entries than games. */
  lemma {:induction false} BreakdownAtMostOnePerGame(games: seq<Game>)
    ensures |Breakdown(games)| <= |games|
    ensures multiset(Appids(Breakdown(games), EntryAppid)) <= multiset(Appids(games, GameAppid))
  {
    if games != [] {
      var init := games[..|games| - 1];
      var g := games[|games| - 1];
      BreakdownAtMostOnePerGame(init);
      assert games == init + [g];
      assert Appids(games, GameAppid) == Appids(init, GameAppid) + [g.appid];
      match EntryOf(g)
      case None =>
      case Some(e) =>
        assert Appids(Breakdown(init) + [e], EntryAppid) == Appids(Breakdown(init), EntryAppid) + [g.appid];
    }
  }

  /** Every entry has a positive total (so its percentage is well defined), its
      percentage is `unlocked` over `total` rounded to hundredths, and it is the
      entry of one of the games. */
  lemma {:induction false} BreakdownEntries(games: seq<Game>)
    ensures forall e :: e in Breakdown(games) ==>
      e.totalAchievements > 0 &&
      e.completionPercent == Percent(e.unlocked, e.totalAchievements) &&
      exists i :: 0 <= i < |games| && EntryOf(games[i]) == Some(e)
  {
    if games != [] {
      var init := games[..|games| - 1];
      BreakdownEntries(init);
      assert forall i :: 0 <= i < |init| ==> init[i] == games[i];
    }
  }

  /** The unlock flags agree with the schema: every unlocked name is defined by
      the schema and every flag is 0 or 1. The code never checks this. */
  predicate ConsistentUnlocks(g: Game) {
    g.schema.Some? && g.achievements.Some? &&
    forall i :: 0 <= i < |g.achievements.value| ==>
      g.achievements.value[i].apiname in g.schema.value && 0 <= g.achievements.value[i].achieved <= 1
  }

  /** A sequence has at least as many elements as it has distinct ones. */
  lemma {:induction false} DistinctAtMostLength(s: seq<string>)
    ensures |set x | x in s| <= |s|
  {
    if s != [] {
      DistinctAtMostLength(s[1..]);
      assert (set x | x in s) == (set x | x in s[1..]) + {s[0]};
    }
  }

  /** For a game whose unlock data agrees with its schema, the entry satisfies
      0 <= unlocked <= total, so its percentage lies in [0, 100]. */
  lemma UnlockedWithinTotal(g: Game)
    requires ConsistentUnlocks(g)
    ensures EntryOf(g).Some? ==>
      0 <= EntryOf(g).value.unlocked <= EntryOf(g).value.totalAchievements &&
      0 <= EntryOf(g).value.completionPercent <= 100 * 100
  {
    if EntryOf(g).Some? {
      var m := UnlockMap(g.achievements).value;
      var list := g.achievements.value;
      var schema := g.schema.value;
      AchievedByNameValues(list);
      forall k | k in m ensures k in schema && 0 <= m[k] <= 1 {
        var i :| 0 <= i < |list| && list[i].apiname == k && list[i].achieved == m[k];
      }
      SumOverFlags(m, m.Keys);
      DistinctAtMostLength(schema);
      assert |m.Keys| <= |set x | x in schema| by {
        var d := (set x | x in schema) - m.Keys;
        assert (set x | x in schema) == m.Keys + d;
      }
      var e := EntryOf(g).value;
      RoundDivBounds(e.unlocked * 100 * 100, e.totalAchievements, 100 * 100);
    }
  }

  /** Without that agreement, nothing bounds `unlocked` by `total`: one
      defined achievement and two unlocked names give 2 out of 1, 200%. */
  lemma UnlockedMayExceedTotal()
    ensures EntryOf(Game(7, Some("X"), Some(0), Some(["a"]),
                         Some([PlayerAchievement("a", 1), PlayerAchievement("b", 1)])))
            == Some(AchievementEntry(7, "X", 1, 2, 20000))
  {
    var list := [PlayerAchievement("a", 1), PlayerAchievement("b", 1)];
    var m := AchievedByName(list);
    assert list[..1] == [PlayerAchievement("a", 1)];
    assert list[..1][..0] == [];
    assert AchievedByName(list[..1]) == map["a" := 1];
    assert m == map["a" := 1, "b" := 1];
    assert m.Keys == {"a", "b"};
    SumOverRemove(m, m.Keys, "a");
    assert m.Keys - {"a"} == {"b"};
    SumOverRemove(m, {"b"}, "b");
    assert {"b"} - {"b"} == {};
  }

  // ---------------------------------------------------------------------------
  // The overall completion

  /** Every entry has at least one achievement, as every breakdown entry does. */
  predicate PositiveTotals(entries: seq<AchievementEntry>) {
    forall i :: 0 <= i < |entries| ==> entries[i].totalAchievements > 0
  }

  /** Every entry has 0 <= unlocked <= total. */
  predicate UnlockedWithinTotals(entries: seq<AchievementEntry>) {
    forall i :: 0 <= i < |entries| ==> 0 <= entries[i].unlocked <= entries[i].totalAchievements
  }

  /** Total achievements over the entries. */
  function SumTotal(entries: seq<AchievementEntry>): nat {
    if entries == [] then 0 else SumTotal(entries[..|entries| - 1]) + entries[|entries| - 1].totalAchievements
  }

  /** Total unlocked achievements over the entries. */
  function SumUnlocked(entries: seq<AchievementEntry>): int {
    if entries == [] then 0 else SumUnlocked(entries[..|entries| - 1]) + entries[|entries| - 1].unlocked
  }

  /** With a positive total in every entry, as in every breakdown, the total
      achievements are 0 only for no entries. */
  lemma {:induction false} SumTotalZeroIff(entries: seq<AchievementEntry>)
    requires PositiveTotals(entries)
    ensures SumTotal(entries) == 0 <==> entries == []
  {
    if entries != [] {
      assert entries[|entries| - 1].totalAchievements > 0;
    }
  }

  /** With 0 <= unlocked <= total in every entry, the unlocked total lies
      between 0 and the total achievements. */
  lemma {:induction false} SumsOrdered(entries: seq<AchievementEntry>)
    requires UnlockedWithinTotals(entries)
    ensures 0 <= SumUnlocked(entries) <= SumTotal(entries)
  {
    if entries != [] {
      SumsOrdered(entries[..|entries| - 1]);
    }
  }

  /** The overall completion, weighted by achievement count: total unlocked over
      total achievements, to the nearest hundredth of a percent; `None` when no
      achievements were counted. */
  function OverallOf(entries: seq<AchievementEntry>): (r: Option<int>)
    ensures r.None? <==> SumTotal(entries) == 0
    ensures r.Some? ==>
      2 * (100 * 100 * SumUnlocked(entries) - r.value * SumTotal(entries)) <= SumTotal(entries) &&
      2 * (r.value * SumTotal(entries) - 100 * 100 * SumUnlocked(entries)) <= SumTotal(entries)
  {
    if SumTotal(entries) == 0 then None
    else Some(Percent(SumUnlocked(entries), SumTotal(entries)))
  }

  lemma {:induction false} SumsConcat(a: seq<AchievementEntry>, b: seq<AchievementEntry>)
    ensures SumUnlocked(a + b) == SumUnlocked(a) + SumUnlocked(b)
    ensures SumTotal(a + b) == SumTotal(a) + SumTotal(b)
    decreases |b|
  {
    if b == [] {
      assert a + b == a;
    } else {
      var b' := b[..|b| - 1];
      assert (a + b)[..|a + b| - 1] == a + b';
      SumsConcat(a, b');
    }
  }

  /** Taking element `j` out of a list takes one copy of it out of the
      multiset. */
  lemma RemoveAtMultiset<T>(b: seq<T>, j: int)
    requires 0 <= j < |b|
    ensures multiset(b[..j] + b[j + 1..]) == multiset(b) - multiset{b[j]}
  {
    SplitAt(b, j);
    assert multiset(b) == multiset(b[..j]) + multiset{b[j]} + multiset(b[j + 1..]);
  }

  /** A list is its part before `j`, its element `j` and its part after. */
  lemma SplitAt<T>(b: seq<T>, j: int)
    requires 0 <= j < |b|
    ensures b == b[..j] + ([b[j]] + b[j + 1..])
  {
  }

  /** The sums over one entry are that entry's counts. */
  lemma SumsSingle(x: AchievementEntry)
    ensures SumUnlocked([x]) == x.unlocked && SumTotal([x]) == x.totalAchievements
  {
    assert [x][..0] == [];
  }

  /** Taking element `j` out of a list takes its counts out of both sums. */
  lemma RemoveAtSums(b: seq<AchievementEntry>, j: int)
    requires 0 <= j < |b|
    ensures SumUnlocked(b) == SumUnlocked(b[..j] + b[j + 1..]) + b[j].unlocked
    ensures SumTotal(b) == SumTotal(b[..j] + b[j + 1..]) + b[j].totalAchievements
  {
    var left, x, right := b[..j], b[j], b[j + 1..];
    var rest := [x] + right;
    SplitAt(b, j);
    SumsConcat(left, rest);
    SumsConcat([x], right);
    SumsSingle(x);
    SumsConcat(left, right);
  }

  /** Both sums are the same for any rearrangement of the entries. */
  lemma {:induction false} SumsPermutation(a: seq<AchievementEntry>, b: seq<AchievementEntry>)
    requires multiset(a) == multiset(b)
    ensures SumUnlocked(a) == SumUnlocked(b) && SumTotal(a) == SumTotal(b)
    decreases |a|
  {
    if a == [] {
      assert |b| == |multiset(b)| == 0;
    } else {
      var n := |a| - 1;
      assert a[n] in multiset(b) by {
        assert a[n] in multiset(a);
      }
      var j :| 0 <= j < |b| && b[j] == a[n];
      RemoveAtMultiset(a, n);
      RemoveAtMultiset(b, j);
      RemoveAtSums(a, n);
      RemoveAtSums(b, j);
      assert a[..n] + a[n + 1..] == a[..n];
      SumsPermutation(a[..n], b[..j] + b[j + 1..]);
    }
  }

  /** The overall completion does not depend on the order of the entries: any
      rearrangement of them gives the same value. */
  lemma OverallOrderIndependent(a: seq<AchievementEntry>, b: seq<AchievementEntry>)
    requires multiset(a) == multiset(b)
    ensures OverallOf(a) == OverallOf(b)
  {
    SumsPermutation(a, b);
  }

  /** Taking game `j` out of a list takes its entry, if any, out of the
      breakdown. */
  lemma RemoveAtBreakdown(b: seq<Game>, j: int)
    requires 0 <= j < |b|
    ensures multiset(Breakdown(b)) == multiset(Breakdown(b[..j] + b[j + 1..])) + multiset(Breakdown([b[j]]))
  {
    var left, x, right := b[..j], b[j], b[j + 1..];
    SplitAt(b, j);
    BreakdownConcat(left, [x] + right);
    BreakdownConcat([x], right);
    BreakdownConcat(left, right);
  }

  /** Rearranging the games rearranges their breakdown: the same entries come
      out, possibly in another order. */
  lemma {:induction false} BreakdownPermutation(a: seq<Game>, b: seq<Game>)
    requires multiset(a) == multiset(b)
    ensures multiset(Breakdown(a)) == multiset(Breakdown(b))
    decreases |a|
  {
    if a == [] {
      assert |b| == |multiset(b)| == 0;
    } else {
      var n := |a| - 1;
      assert a[n] in multiset(b) by {
        assert a[n] in multiset(a);
      }
      var j :| 0 <= j < |b| && b[j] == a[n];
      RemoveAtMultiset(a, n);
      RemoveAtMultiset(b, j);
      RemoveAtBreakdown(a, n);
      RemoveAtBreakdown(b, j);
      assert a[..n] + a[n + 1..] == a[..n];
      BreakdownPermutation(a[..n], b[..j] + b[j + 1..]);
    }
  }

  /** The overall completion does not depend on the order in which the games
      are visited. */
  lemma OverallGamesOrderIndependent(a: seq<Game>, b: seq<Game>)
    requires multiset(a) == multiset(b)
    ensures OverallOf(Breakdown(a)) == OverallOf(Breakdown(b))
  {
    BreakdownPermutation(a, b);
    OverallOrderIndependent(Breakdown(a), Breakdown(b));
  }

  /** The overall completion is absent exactly when no game contributed an
      entry. */
  lemma {:induction false} OverallNoneIffNoEntries(games: seq<Game>)
    ensures OverallOf(Breakdown(games)).None? <==> Breakdown(games) == []
  {
    var entries := Breakdown(games);
    BreakdownEntries(games);
    if entries != [] {
      var last := entries[|entries| - 1];
      assert last in entries;
    }
  }

  /** When every entry has 0 <= unlocked <= total, the overall completion lies
      in [0, 100]. */
  lemma OverallBounds(entries: seq<AchievementEntry>)
    requires UnlockedWithinTotals(entries)
    ensures OverallOf(entries).Some? ==> 0 <= OverallOf(entries).value <= 100 * 100
  {
    SumsOrdered(entries);
    if SumTotal(entries) > 0 {
      PercentNearest(SumUnlocked(entries), SumTotal(entries));
    }
  }

  /** Weighted, not averaged by title: entries (1 of 10) and (1 of 2) give
      2 / 12 = 16.67%, where the mean of 10% and 50% would be 30%. */
  lemma WeightedNotMean()
    ensures OverallOf([AchievementEntry(1, "A", 10, 1, 1000), AchievementEntry(2, "B", 2, 1, 5000)]) == Some(1667)
  {
    var a, b := AchievementEntry(1, "A", 10, 1, 1000), AchievementEntry(2, "B", 2, 1, 5000);
    assert [a, b][..1] == [a];
    assert [a][..0] == [];
    assert SumUnlocked([a]) == SumUnlocked([]) + 1 && SumTotal([a]) == SumTotal([]) + 10;
    assert SumUnlocked([a, b]) == SumUnlocked([a]) + 1 && SumTotal([a, b]) == SumTotal([a]) + 2;
  }

  // ---------------------------------------------------------------------------
  // The caller-supplied output list and the loop over the games

  /** The list the caller passes in to collect breakdown entries. */
  class BreakdownList {
    var entries: seq<AchievementEntry>

    constructor ()
      ensures entries == []
    {
      entries := [];
    }

    method Append(e: AchievementEntry)
      modifies this
      ensures entries == old(entries) + [e]
    {
      entries := entries + [e];
    }
  }

  /** One more entry adds its counts to both sums. */
  lemma SumsSnoc(entries: seq<AchievementEntry>, e: AchievementEntry)
    ensures SumUnlocked(entries + [e]) == SumUnlocked(entries) + e.unlocked
    ensures SumTotal(entries + [e]) == SumTotal(entries) + e.totalAchievements
  {
    assert (entries + [e])[..|entries|] == entries;
  }

  /** A game without achievement data leaves the breakdown as it was. */
  lemma SkipStep(games: seq<Game>, i: int)
    requires 0 <= i < |games|
    requires games[i].schema.None? || games[i].schema.value == [] ||
             UnlockMap(games[i].achievements).None? || UnlockMap(games[i].achievements).value == map[]
    ensures Breakdown(games[..i + 1]) == Breakdown(games[..i])
  {
    assert games[..i + 1][..i] == games[..i];
  }

  /** A game with achievement data, whose flags sum to `unlocked`, adds its
      entry at the end of the breakdown and its counts to both sums. */
  lemma EntryStep(games: seq<Game>, i: int, unlocked: int)
    requires 0 <= i < |games|
    requires games[i].schema.Some? && games[i].schema.value != []
    requires UnlockMap(games[i].achievements).Some? && UnlockMap(games[i].achievements).value != map[]
    requires unlocked == SumValues(UnlockMap(games[i].achievements).value)
    ensures Breakdown(games[..i + 1]) == Breakdown(games[..i]) + [MakeEntry(games[i], unlocked)]
    ensures SumUnlocked(Breakdown(games[..i + 1])) == SumUnlocked(Breakdown(games[..i])) + unlocked
    ensures SumTotal(Breakdown(games[..i + 1])) == SumTotal(Breakdown(games[..i])) + |games[i].schema.value|
  {
    var g := games[i];
    var e := MakeEntry(g, unlocked);
    assert games[..i + 1][..i] == games[..i];
    assert EntryOf(g) == Some(e);
    SumsSnoc(Breakdown(games[..i]), e);
  }

  /** Walks the games in order, appends one entry to `data` for every game with
      achievement data, and returns the overall completion of the appended
      entries. Earlier contents of `data` are kept. */
  method CompletionPercentage(games: seq<Game>, data: BreakdownList) returns (overall: Option<int>)
    modifies data
    ensures data.entries == old(data.entries) + Breakdown(games)
    ensures overall == OverallOf(Breakdown(games))
  {
    var unlockedTotal, totalAchievements := 0, 0;
    for i := 0 to |games|
      invariant data.entries == old(data.entries) + Breakdown(games[..i])
      invariant unlockedTotal == SumUnlocked(Breakdown(games[..i]))
      invariant totalAchievements == SumTotal(Breakdown(games[..i]))
    {
      var game := games[i];
      var schema := game.schema;
      var player := UnlockMap(game.achievements);
      if schema.None? || schema.value == [] || player.None? || player.value == map[] {
        SkipStep(games, i);
        continue;
      }
      var total := |schema.value|;
      var unlocked := SumFlags(player.value);
      var entry := MakeEntry(game, unlocked);
      EntryStep(games, i, unlocked);
      totalAchievements := totalAchievements + total;
      unlockedTotal := unlockedTotal + unlocked;
      data.Append(entry);
    }
    assert games[..|games|] == games;
    if totalAchievements == 0 {
      return None;
    }
    return Some(Percent(unlockedTotal, totalAchievements));
  }

  /** Collects the summary and the breakdown for a player whose name, level and
      owned games (with their lookups) have been fetched. */
  method GatherPlayerStats(playerName: string, steamLevel: int, games: seq<Game>)
    returns (summary: Summary, data: BreakdownList)
    ensures fresh(data)
    ensures data.entries == Breakdown(games)
    ensures summary == Summary(playerName, steamLevel, AggregatePlaytimeAndCounts(games).0,
                               AggregatePlaytimeAndCounts(games).1, OverallOf(Breakdown(games)))
  {
    var (totalHours, playedGames) := AggregatePlaytimeAndCounts(games);
    data := new BreakdownList();
    var completion := CompletionPercentage(games, data);
    summary := Summary(playerName, steamLevel, totalHours, playedGames, completion);
  }
}
