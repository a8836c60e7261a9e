/** The profile classifier: a pure function of the summary and the achievement
    breakdown that evaluates four independent decision tables (progression,
    challenge, social, rhythm) and joins their one-letter codes into a
    four-character type code. Percentages are in hundredths of a percent, hours
    in tenths of an hour, scores in tenths. */
module Classifier {
  import opened Wrappers
  import opened Text
  import opened Aggregation

  /** Why an axis took its branch. The numbers carried are the ones the
      justification text interpolates. */
  datatype Reason =
    | HighCompletionGames(count: nat)
    | LowAverage(average: int)
    | NothingDominant(average: int)
    | StoryAchievements
    | SkillAchievements
    | ExplorationAchievements
    | NoClearTrend
    | CoopAchievements
    | CompetitiveAchievements
    | NoMultiplayerAchievements
    | UninterpretableMultiplayer
    | HeavyPlay(hours: int, regularGames: nat)
    | ModeratePlay(hours: int)
    | LowEngagement

  /** The outcome of one axis: its code, its justification and its score in
      tenths (so 10 stands for 1.0). */
  datatype Axis = Axis(code: char, reason: Reason, score: int)

  /** The profile: its type code and the four axes, in the order
      "Progression Style", "Challenge Nature", "Social Orientation",
      "Rhythm / Engagement". */
  datatype Profile = Profile(typeCode: string, progression: Axis, challenge: Axis, social: Axis, rhythm: Axis)

  /** The comparison the progression axis makes on an absent overall completion
      (`None < 30`), which raises. */
  datatype ClassifyError = NoneComparedWithNumber

  // ---------------------------------------------------------------------------
  // Counting entries, matching keywords

  /** Number of entries that satisfy `p`. */
  function CountIf(entries: seq<AchievementEntry>, p: AchievementEntry -> bool): (n: nat)
    ensures n <= |entries|
  {
    if entries == [] then 0
    else CountIf(entries[..|entries| - 1], p) + (if p(entries[|entries| - 1]) then 1 else 0)
  }

  /** The count is the number of positions whose entry satisfies `p`. */
  lemma {:induction false} CountIfPositions(entries: seq<AchievementEntry>, p: AchievementEntry -> bool)
    ensures CountIf(entries, p) == |set i | 0 <= i < |entries| && p(entries[i])|
  {
    if entries != [] {
      var n := |entries| - 1;
      var init := entries[..n];
      CountIfPositions(init, p);
      var before := set i | 0 <= i < |init| && p(init[i]);
      var now := set i | 0 <= i < |entries| && p(entries[i]);
      if p(entries[n]) {
        assert now == before + {n};
      } else {
        assert now == before;
      }
    }
  }

  /** When every entry satisfies `p`, every entry is counted. */
  lemma {:induction false} CountIfAll(entries: seq<AchievementEntry>, p: AchievementEntry -> bool)
    requires forall i :: 0 <= i < |entries| ==> p(entries[i])
    ensures CountIf(entries, p) == |entries|
  {
    if entries != [] {
      CountIfAll(entries[..|entries| - 1], p);
    }
  }

  /** Counting over a concatenation adds the two counts. */
  lemma {:induction false} CountIfConcat(a: seq<AchievementEntry>, b: seq<AchievementEntry>, p: AchievementEntry -> bool)
    ensures CountIf(a + b, p) == CountIf(a, p) + CountIf(b, p)
    decreases |b|
  {
    if b == [] {
      assert a + b == a;
    } else {
      assert (a + b)[..|a + b| - 1] == a + b[..|b| - 1];
      CountIfConcat(a, b[..|b| - 1], p);
    }
  }

  /** A test that implies another passes no more entries than the other. */
  lemma {:induction false} CountIfImplies(entries: seq<AchievementEntry>, p: AchievementEntry -> bool, q: AchievementEntry -> bool)
    requires forall i :: 0 <= i < |entries| && p(entries[i]) ==> q(entries[i])
    ensures CountIf(entries, p) <= CountIf(entries, q)
  {
    if entries != [] {
      CountIfImplies(entries[..|entries| - 1], p, q);
    }
  }

  /** Taking element `j` out of a list takes it out of the count. */
  lemma RemoveAtCount(b: seq<AchievementEntry>, j: int, p: AchievementEntry -> bool)
    requires 0 <= j < |b|
    ensures CountIf(b, p) == CountIf(b[..j] + b[j + 1..], p) + (if p(b[j]) then 1 else 0)
  {
    var left, x, right := b[..j], b[j], b[j + 1..];
    SplitAt(b, j);
    CountIfConcat(left, [x] + right, p);
    CountIfConcat([x], right, p);
    CountIfConcat(left, right, p);
    assert [x][..0] == [];
  }

  /** A count does not depend on the order of the entries. */
  lemma {:induction false} CountIfPermutation(a: seq<AchievementEntry>, b: seq<AchievementEntry>, p: AchievementEntry -> bool)
    requires multiset(a) == multiset(b)
    ensures CountIf(a, p) == CountIf(b, p)
    decreases |a|
  {
    if a == [] {
      assert |b| == |multiset(b)| == 0;
    } else {
      var n := |a| - 1;
      assert a[n] in multiset(b) by {
        assert a[n] in multiset(a);
      }
      var j :| 0 <= j < |b| && b[j] == a[n];
      RemoveAtMultiset(a, n);
      RemoveAtMultiset(b, j);
      RemoveAtCount(a, n, p);
      RemoveAtCount(b, j, p);
      assert a[..n] + a[n + 1..] == a[..n];
      CountIfPermutation(a[..n], b[..j] + b[j + 1..], p);
    }
  }

  /** Completion of at least 80%; such an entry also counts as regular play. */
  predicate IsHighCompletion(e: AchievementEntry): (b: bool)
    ensures b ==> IsRegularPlay(e)
  {
    e.completionPercent >= 80 * 100
  }

  /** Completion above 30%; such an entry also clears the 20% gate of the
      challenge axis. */
  predicate IsRegularPlay(e: AchievementEntry): (b: bool)
    ensures b ==> e.completionPercent > 20 * 100
  {
    e.completionPercent > 30 * 100
  }

  /** Some keyword is a case-sensitive substring of `name`: it occurs in
      `name` at some position. */
  predicate MatchesAny(name: string, keywords: seq<string>): (b: bool)
    ensures b <==> exists i, j :: 0 <= i < |keywords| && OccursAt(name, keywords[i], j)
  {
    assert (exists k :: k in keywords && Contains(name, k)) <==>
           exists i, j :: 0 <= i < |keywords| && OccursAt(name, keywords[i], j) by {
      forall i | 0 <= i < |keywords|
        ensures Contains(name, keywords[i]) <==> exists j :: OccursAt(name, keywords[i], j)
      {
        ContainsIff(name, keywords[i]);
      }
    }
    exists k :: k in keywords && Contains(name, k)
  }

  /** Some entry's name matches a keyword while its completion exceeds `gate`:
      some keyword occurs at some position of the name of some entry above the
      gate. */
  predicate Signal(entries: seq<AchievementEntry>, keywords: seq<string>, gate: int): (b: bool)
    ensures b <==> exists i, k, j :: 0 <= i < |entries| && 0 <= k < |keywords| &&
                                    entries[i].completionPercent > gate && OccursAt(entries[i].name, keywords[k], j)
    ensures b ==> keywords != []
  {
    assert forall i :: 0 <= i < |entries| ==> (entries[i] in entries && (MatchesAny(entries[i].name, keywords) <==>
      exists k, j :: 0 <= k < |keywords| && OccursAt(entries[i].name, keywords[k], j)));
    exists e :: e in entries && MatchesAny(e.name, keywords) && e.completionPercent > gate
  }

  /** A name matches a union of keyword lists iff it matches one of them. */
  lemma MatchesAnyConcat(name: string, a: seq<string>, b: seq<string>)
    ensures MatchesAny(name, a + b) <==> MatchesAny(name, a) || MatchesAny(name, b)
  {
    if MatchesAny(name, a + b) {
      var k :| k in a + b && Contains(name, k);
    }
  }

  /** A signal in a concatenation of entry lists is a signal in one of them. */
  lemma SignalConcat(a: seq<AchievementEntry>, b: seq<AchievementEntry>, keywords: seq<string>, gate: int)
    ensures Signal(a + b, keywords, gate) <==> Signal(a, keywords, gate) || Signal(b, keywords, gate)
  {
    if Signal(a + b, keywords, gate) {
      var e :| e in a + b && MatchesAny(e.name, keywords) && e.completionPercent > gate;
    }
  }

  /** A signal does not depend on the order of the entries. */
  lemma SignalOrderIndependent(a: seq<AchievementEntry>, b: seq<AchievementEntry>, keywords: seq<string>, gate: int)
    requires multiset(a) == multiset(b)
    ensures Signal(a, keywords, gate) == Signal(b, keywords, gate)
  {
    if Signal(a, keywords, gate) {
      var e :| e in a && MatchesAny(e.name, keywords) && e.completionPercent > gate;
      assert e in multiset(a);
    }
    if Signal(b, keywords, gate) {
      var e :| e in b && MatchesAny(e.name, keywords) && e.completionPercent > gate;
      assert e in multiset(b);
    }
  }

  const StoryTitles: seq<string> := ["Life is Strange", "The Witcher 3", "Assassin's Creed", "Little Nightmares"]
  const SkillTitles: seq<string> := ["Hades", "Celeste", "Dark Souls", "Monster Hunter"]
  const ExplorationTitles: seq<string> := ["Skyrim", "Subnautica", "No Man's Sky", "Zelda", "Hollow Knight"]
  const CoopTitles: seq<string> := ["Left 4 Dead", "Warframe", "PAYDAY 2", "Deep Rock Galactic"]
  const PvpTitles: seq<string> := ["Counter-Strike", "Paladins", "PUBG", "Apex Legends", "Dota"]

  /** Every high-completion entry is an entry of regular play, so there are
      never more of the former than of the latter. */
  lemma HighAtMostRegular(entries: seq<AchievementEntry>)
    ensures CountIf(entries, IsHighCompletion) <= CountIf(entries, IsRegularPlay)
  {
    CountIfImplies(entries, IsHighCompletion, IsRegularPlay);
  }

  // ---------------------------------------------------------------------------
  // Axis 1: progression style

  /** The progression axis as the code has it: with fewer than three
      high-completion entries it compares the overall completion with 30, which
      raises when the overall completion is absent. */
  function ProgressionAsWritten(entries: seq<AchievementEntry>, overall: Option<int>): (r: Result<Axis, ClassifyError>)
    ensures r.Err? <==> overall.None? && CountIf(entries, IsHighCompletion) < 3
    ensures r.Ok? ==> r.value.code in "CF-"
  {
    var high := CountIf(entries, IsHighCompletion);
    if high >= 3 then Ok(Axis('C', HighCompletionGames(high), 10))
    else if overall.None? then Err(NoneComparedWithNumber)
    else if overall.value < 30 * 100 then Ok(Axis('F', LowAverage(overall.value), 3))
    else Ok(Axis('-', NothingDominant(overall.value), 5))
  }

  /** The progression axis with an absent overall completion read as 0%. */
  function Progression(entries: seq<AchievementEntry>, overall: Option<int>): (a: Axis)
    ensures (a.code == 'C' && a.reason == HighCompletionGames(CountIf(entries, IsHighCompletion)) && a.score == 10) ||
            (a.code == 'F' && a.reason == LowAverage(overall.GetOr(0)) && a.score == 3) ||
            (a.code == '-' && a.reason == NothingDominant(overall.GetOr(0)) && a.score == 5)
    ensures a.code in "CF-" && 0 < a.score <= 10
    ensures a.code == 'C' <==> CountIf(entries, IsHighCompletion) >= 3
    ensures a.code == 'F' <==> CountIf(entries, IsHighCompletion) < 3 && overall.GetOr(0) < 30 * 100
    ensures a.code == '-' <==> CountIf(entries, IsHighCompletion) < 3 && overall.GetOr(0) >= 30 * 100
  {
    var high := CountIf(entries, IsHighCompletion);
    var average := overall.GetOr(0);
    if high >= 3 then Axis('C', HighCompletionGames(high), 10)
    else if average < 30 * 100 then Axis('F', LowAverage(average), 3)
    else Axis('-', NothingDominant(average), 5)
  }

  /** As written, the classifier raises exactly for a player with no achievement
      data: whenever some game contributed an entry the overall completion is
      present, and when none did there is no high-completion entry. */
  lemma AsWrittenRaisesOnlyWithoutData(games: seq<Game>)
    ensures ProgressionAsWritten(Breakdown(games), OverallOf(Breakdown(games))).Err?
            <==> Breakdown(games) == []
  {
  }

  /** Wherever the code's version does not raise, the corrected one agrees with
      it; where it raises, the corrected one answers `F`. */
  lemma ProgressionRefinesAsWritten(entries: seq<AchievementEntry>, overall: Option<int>)
    ensures ProgressionAsWritten(entries, overall).Ok? ==>
            ProgressionAsWritten(entries, overall).value == Progression(entries, overall)
    ensures ProgressionAsWritten(entries, overall).Err? ==> Progression(entries, overall).code == 'F'
  {
  }

  /** Three entries with at least 80% completion give `C`, whatever the overall
      completion. */
  lemma ProgressionThreeHigh(entries: seq<AchievementEntry>, i: int, j: int, k: int, overall: Option<int>)
    requires 0 <= i < j < k < |entries|
    requires IsHighCompletion(entries[i]) && IsHighCompletion(entries[j]) && IsHighCompletion(entries[k])
    ensures Progression(entries, overall).code == 'C' && Progression(entries, overall).score == 10
  {
    ThreeHighCounted(entries, i, j, k);
  }

  /** Three distinct high-completion positions are counted. */
  lemma ThreeHighCounted(entries: seq<AchievementEntry>, i: int, j: int, k: int)
    requires 0 <= i < j < k < |entries|
    requires IsHighCompletion(entries[i]) && IsHighCompletion(entries[j]) && IsHighCompletion(entries[k])
    ensures CountIf(entries, IsHighCompletion) >= 3
  {
    var p: AchievementEntry -> bool := IsHighCompletion;
    CountIfPositions(entries, p);
    var all := set n | 0 <= n < |entries| && p(entries[n]);
    var three, rest := {i, j, k}, all - {i, j, k};
    assert |three| == 3 by {
      assert three == {i, j} + {k};
      assert |{i, j}| == 2;
    }
    assert i in all && j in all && k in all;
    assert all == three + rest && three !! rest;
    assert |all| == |three| + |rest|;

  }

  // ---------------------------------------------------------------------------
  // Axis 2: challenge nature

  function Challenge(entries: seq<AchievementEntry>): (a: Axis)
    ensures (a.code == 'S' && a.reason == StoryAchievements && a.score == 6) ||
            (a.code == 'M' && a.reason == SkillAchievements && a.score == 6) ||
            (a.code == 'E' && a.reason == ExplorationAchievements && a.score == 6) ||
            (a.code == '-' && a.reason == NoClearTrend && a.score == 3)
    ensures a.code in "SME-" && 0 < a.score <= 10
    ensures a.code == 'S' <==> Signal(entries, StoryTitles, 20 * 100)
    ensures a.code == 'M' <==> !Signal(entries, StoryTitles, 20 * 100) && Signal(entries, SkillTitles, 20 * 100)
    ensures a.code == 'E' <==> !Signal(entries, StoryTitles, 20 * 100) && !Signal(entries, SkillTitles, 20 * 100) &&
                               Signal(entries, ExplorationTitles, 20 * 100)
  {
    if Signal(entries, StoryTitles, 20 * 100) then Axis('S', StoryAchievements, 6)
    else if Signal(entries, SkillTitles, 20 * 100) then Axis('M', SkillAchievements, 6)
    else if Signal(entries, ExplorationTitles, 20 * 100) then Axis('E', ExplorationAchievements, 6)
    else Axis('-', NoClearTrend, 3)
  }

  /** Priority of a challenge code: story over skill over exploration over none. */
  function ChallengeRank(code: char): nat {
    if code == 'S' then 3 else if code == 'M' then 2 else if code == 'E' then 1 else 0
  }

  /** One story title above 20% decides the axis, whatever else is present. */
  lemma StoryWins(entries: seq<AchievementEntry>, i: int, k: int)
    requires 0 <= i < |entries| && 0 <= k < |StoryTitles|
    requires Contains(entries[i].name, StoryTitles[k]) && entries[i].completionPercent > 20 * 100
    ensures Challenge(entries).code == 'S'
  {
  }

  /** An entry of regular play (above 30%) from a story title already decides
      the challenge axis: regular play clears its 20% gate. */
  lemma RegularStoryWins(entries: seq<AchievementEntry>, i: int)
    requires 0 <= i < |entries| && IsRegularPlay(entries[i]) && MatchesAny(entries[i].name, StoryTitles)
    ensures Challenge(entries).code == 'S' && Challenge(entries).reason == StoryAchievements
  {
    assert entries[i] in entries;
  }

  /** The axis is undetermined exactly when no entry above 20% matches any of
      the three keyword lists. */
  lemma ChallengeUndeterminedIff(entries: seq<AchievementEntry>)
    ensures Challenge(entries).code == '-' <==>
      forall e :: e in entries && e.completionPercent > 20 * 100 ==>
        !MatchesAny(e.name, StoryTitles + SkillTitles + ExplorationTitles)
  {
    forall e | e in entries
      ensures MatchesAny(e.name, StoryTitles + SkillTitles + ExplorationTitles) <==>
        MatchesAny(e.name, StoryTitles) || MatchesAny(e.name, SkillTitles) || MatchesAny(e.name, ExplorationTitles)
    {
      var all := StoryTitles + SkillTitles + ExplorationTitles;
      if MatchesAny(e.name, all) {
        var k :| k in all && Contains(e.name, k);
        assert k in StoryTitles || k in SkillTitles || k in ExplorationTitles;
      }
    }
  }

  /** More breakdown entries never lower the challenge priority. */
  lemma ChallengeMonotone(a: seq<AchievementEntry>, b: seq<AchievementEntry>)
    ensures ChallengeRank(Challenge(a).code) <= ChallengeRank(Challenge(a + b).code)
  {
  }

  // ---------------------------------------------------------------------------
  // Axis 3: social orientation

  /** The social axis, with the code's fourth branch kept as written. Its
      "loner" condition is the negation of the first two, so the fourth branch
      is dead (SocialNeverUndetermined). */
  function Social(entries: seq<AchievementEntry>): (a: Axis)
    ensures (a.code == 'T' && a.reason == CoopAchievements && a.score == 7) ||
            (a.code == 'C' && a.reason == CompetitiveAchievements && a.score == 6) ||
            (a.code == 'L' && a.reason == NoMultiplayerAchievements && a.score == 2) ||
            (a.code == '-' && a.reason == UninterpretableMultiplayer && a.score == 3)
    ensures 0 < a.score <= 10
    ensures a.code == 'T' <==> Signal(entries, CoopTitles, 10 * 100)
    ensures a.code == 'C' <==> !Signal(entries, CoopTitles, 10 * 100) && Signal(entries, PvpTitles, 5 * 100)
  {
    var coop := Signal(entries, CoopTitles, 10 * 100);
    var pvp := Signal(entries, PvpTitles, 5 * 100);
    var loner := !(coop || pvp);
    if coop then Axis('T', CoopAchievements, 7)
    else if pvp then Axis('C', CompetitiveAchievements, 6)
    else if loner then Axis('L', NoMultiplayerAchievements, 2)
    else Axis('-', UninterpretableMultiplayer, 3)
  }

  /** The undetermined branch is unreachable. */
  lemma SocialNeverUndetermined(entries: seq<AchievementEntry>)
    ensures Social(entries).code in "TCL"
  {
  }

  /** `L` exactly when no cooperative title is above 10% and no competitive
      title above 5%. */
  lemma SocialLonerIff(entries: seq<AchievementEntry>)
    ensures Social(entries).code == 'L' <==>
      (forall e :: e in entries && MatchesAny(e.name, CoopTitles) ==> e.completionPercent <= 10 * 100) &&
      (forall e :: e in entries && MatchesAny(e.name, PvpTitles) ==> e.completionPercent <= 5 * 100)
  {
  }

  /** Priority of a social code: cooperative over competitive over loner. */
  function SocialRank(code: char): nat {
    if code == 'T' then 2 else if code == 'C' then 1 else 0
  }

  /** More breakdown entries never lower the social priority. */
  lemma SocialMonotone(a: seq<AchievementEntry>, b: seq<AchievementEntry>)
    ensures SocialRank(Social(a).code) <= SocialRank(Social(a + b).code)
  {
  }

  // ---------------------------------------------------------------------------
  // Axis 4: rhythm / engagement

  function Rhythm(entries: seq<AchievementEntry>, totalHours: int): (a: Axis)
    ensures (a.code == 'H' && a.reason == HeavyPlay(totalHours, CountIf(entries, IsRegularPlay)) && a.score == 10) ||
            (a.code == 'B' && a.reason == ModeratePlay(totalHours) && a.score == 7) ||
            (a.code == 'D' && a.reason == LowEngagement && a.score == 3)
    ensures a.code in "HBD" && 0 < a.score <= 10
    ensures a.code == 'H' <==> totalHours > 2000 * 10 && CountIf(entries, IsRegularPlay) >= 5
    ensures a.code == 'B' <==> !(totalHours > 2000 * 10 && CountIf(entries, IsRegularPlay) >= 5) && totalHours > 500 * 10
    ensures a.code == 'D' <==> !(totalHours > 2000 * 10 && CountIf(entries, IsRegularPlay) >= 5) && totalHours <= 500 * 10
  {
    var regular := CountIf(entries, IsRegularPlay);
    if totalHours > 2000 * 10 && regular >= 5 then Axis('H', HeavyPlay(totalHours, regular), 10)
    else if totalHours > 500 * 10 then Axis('B', ModeratePlay(totalHours), 7)
    else Axis('D', LowEngagement, 3)
  }

  /** Priority of a rhythm code: heavy over moderate over low. */
  function RhythmRank(code: char): nat {
    if code == 'H' then 2 else if code == 'B' then 1 else 0
  }

  /** More hours or more breakdown entries never lower the rhythm level. */
  lemma RhythmMonotone(a: seq<AchievementEntry>, b: seq<AchievementEntry>, hours: int, moreHours: int)
    requires hours <= moreHours
    ensures RhythmRank(Rhythm(a, hours).code) <= RhythmRank(Rhythm(a + b, moreHours).code)
  {
    CountIfConcat(a, b, IsRegularPlay);
  }

  /** 2500 hours with six entries above 30% give `H`; with only two such
      entries the hours alone give `B`. */
  lemma RhythmExamples(six: seq<AchievementEntry>, two: seq<AchievementEntry>)
    requires |six| == 6 && forall i :: 0 <= i < 6 ==> IsRegularPlay(six[i])
    requires |two| == 2
    ensures Rhythm(six, 25000).code == 'H'
    ensures Rhythm(two, 25000).code == 'B'
  {
    CountIfAll(six, IsRegularPlay);
  }

  // ---------------------------------------------------------------------------
  // The whole profile

  /** Classifies a player from the summary and the breakdown. */
  function Classify(summary: Summary, entries: seq<AchievementEntry>): (p: Profile)
    ensures |p.typeCode| == 4
    ensures p.typeCode == [p.progression.code, p.challenge.code, p.social.code, p.rhythm.code]
    ensures p.typeCode[0] in "CF-" && p.typeCode[1] in "SME-" && p.typeCode[2] in "TCL" && p.typeCode[3] in "HBD"
    ensures 0 < p.progression.score <= 10 && 0 < p.challenge.score <= 10 && 0 < p.social.score <= 10 && 0 < p.rhythm.score <= 10
    ensures p.progression == Progression(entries, summary.completionPercent) && p.challenge == Challenge(entries) &&
            p.social == Social(entries) && p.rhythm == Rhythm(entries, summary.totalHours)
  {
    SocialNeverUndetermined(entries);
    Join(Progression(entries, summary.completionPercent), Challenge(entries), Social(entries),
         Rhythm(entries, summary.totalHours))
  }

  /** The profile with the given axes, its type code their four codes in order. */
  function Join(axis1: Axis, axis2: Axis, axis3: Axis, axis4: Axis): Profile {
    Profile([axis1.code, axis2.code, axis3.code, axis4.code], axis1, axis2, axis3, axis4)
  }

  /** The profile does not depend on the order of the breakdown entries: any
      rearrangement of them gives the same profile. */
  lemma ClassifyOrderIndependent(summary: Summary, a: seq<AchievementEntry>, b: seq<AchievementEntry>)
    requires multiset(a) == multiset(b)
    ensures Classify(summary, a) == Classify(summary, b)
  {
    CountIfPermutation(a, b, IsHighCompletion);
    CountIfPermutation(a, b, IsRegularPlay);
    SignalOrderIndependent(a, b, StoryTitles, 20 * 100);
    SignalOrderIndependent(a, b, SkillTitles, 20 * 100);
    SignalOrderIndependent(a, b, ExplorationTitles, 20 * 100);
    SignalOrderIndependent(a, b, CoopTitles, 10 * 100);
    SignalOrderIndependent(a, b, PvpTitles, 5 * 100);
  }
}
