/**
 * The progress tracker: percentages rounded as the browser rounds them,
 * the minutes formatter, the shallow merge of saved progress over the
 * defaults, and the achievement list with its "show all" filter.
 */
module Progress {
  import opened Wrappers
  import opened Text
  import Domain

  // ----------------------------------------------------------- rounding

  /** `Math.round(x)`: halves round up. */
  function Round(x: real): (r: int)
    ensures r as real <= x + 0.5 < r as real + 1.0
  {
    (x + 0.5).Floor
  }

  /** `Math.floor(x)`. */
  function Floor(x: real): (r: int)
    ensures r as real <= x < r as real + 1.0
  {
    x.Floor
  }

  /** Rounding is the nearest integer, and integers are fixed by it. */
  lemma RoundIsNearest(x: real, n: int)
    ensures -0.5 < Round(x) as real - x <= 0.5
    ensures Round(n as real) == n
  {
  }

  // --------------------------------------------------------- percentages

  /** `total > 0 ? Math.round((solved / total) * 100) : 0`. */
  function Percent(solved: real, total: real): (r: int)
    ensures total <= 0.0 ==> r == 0
    ensures total > 0.0 ==> -0.5 < r as real - solved / total * 100.0 <= 0.5
  {
    if total > 0.0 then Round(solved / total * 100.0) else 0
  }

  /** A tally that is not over-solved gives a percentage in 0..100, and a fully solved one gives 100. */
  lemma PercentBounds(solved: real, total: real)
    requires 0.0 <= solved <= total
    ensures 0 <= Percent(solved, total) <= 100
    ensures total > 0.0 && solved == total ==> Percent(solved, total) == 100
  {
    if total > 0.0 {
      assert solved / total * 100.0 <= 100.0 by {
        assert solved / total <= 1.0;
      }
      if solved == total {
        assert solved / total == 1.0;
      }
    }
  }

  /** Solving more of the same total never lowers the percentage. */
  lemma PercentMonotone(a: real, b: real, total: real)
    requires a <= b
    ensures Percent(a, total) <= Percent(b, total)
  {
    if total > 0.0 {
      assert a / total * 100.0 <= b / total * 100.0 by {
        assert a / total <= b / total;
      }
      RoundMonotone(a / total * 100.0, b / total * 100.0);
    }
  }

  lemma RoundMonotone(x: real, y: real)
    requires x <= y
    ensures Round(x) <= Round(y)
  {
  }

  datatype Tally = Tally(solved: real, total: real)

  datatype LanguageTallies = LanguageTallies(java: Tally, python: Tally, c: Tally)

  datatype ComplexityTallies = ComplexityTallies(easy: Tally, medium: Tally, hard: Tally)

  datatype Achievement = Achievement(
    id: string, name: string, description: string, icon: string,
    unlocked: bool, progress: real, maxProgress: real)

  datatype ProgressData = ProgressData(
    totalProblems: real,
    solvedProblems: real,
    currentStreak: real,
    longestStreak: real,
    totalTime: real,
    averageTime: real,
    languages: LanguageTallies,
    complexity: ComplexityTallies,
    achievements: seq<Achievement>)

  const Zero := Tally(0.0, 0.0)

  function LanguageTally(d: ProgressData, l: Domain.Language): Tally {
    match l
    case Java => d.languages.java
    case Python => d.languages.python
    case C => d.languages.c
  }

  function ComplexityTally(d: ProgressData, c: Domain.Complexity): Tally {
    match c
    case Easy => d.complexity.easy
    case Medium => d.complexity.medium
    case Hard => d.complexity.hard
  }

  /** The overall bar: solved over total, 0 with no problems. */
  function OverallProgress(d: ProgressData): (r: int)
    ensures d.totalProblems <= 0.0 ==> r == 0
    ensures 0.0 <= d.solvedProblems <= d.totalProblems ==> 0 <= r <= 100
    ensures r == Percent(d.solvedProblems, d.totalProblems)
  {
    PercentInRange(d.solvedProblems, d.totalProblems);
    Percent(d.solvedProblems, d.totalProblems)
  }

  /** One language's bar, by the same rule on that language's own tally. */
  function LanguageProgress(d: ProgressData, l: Domain.Language): (r: int)
    ensures LanguageTally(d, l).total <= 0.0 ==> r == 0
    ensures 0.0 <= LanguageTally(d, l).solved <= LanguageTally(d, l).total ==> 0 <= r <= 100
    ensures r == Percent(LanguageTally(d, l).solved, LanguageTally(d, l).total)
  {
    var t := LanguageTally(d, l);
    PercentInRange(t.solved, t.total);
    Percent(t.solved, t.total)
  }

  /** One difficulty's bar, by the same rule on that difficulty's own tally. */
  function ComplexityProgress(d: ProgressData, c: Domain.Complexity): (r: int)
    ensures ComplexityTally(d, c).total <= 0.0 ==> r == 0
    ensures 0.0 <= ComplexityTally(d, c).solved <= ComplexityTally(d, c).total ==> 0 <= r <= 100
    ensures r == Percent(ComplexityTally(d, c).solved, ComplexityTally(d, c).total)
  {
    var t := ComplexityTally(d, c);
    PercentInRange(t.solved, t.total);
    Percent(t.solved, t.total)
  }

  lemma PercentInRange(solved: real, total: real)
    ensures 0.0 <= solved <= total ==> 0 <= Percent(solved, total) <= 100
  {
    if 0.0 <= solved <= total {
      PercentBounds(solved, total);
    }
  }

  /** The data with one language's tally replaced. */
  function WithLanguageTally(d: ProgressData, l: Domain.Language, t: Tally): (r: ProgressData)
    ensures LanguageTally(r, l) == t
    ensures forall l' :: l' != l ==> LanguageTally(r, l') == LanguageTally(d, l')
    ensures r.complexity == d.complexity
  {
    match l
    case Java => d.(languages := d.languages.(java := t))
    case Python => d.(languages := d.languages.(python := t))
    case C => d.(languages := d.languages.(c := t))
  }

  /** The data with one difficulty's tally replaced. */
  function WithComplexityTally(d: ProgressData, c: Domain.Complexity, t: Tally): (r: ProgressData)
    ensures ComplexityTally(r, c) == t
    ensures forall c' :: c' != c ==> ComplexityTally(r, c') == ComplexityTally(d, c')
    ensures r.languages == d.languages
  {
    match c
    case Easy => d.(complexity := d.complexity.(easy := t))
    case Medium => d.(complexity := d.complexity.(medium := t))
    case Hard => d.(complexity := d.complexity.(hard := t))
  }

  /** A language's bar depends only on that language's tally: updating another leaves it alone. */
  lemma LanguageProgressIsolated(d: ProgressData, l: Domain.Language, other: Domain.Language, t: Tally)
    ensures other != l ==> LanguageProgress(WithLanguageTally(d, other, t), l) == LanguageProgress(d, l)
    ensures LanguageProgress(WithLanguageTally(d, l, t), l) == Percent(t.solved, t.total)
  {
  }

  /** A difficulty's bar depends only on that difficulty's tally. */
  lemma ComplexityProgressIsolated(d: ProgressData, c: Domain.Complexity, other: Domain.Complexity, t: Tally)
    ensures other != c ==> ComplexityProgress(WithComplexityTally(d, other, t), c) == ComplexityProgress(d, c)
    ensures ComplexityProgress(WithComplexityTally(d, c, t), c) == Percent(t.solved, t.total)
  {
  }

  // -------------------------------------------------------- achievements

  /** The six achievements every tracker starts with. */
  const DefaultAchievements: seq<Achievement> := [
    Achievement("first-problem", "First Steps", "Solve your first coding problem", "\U{1F3AF}", false, 0.0, 1.0),
    Achievement("streak-3", "On Fire!", "Maintain a 3-day solving streak", "\U{1F525}", false, 0.0, 3.0),
    Achievement("streak-7", "Week Warrior", "Maintain a 7-day solving streak", "\U{26A1}", false, 0.0, 7.0),
    Achievement("language-master", "Polyglot", "Solve problems in all three languages", "\U{1F30D}", false, 0.0, 3.0),
    Achievement("complexity-climber", "Difficulty Climber", "Solve problems of all complexity levels", "\U{1F3D4}\U{FE0F}", false, 0.0, 3.0),
    Achievement("speed-demon", "Speed Demon", "Solve a problem in under 5 minutes", "\U{26A1}", false, 0.0, 1.0)]

  predicate WellFormed(a: Achievement) {
    0.0 <= a.progress <= a.maxProgress && 1.0 <= a.maxProgress
  }

  /** Every default achievement is locked, at progress 0, with a positive goal, and the ids are distinct. */
  lemma DefaultAchievementsWellFormed()
    ensures |DefaultAchievements| == 6
    ensures forall i :: 0 <= i < |DefaultAchievements| ==>
      !DefaultAchievements[i].unlocked && DefaultAchievements[i].progress == 0.0 && WellFormed(DefaultAchievements[i])
    ensures forall i, j :: 0 <= i < j < |DefaultAchievements| ==> DefaultAchievements[i].id != DefaultAchievements[j].id
  {
  }

  /** The achievements listed: all of them when "show all" is on, otherwise the unlocked ones, in order. */
  function VisibleAchievements(list: seq<Achievement>, showAll: bool): (r: seq<Achievement>)
    ensures |r| <= |list|
    ensures forall a :: a in r <==> a in list && (showAll || a.unlocked)
    decreases |list|
  {
    if list == [] then []
    else
      var rest := VisibleAchievements(list[1..], showAll);
      if showAll || list[0].unlocked then [list[0]] + rest else rest
  }

  /** Filtering commutes with concatenation, so the shown list keeps the stored order. */
  lemma {:induction false} VisibleDistributes(a: seq<Achievement>, b: seq<Achievement>, showAll: bool)
    ensures VisibleAchievements(a + b, showAll) == VisibleAchievements(a, showAll) + VisibleAchievements(b, showAll)
    decreases |a|
  {
    if a != [] {
      assert (a + b)[1..] == a[1..] + b;
      VisibleDistributes(a[1..], b, showAll);
    } else {
      assert a + b == b;
    }
  }

  /** "Show all" lists everything; otherwise the defaults (all locked) list nothing. */
  lemma {:induction false} ShowAllListsEverything(list: seq<Achievement>)
    ensures VisibleAchievements(list, true) == list
    decreases |list|
  {
    if list != [] {
      ShowAllListsEverything(list[1..]);
    }
  }

  lemma DefaultsHiddenUntilUnlocked()
    ensures VisibleAchievements(DefaultAchievements, false) == []
  {
    DefaultAchievementsWellFormed();
  }

  // ------------------------------------------------------- saved progress

  /** The freshly mounted tracker. */
  const InitialData := ProgressData(0.0, 0.0, 0.0, 0.0, 0.0, 0.0,
    LanguageTallies(Zero, Zero, Zero), ComplexityTallies(Zero, Zero, Zero), DefaultAchievements)

  /** A parsed saved record: each top-level key present or absent. */
  datatype SavedProgress = SavedProgress(
    totalProblems: Option<real>,
    solvedProblems: Option<real>,
    currentStreak: Option<real>,
    longestStreak: Option<real>,
    totalTime: Option<real>,
    averageTime: Option<real>,
    languages: Option<LanguageTallies>,
    complexity: Option<ComplexityTallies>,
    achievements: Option<seq<Achievement>>)

  const NothingSaved := SavedProgress(None, None, None, None, None, None, None, None, None)

  /** What the save effect writes: every key of the current data. */
  function Snapshot(d: ProgressData): SavedProgress {
    SavedProgress(Some(d.totalProblems), Some(d.solvedProblems), Some(d.currentStreak), Some(d.longestStreak),
      Some(d.totalTime), Some(d.averageTime), Some(d.languages), Some(d.complexity), Some(d.achievements))
  }

  /** `{ ...prev, ...parsed }`: a key present in the saved record wins, an absent one keeps the current value. */
  function MergeSaved(prev: ProgressData, saved: SavedProgress): (r: ProgressData)
    ensures saved.totalProblems.None? ==> r.totalProblems == prev.totalProblems
    ensures saved.totalProblems.Some? ==> r.totalProblems == saved.totalProblems.value
    ensures saved.solvedProblems.None? ==> r.solvedProblems == prev.solvedProblems
    ensures saved.solvedProblems.Some? ==> r.solvedProblems == saved.solvedProblems.value
    ensures saved.currentStreak.None? ==> r.currentStreak == prev.currentStreak
    ensures saved.currentStreak.Some? ==> r.currentStreak == saved.currentStreak.value
    ensures saved.longestStreak.None? ==> r.longestStreak == prev.longestStreak
    ensures saved.longestStreak.Some? ==> r.longestStreak == saved.longestStreak.value
    ensures saved.totalTime.None? ==> r.totalTime == prev.totalTime
    ensures saved.totalTime.Some? ==> r.totalTime == saved.totalTime.value
    ensures saved.averageTime.None? ==> r.averageTime == prev.averageTime
    ensures saved.averageTime.Some? ==> r.averageTime == saved.averageTime.value
    ensures saved.languages.None? ==> r.languages == prev.languages
    ensures saved.languages.Some? ==> r.languages == saved.languages.value
    ensures saved.complexity.None? ==> r.complexity == prev.complexity
    ensures saved.complexity.Some? ==> r.complexity == saved.complexity.value
    ensures saved.achievements.None? ==> r.achievements == prev.achievements
    ensures saved.achievements.Some? ==> r.achievements == saved.achievements.value
  {
    ProgressData(
      saved.totalProblems.GetOr(prev.totalProblems),
      saved.solvedProblems.GetOr(prev.solvedProblems),
      saved.currentStreak.GetOr(prev.currentStreak),
      saved.longestStreak.GetOr(prev.longestStreak),
      saved.totalTime.GetOr(prev.totalTime),
      saved.averageTime.GetOr(prev.averageTime),
      saved.languages.GetOr(prev.languages),
      saved.complexity.GetOr(prev.complexity),
      saved.achievements.GetOr(prev.achievements))
  }

  /**
   * The mount effect: a stored record that is missing, empty or not
   * parseable (`None`) leaves the data alone; a parsed one is merged.
   */
  function LoadProgress(prev: ProgressData, stored: Option<SavedProgress>): (r: ProgressData)
    ensures stored.None? ==> r == prev
  {
    if stored.Some? then MergeSaved(prev, stored.value) else prev
  }

  /** An empty record changes nothing, and merging is idempotent. */
  lemma MergeNothingAndIdempotent(prev: ProgressData, saved: SavedProgress)
    ensures MergeSaved(prev, NothingSaved) == prev
    ensures MergeSaved(MergeSaved(prev, saved), saved) == MergeSaved(prev, saved)
  {
  }

  /** What was saved is what is loaded, whatever the tracker held before. */
  lemma LoadAfterSave(prev: ProgressData, d: ProgressData)
    ensures LoadProgress(prev, Some(Snapshot(d))) == d
  {
  }

  // ---------------------------------------------------------- formatTime

  /** JavaScript `a % 60` for a non-negative `a`. */
  function Mod60(a: real): (r: real)
    requires a >= 0.0
    ensures 0.0 <= r < 60.0
    ensures a == 60.0 * Floor(a / 60.0) as real + r
  {
    a - 60.0 * Floor(a / 60.0) as real
  }

  /**
   * The formatter as the tracker writes it: under an hour `Math.round(m)`
   * then "m"; otherwise whole hours, then the remainder rounded. The
   * rounded remainder can reach 60.
   */
  function FormatTimeAsWritten(minutes: real): (r: string)
    ensures minutes < 60.0 ==> r == IntToString(Round(minutes)) + "m"
    ensures minutes >= 60.0 ==>
      var h := Floor(minutes / 60.0);
      var m := Round(Mod60(minutes));
      h >= 1 && 0 <= m <= 60 && r == NatToString(h) + "h " + NatToString(m) + "m"
  {
    if minutes < 60.0 then IntToString(Round(minutes)) + "m"
    else
      var hours := Floor(minutes / 60.0);
      var mins := Round(Mod60(minutes));
      IntToString(hours) + "h " + IntToString(mins) + "m"
  }

  /** The formatter with the rounding done first, so the minutes part is always below 60. */
  function FormatTime(minutes: real): (r: string)
    ensures |r| >= 2 && r[|r| - 1] == 'm'
  {
    var total := Round(minutes);
    if total < 60 then IntToString(total) + "m"
    else NatToString(total / 60) + "h " + NatToString(total % 60) + "m"
  }

  // A reading of the rendered durations, the inverse of the formatter.

  predicate AllDigits(s: string) {
    |s| >= 1 && forall i :: 0 <= i < |s| ==> '0' <= s[i] <= '9'
  }

  /** The position of the first 'h', or the length when there is none. */
  function IndexOfH(s: string): (i: nat)
    ensures i <= |s|
    decreases |s|
  {
    if s == [] || s[0] == 'h' then 0 else 1 + IndexOfH(s[1..])
  }

  /**
   * Reads a duration in canonical form back to whole minutes: "Mm" with
   * M < 60 (possibly negative), or "Hh Mm" with H >= 1 and M < 60.
   */
  function ParseDuration(s: string): Option<int> {
    if |s| == 0 || s[|s| - 1] != 'm' then None
    else
      var body := s[..|s| - 1];
      var i := IndexOfH(body);
      if i < |body| then ParseHours(body[..i], body[i + 1..]) else ParseMinutes(body)
  }

  /** The hours digits, and what follows the 'h': a space, then the minutes digits. */
  function ParseHours(hours: string, rest: string): Option<int> {
    if |rest| >= 1 && rest[0] == ' ' && AllDigits(hours) && AllDigits(rest[1..])
       && DecimalValue(hours) >= 1 && DecimalValue(rest[1..]) < 60
    then Some(60 * DecimalValue(hours) + DecimalValue(rest[1..]))
    else None
  }

  function ParseMinutes(body: string): Option<int> {
    if AllDigits(body) then
      if DecimalValue(body) < 60 then Some(DecimalValue(body)) else None
    else if |body| >= 2 && body[0] == '-' && AllDigits(body[1..]) then Some(0 - DecimalValue(body[1..]) as int)
    else None
  }

  lemma {:induction false} DigitsHaveNoH(s: string)
    requires forall k :: 0 <= k < |s| ==> '0' <= s[k] <= '9'
    ensures IndexOfH(s) == |s|
    decreases |s|
  {
    if s != [] {
      DigitsHaveNoH(s[1..]);
    }
  }

  lemma ParseMinutesOnly(total: nat)
    requires total < 60
    ensures ParseDuration(NatToString(total) + "m") == Some(total)
  {
    var r := NatToString(total) + "m";
    assert r[..|r| - 1] == NatToString(total);
    DigitsHaveNoH(NatToString(total));
    NatToStringRoundTrip(total);
  }

  /** Reading a body with an 'h' in it, followed by "m". */
  lemma ParseDurationSplitsAtH(body: string, i: nat)
    requires i == IndexOfH(body) < |body|
    ensures ParseDuration(body + "m") == ParseHours(body[..i], body[i + 1..])
  {
    assert (body + "m")[..|body|] == body;
  }

  /** Reading a body without an 'h', followed by "m". */
  lemma ParseDurationWithoutH(body: string)
    requires IndexOfH(body) == |body|
    ensures ParseDuration(body + "m") == ParseMinutes(body)
  {
    assert (body + "m")[..|body|] == body;
  }

  /** The first 'h' after a run of digits is the one right after them. */
  lemma {:induction false} IndexOfHAfterDigits(digits: string, rest: string)
    requires forall k :: 0 <= k < |digits| ==> '0' <= digits[k] <= '9'
    requires |rest| >= 1 && rest[0] == 'h'
    ensures IndexOfH(digits + rest) == |digits|
    decreases |digits|
  {
    if digits == [] {
      assert digits + rest == rest;
    } else {
      assert (digits + rest)[1..] == digits[1..] + rest;
      IndexOfHAfterDigits(digits[1..], rest);
    }
  }

  lemma ParseNegativeShape(digits: string)
    requires forall k :: 0 <= k < |digits| ==> '0' <= digits[k] <= '9'
    ensures ParseDuration("-" + digits + "m") == ParseMinutes("-" + digits)
  {
    var body := "-" + digits;
    assert IndexOfH(body) == |body| by {
      assert body[1..] == digits;
      DigitsHaveNoH(digits);
    }
    ParseDurationWithoutH(body);
  }

  lemma ParseNegativeValue(digits: string)
    requires AllDigits(digits)
    ensures ParseMinutes("-" + digits) == Some(0 - DecimalValue(digits) as int)
  {
    var body := "-" + digits;
    assert body[1..] == digits;
    assert !AllDigits(body) by {
      assert body[0] == '-';
    }
  }

  lemma ParseNegativeMinutes(total: int)
    requires total < 0
    ensures ParseDuration(IntToString(total) + "m") == Some(total)
  {
    var digits := NatToString(-total);
    assert IntToString(total) == "-" + digits;
    ParseNegativeShape(digits);
    ParseNegativeValue(digits);
    NatToStringRoundTrip(-total);
  }

  lemma ParseHoursShape(a: string, b: string)
    requires forall k :: 0 <= k < |a| ==> '0' <= a[k] <= '9'
    ensures ParseDuration(a + "h " + b + "m") == ParseHours(a, " " + b)
  {
    var rest := "h " + b;
    var body := a + rest;
    assert a + "h " + b + "m" == body + "m";
    assert ParseDuration(body + "m") == ParseHours(body[..|a|], body[|a| + 1..]) by {
      IndexOfHAfterDigits(a, rest);
      ParseDurationSplitsAtH(body, |a|);
    }
    assert body[..|a|] == a && body[|a| + 1..] == " " + b;
  }

  lemma ParseHoursValue(a: string, b: string, hours: nat, mins: nat)
    requires AllDigits(a) && AllDigits(b)
    requires DecimalValue(a) == hours >= 1 && DecimalValue(b) == mins < 60
    ensures ParseHours(a, " " + b) == Some(60 * hours + mins)
  {
    assert (" " + b)[1..] == b;
  }

  lemma ParseHoursText(a: string, b: string, hours: nat, mins: nat)
    requires AllDigits(a) && AllDigits(b)
    requires DecimalValue(a) == hours >= 1 && DecimalValue(b) == mins < 60
    ensures ParseDuration(a + "h " + b + "m") == Some(60 * hours + mins)
  {
    ParseHoursShape(a, b);
    ParseHoursValue(a, b, hours, mins);
  }

  lemma ParseHoursMinutes(hours: nat, mins: nat)
    requires hours >= 1 && mins < 60
    ensures ParseDuration(NatToString(hours) + "h " + NatToString(mins) + "m") == Some(60 * hours + mins)
  {
    NatToStringRoundTrip(hours);
    NatToStringRoundTrip(mins);
    ParseHoursText(NatToString(hours), NatToString(mins), hours, mins);
  }

  /** The corrected formatter renders exactly the rounded minutes, in canonical form. */
  lemma FormatTimeRoundTrip(minutes: real)
    ensures ParseDuration(FormatTime(minutes)) == Some(Round(minutes))
  {
    var total := Round(minutes);
    if total < 0 {
      assert FormatTime(minutes) == IntToString(total) + "m";
      ParseNegativeMinutes(total);
    } else if total < 60 {
      assert FormatTime(minutes) == NatToString(total) + "m";
      ParseMinutesOnly(total);
    } else {
      var hours, mins := total / 60, total % 60;
      assert FormatTime(minutes) == NatToString(hours) + "h " + NatToString(mins) + "m";
      assert 60 * hours + mins == total;
      ParseHoursMinutes(hours, mins);
    }
  }

  /** The two formatters agree except where the rounded remainder carries into the next hour. */
  lemma FormatTimeAgreesWithoutCarry(minutes: real)
    requires minutes < 59.5 || (minutes >= 60.0 && Round(Mod60(minutes)) < 60)
    ensures FormatTimeAsWritten(minutes) == FormatTime(minutes)
  {
    if minutes >= 60.0 {
      var h := Floor(minutes / 60.0);
      var rem := Mod60(minutes);
      var m := Round(rem);
      assert Round(minutes) == 60 * h + m by {
        assert minutes + 0.5 == (60 * h) as real + (rem + 0.5);
      }
      assert Round(minutes) / 60 == h && Round(minutes) % 60 == m;
    }
  }

  /** 119.6 minutes is shown as "1h 60m", which is not a canonical duration. */
  lemma FormatTimeCarryCounterexample()
    ensures FormatTimeAsWritten(119.6) == "1h 60m"
    ensures ParseDuration(FormatTimeAsWritten(119.6)) == None
    ensures FormatTime(119.6) == "2h 0m"
    ensures FormatTimeAsWritten(59.6) == "60m"
  {
    AsWrittenAt119();
    SixtyMinutesRejected();
    CorrectedAt119();
    AsWrittenAt59();
  }

  lemma SixtyRendered()
    ensures NatToString(60) == "60"
  {
    assert NatToString(6) == "6";
  }

  lemma AsWrittenAt119()
    ensures FormatTimeAsWritten(119.6) == "1h 60m"
  {
    SixtyRendered();
    assert Floor(119.6 / 60.0) == 1;
    assert Mod60(119.6) == 59.6;
    assert Round(59.6) == 60;
    assert NatToString(1) == "1";
  }

  lemma SixtyMinutesRejected()
    ensures ParseDuration("1h 60m") == None
  {
    assert "1" + "h " + "60" + "m" == "1h 60m";
    ParseHoursShape("1", "60");
    assert " 60"[1..] == "60";
    assert DecimalValue("60") == 60 by {
      assert "60"[..1] == "6";
    }
  }

  lemma CorrectedAt119()
    ensures FormatTime(119.6) == "2h 0m"
  {
    assert Round(119.6) == 120;
    assert NatToString(2) == "2";
    assert NatToString(0) == "0";
  }

  lemma AsWrittenAt59()
    ensures FormatTimeAsWritten(59.6) == "60m"
  {
    SixtyRendered();
    assert Round(59.6) == 60;
  }
}
