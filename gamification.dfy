/**
 * The game rules of `lib/gamification.ts`: experience points and levels, the budget streak, and
 * the pass that unlocks badges in place.
 */
module Gamification {
  import opened Wrappers
  import opened Strings
  import opened JsNumbers
  import opened FinanceTypes

  // ---- rewards and levels ----

  /** The points of `XP_REWARDS`. */
  const TransactionLoggedXP: int := 5
  const StayOnBudgetXP: int := 50
  const WeeklyGoalMetXP: int := 200
  const MilestoneReachedXP: int := 500
  const ChallengeCompletedXP: int := 100
  const StreakDayXP: int := 10
  const LessonCompletedXP: int := 10
  const PerfectLessonXP: int := 15
  const PracticeExerciseXP: int := 1
  const CheckpointCompletedXP: int := 20
  const LearningStreakXP: int := 5

  /** Points per level. */
  const LevelSize: int := 1000

  /**
   * `calculateLevel`: one level per thousand points, starting at level 1 (`Math.floor` rounds
   * down, as Dafny's division by a positive number does).
   */
  function CalculateLevel(xp: int): (level: int)
    ensures (level - 1) * LevelSize <= xp < level * LevelSize
  {
    xp / LevelSize + 1
  }

  /** Levels never go down as points grow, and no point total below zero is needed for level 1. */
  lemma LevelMonotone(xp: int, more: int)
    requires xp <= more
    ensures CalculateLevel(xp) <= CalculateLevel(more)
    ensures xp >= 0 ==> CalculateLevel(xp) >= 1
  {
  }

  /** `getLevelTitle`. */
  function GetLevelTitle(level: int): string {
    if level == 1 then "Budgeting Beginner"
    else if level < 5 then "Savings Apprentice"
    else if level < 10 then "Financial Enthusiast"
    else if level < 15 then "Money Manager"
    else if level < 20 then "Savings Specialist"
    else "Financial Guru"
  }

  /** In points: a beginner has fewer than 1000, a guru at least 19000. */
  lemma TitleOfPoints(xp: int)
    requires xp >= 0
    ensures GetLevelTitle(CalculateLevel(xp)) == "Budgeting Beginner" <==> xp < 1000
    ensures GetLevelTitle(CalculateLevel(xp)) == "Financial Guru" <==> xp >= 19000
    ensures GetLevelTitle(CalculateLevel(xp)) == "Money Manager" <==> 9000 <= xp < 14000
  {
  }

  /** `calculateXPForNextLevel`: the first point total of the level after `level`. */
  function CalculateXPForNextLevel(level: int): (r: int)
    ensures CalculateLevel(r) == level + 1 && CalculateLevel(r - 1) == level
  {
    level * LevelSize
  }

  /** `getXPForNextLevel`: the point total at which the next level starts. */
  function GetXPForNextLevel(currentXP: int): (r: int)
    ensures currentXP < r <= currentXP + LevelSize
    ensures r % LevelSize == 0
    ensures CalculateLevel(r) == CalculateLevel(currentXP) + 1
  {
    CalculateXPForNextLevel(CalculateLevel(currentXP))
  }

  // ---- the game state ----

  /**
   * The scalar part of `GamificationData`; the badge list is an array that `CheckBadgeUnlocks`
   * works on, and `lastStreakDate` is ISO date-time text.
   */
  datatype GamificationData = GamificationData(xp: int, level: int, streak: nat, longestStreak: nat,
                                               lastStreakDate: string)

  /** The level matches the points. */
  predicate LevelConsistent(g: GamificationData) {
    g.level == CalculateLevel(g.xp)
  }

  /** `addXP`. */
  function AddXP(g: GamificationData, amount: int): GamificationData {
    var newXP := g.xp + amount;
    g.(xp := newXP, level := CalculateLevel(newXP))
  }

  /** `addLearningXP`, which is `addXP`. */
  function AddLearningXP(g: GamificationData, amount: int): GamificationData {
    AddXP(g, amount)
  }

  /**
   * Adding points adds them to the total, leaves the level consistent with it and changes
   * nothing else; two additions are one addition of the sum.
   */
  lemma AddXPSpec(g: GamificationData, a: int, b: int)
    ensures AddXP(g, a).xp == g.xp + a && LevelConsistent(AddXP(g, a))
    ensures AddXP(g, a).(xp := g.xp, level := g.level) == g
    ensures AddXP(AddXP(g, a), b) == AddXP(g, a + b)
    ensures a >= 0 && LevelConsistent(g) ==> AddXP(g, a).level >= g.level
  {
    if a >= 0 {
      LevelMonotone(g.xp, g.xp + a);
    }
  }

  /** The text before the first `T`, as `split("T")[0]` gives it. */
  function DatePart(s: string): (r: string)
    ensures IsPrefix(r, s) && 'T' !in r
    ensures |r| < |s| ==> s[|r|] == 'T'
  {
    if s == [] || s[0] == 'T' then [] else [s[0]] + DatePart(s[1..])
  }

  /** `updateStreak`, with `now` the ISO text of the current time. */
  function UpdateStreak(g: GamificationData, stayedOnBudget: bool, now: string): GamificationData {
    if stayedOnBudget then
      var newStreak := if DatePart(now) == DatePart(g.lastStreakDate) then g.streak else g.streak + 1;
      g.(streak := newStreak, longestStreak := if newStreak >= g.longestStreak then newStreak else g.longestStreak,
         lastStreakDate := now)
    else
      g.(streak := 0, lastStreakDate := now)
  }

  /**
   * A day off budget ends the streak and keeps the record; a day on budget keeps the streak on
   * the same day and extends it otherwise, and the record is the larger of the two. Points,
   * levels and the record never go down, and a streak within its record stays within it.
   */
  lemma UpdateStreakSpec(g: GamificationData, stayedOnBudget: bool, now: string)
    ensures var r := UpdateStreak(g, stayedOnBudget, now);
      && r.xp == g.xp && r.level == g.level && r.lastStreakDate == now
      && (!stayedOnBudget ==> r.streak == 0 && r.longestStreak == g.longestStreak)
      && (stayedOnBudget && DatePart(now) == DatePart(g.lastStreakDate) ==> r.streak == g.streak)
      && (stayedOnBudget && DatePart(now) != DatePart(g.lastStreakDate) ==> r.streak == g.streak + 1)
      && (stayedOnBudget ==> r.longestStreak >= r.streak && r.longestStreak >= g.longestStreak
                             && (r.longestStreak == r.streak || r.longestStreak == g.longestStreak))
      && r.longestStreak >= g.longestStreak
      && (g.streak <= g.longestStreak ==> r.streak <= r.longestStreak)
  {
  }

  /** Two days on budget in a row, the second on a later date, extend the streak by two. */
  lemma TwoDaysOnBudget(g: GamificationData, day1: string, day2: string)
    requires DatePart(day1) != DatePart(g.lastStreakDate) && DatePart(day2) != DatePart(day1)
    ensures UpdateStreak(UpdateStreak(g, true, day1), true, day2).streak == g.streak + 2
  {
  }

  // ---- badges ----

  function LockedBadge(id: string, name: string, category: BadgeCategory): Badge {
    Badge(id, name, category, false, None)
  }

  /** `ALL_BADGES`, without the display texts. */
  const AllBadges: seq<Badge> := [
    LockedBadge("first-steps", "First Steps", Behavioral),
    LockedBadge("saver-initiate", "Saver Initiate", Saving),
    LockedBadge("budget-pro", "Budget Pro", Behavioral),
    LockedBadge("transaction-master", "Transaction Master", Behavioral),
    LockedBadge("quarter-champion", "Quarter Champion", Milestone),
    LockedBadge("midway-milestone", "Midway Milestone", Milestone),
    LockedBadge("almost-there", "Almost There", Milestone),
    LockedBadge("goal-achieved", "Goal Crusher", Milestone),
    LockedBadge("streak-warrior", "Streak Warrior", Behavioral),
    LockedBadge("subscription-slayer", "Subscription Slayer", Saving),
    LockedBadge("first-lesson", "First Lesson", Learning),
    LockedBadge("perfect-student", "Perfect Student", Learning),
    LockedBadge("learning-streak-7", "7-Day Learning Streak", Learning),
    LockedBadge("budgeting-pro-i", "Budgeting Pro I", Learning),
    LockedBadge("budgeting-pro-ii", "Budgeting Pro II", Learning),
    LockedBadge("checkpoint-master", "Checkpoint Master", Learning),
    LockedBadge("practice-makes-perfect", "Practice Makes Perfect", Learning)
  ]

  /** The badge table starts locked, one badge per id. */
  lemma AllBadgesSpec()
    ensures |AllBadges| == 17
    ensures forall i | 0 <= i < |AllBadges| :: !AllBadges[i].unlocked && AllBadges[i].unlockedAt == None
    ensures forall i, j | 0 <= i < j < |AllBadges| :: AllBadges[i].id != AllBadges[j].id
  {
  }

  /** The learning figures `checkBadgeUnlocks` may be given. */
  datatype LearningData = LearningData(lessonsCompleted: int, perfectLessons: int, learningStreak: int,
                                       checkpointsCompleted: int, practiceExercisesCompleted: int,
                                       skillsCompleted: map<string, bool>, skillsPerfect: map<string, bool>)

  /** What the unlock rules read: the streak, the goal, the number of transactions, the learning figures. */
  datatype UnlockContext = UnlockContext(streak: int, goal: Option<Goal>, transactionCount: nat,
                                         learning: Option<LearningData>)

  /** `(goal.currentAmount / goal.targetAmount) * 100 >= percent` with JavaScript division. */
  predicate GoalReached(g: Goal, percent: real) {
    AtLeast(Scale(Div(g.currentAmount, g.targetAmount), 100.0), percent)
  }

  /** A flag of a record that may lack the key; a missing key reads as `undefined`, which is false. */
  predicate Flag(m: map<string, bool>, key: string) {
    key in m && m[key]
  }

  /** The ids of the badges that need a goal. */
  const GoalBadges: set<string> := {"saver-initiate", "quarter-champion", "midway-milestone", "almost-there", "goal-achieved"}

  /** The ids of the badges that need learning figures. */
  const LearningBadges: set<string> := {"first-lesson", "perfect-student", "learning-streak-7", "budgeting-pro-i",
                                        "budgeting-pro-ii", "checkpoint-master", "practice-makes-perfect"}

  /** The `switch` of `checkBadgeUnlocks`: whether a locked badge with this id is due; unknown ids never are. */
  predicate ShouldUnlock(id: string, c: UnlockContext) {
    if id == "first-steps" then true
    else if id == "saver-initiate" then c.goal.Some? && c.goal.value.currentAmount >= 100.0
    else if id == "budget-pro" then c.streak >= 7
    else if id == "transaction-master" then c.transactionCount >= 50
    else if id == "quarter-champion" then c.goal.Some? && GoalReached(c.goal.value, 25.0)
    else if id == "midway-milestone" then c.goal.Some? && GoalReached(c.goal.value, 50.0)
    else if id == "almost-there" then c.goal.Some? && GoalReached(c.goal.value, 75.0)
    else if id == "goal-achieved" then c.goal.Some? && GoalReached(c.goal.value, 100.0)
    else if id == "streak-warrior" then c.streak >= 30
    else if id == "first-lesson" then c.learning.Some? && c.learning.value.lessonsCompleted >= 1
    else if id == "perfect-student" then c.learning.Some? && c.learning.value.perfectLessons >= 1
    else if id == "learning-streak-7" then c.learning.Some? && c.learning.value.learningStreak >= 7
    else if id == "budgeting-pro-i" then c.learning.Some? && Flag(c.learning.value.skillsCompleted, "budgeting_basics")
    else if id == "budgeting-pro-ii" then c.learning.Some? && Flag(c.learning.value.skillsPerfect, "budgeting_basics")
    else if id == "checkpoint-master" then c.learning.Some? && c.learning.value.checkpointsCompleted >= 1
    else if id == "practice-makes-perfect" then c.learning.Some? && c.learning.value.practiceExercisesCompleted >= 50
    else false
  }

  /** The badge after the pass: a locked badge that is due becomes unlocked at `now`. */
  function UnlockOne(b: Badge, c: UnlockContext, now: string): Badge {
    if !b.unlocked && ShouldUnlock(b.id, c) then b.(unlocked := true, unlockedAt := Some(now)) else b
  }

  /** The badge list after the pass. */
  function UnlockPass(badges: seq<Badge>, c: UnlockContext, now: string): seq<Badge> {
    seq(|badges|, k requires 0 <= k < |badges| => UnlockOne(badges[k], c, now))
  }

  /** The badges the pass returns: the newly unlocked ones, in list order. */
  function Flipped(badges: seq<Badge>, c: UnlockContext, now: string): seq<Badge> {
    if badges == [] then []
    else
      var rest := Flipped(badges[..|badges| - 1], c, now);
      var b := badges[|badges| - 1];
      if !b.unlocked && ShouldUnlock(b.id, c) then rest + [UnlockOne(b, c, now)] else rest
  }

  /** The entries of `after` that differ from the entry of `before` at the same index, in order. */
  function Changed(before: seq<Badge>, after: seq<Badge>): seq<Badge>
    requires |before| == |after|
  {
    if before == [] then []
    else
      var n := |before| - 1;
      Changed(before[..n], after[..n]) + if after[n] != before[n] then [after[n]] else []
  }

  /**
   * The pass keeps the list's length and ids, never touches an unlocked badge, never locks one,
   * and returns exactly the entries it changed, in list order.
   */
  lemma {:induction false} UnlockPassSpec(badges: seq<Badge>, c: UnlockContext, now: string)
    ensures var r := UnlockPass(badges, c, now);
      && |r| == |badges|
      && (forall k | 0 <= k < |badges| :: r[k].id == badges[k].id && r[k].name == badges[k].name)
      && (forall k | 0 <= k < |badges| && badges[k].unlocked :: r[k] == badges[k])
      && (forall k | 0 <= k < |badges| && r[k] != badges[k] :: r[k].unlocked && r[k].unlockedAt == Some(now))
      && Flipped(badges, c, now) == Changed(badges, r)
    decreases |badges|
  {
    if badges != [] {
      var n := |badges| - 1;
      UnlockPassSpec(badges[..n], c, now);
      assert UnlockPass(badges, c, now)[..n] == UnlockPass(badges[..n], c, now);
    }
  }

  /** Without a goal no goal badge unlocks; without learning figures no learning badge unlocks. */
  lemma MissingDataKeepsLocked(badges: seq<Badge>, c: UnlockContext, now: string)
    ensures forall k | 0 <= k < |badges| && c.goal.None? && badges[k].id in GoalBadges ::
      UnlockPass(badges, c, now)[k] == badges[k]
    ensures forall k | 0 <= k < |badges| && c.learning.None? && badges[k].id in LearningBadges ::
      UnlockPass(badges, c, now)[k] == badges[k]
  {
  }

  /**
   * With a positive target, the progress badges unlock at a quarter, a half, three quarters and
   * all of the target, and "saver-initiate" at 100 saved.
   */
  lemma GoalThresholds(g: Goal, c: UnlockContext)
    requires c.goal == Some(g) && g.targetAmount > 0.0
    ensures ShouldUnlock("saver-initiate", c) <==> g.currentAmount >= 100.0
    ensures ShouldUnlock("quarter-champion", c) <==> 4.0 * g.currentAmount >= g.targetAmount
    ensures ShouldUnlock("midway-milestone", c) <==> 2.0 * g.currentAmount >= g.targetAmount
    ensures ShouldUnlock("almost-there", c) <==> 4.0 * g.currentAmount >= 3.0 * g.targetAmount
    ensures ShouldUnlock("goal-achieved", c) <==> g.currentAmount >= g.targetAmount
  {
    GoalReachedIff(g, 25.0);
    GoalReachedIff(g, 50.0);
    GoalReachedIff(g, 75.0);
    GoalReachedIff(g, 100.0);
  }

  /** With a positive target, reaching `percent` is saving that share of the target. */
  lemma GoalReachedIff(g: Goal, percent: real)
    requires g.targetAmount > 0.0
    ensures GoalReached(g, percent) <==> 100.0 * g.currentAmount >= percent * g.targetAmount
  {
    var q := g.currentAmount / g.targetAmount;
    assert q * g.targetAmount == g.currentAmount;
    assert q * 100.0 >= percent <==> (q * 100.0) * g.targetAmount >= percent * g.targetAmount;
  }

  /** For any goal, reaching a progress mark means reaching every lower one. */
  lemma GoalBadgesNested(c: UnlockContext)
    ensures ShouldUnlock("goal-achieved", c) ==> ShouldUnlock("almost-there", c)
    ensures ShouldUnlock("almost-there", c) ==> ShouldUnlock("midway-milestone", c)
    ensures ShouldUnlock("midway-milestone", c) ==> ShouldUnlock("quarter-champion", c)
  {
  }

  /**
   * `checkBadgeUnlocks`: unlocks each due badge of the list in place, stamping it with `now`, and
   * returns the badges it unlocked.
   */
  method CheckBadgeUnlocks(gamification: GamificationData, badges: array<Badge>, goal: Option<Goal>,
                           transactions: seq<Transaction>, learningData: Option<LearningData>, now: string)
    returns (unlockedBadges: seq<Badge>)
    modifies badges
    ensures var c := UnlockContext(gamification.streak, goal, |transactions|, learningData);
      badges[..] == UnlockPass(old(badges[..]), c, now) && unlockedBadges == Flipped(old(badges[..]), c, now)
  {
    var c := UnlockContext(gamification.streak, goal, |transactions|, learningData);
    ghost var orig := badges[..];
    unlockedBadges := [];
    for k := 0 to badges.Length
      invariant badges[..k] == UnlockPass(orig[..k], c, now)
      invariant badges[k..] == orig[k..]
      invariant unlockedBadges == Flipped(orig[..k], c, now)
    {
      assert orig[..k + 1][..k] == orig[..k];
      var badge := badges[k];
      if !badge.unlocked && ShouldUnlock(badge.id, c) {
        badge := badge.(unlocked := true, unlockedAt := Some(now));
        badges[k] := badge;
        unlockedBadges := unlockedBadges + [badge];
      }
      assert badges[..k + 1] == badges[..k] + [badges[k]];
    }
    assert orig[..badges.Length] == orig;
  }

  /** `checkLearningBadgeUnlocks`: the pass with no goal and no transactions. */
  method CheckLearningBadgeUnlocks(gamification: GamificationData, badges: array<Badge>,
                                   learningData: LearningData, now: string)
    returns (unlockedBadges: seq<Badge>)
    modifies badges
    ensures var c := UnlockContext(gamification.streak, None, 0, Some(learningData));
      badges[..] == UnlockPass(old(badges[..]), c, now) && unlockedBadges == Flipped(old(badges[..]), c, now)
  {
    unlockedBadges := CheckBadgeUnlocks(gamification, badges, None, [], Some(learningData), now);
  }

  /** The learning pass unlocks no goal badge and not "transaction-master". */
  lemma LearningPassSkipsGoals(badges: seq<Badge>, streak: int, learning: LearningData, now: string)
    ensures var r := UnlockPass(badges, UnlockContext(streak, None, 0, Some(learning)), now);
      forall k | 0 <= k < |badges| && (badges[k].id in GoalBadges || badges[k].id == "transaction-master") ::
        r[k] == badges[k]
  {
  }
}
