/**
 * The learning hook `useLearning`: the status of a skill from its prerequisites and lessons, the
 * answer check of every exercise kind, hearts, crowns, and the spaced-repetition (SRS) queue.
 * The hook's state setters become the methods of `LearningState`; each is specified by the pure
 * functions and lemmas before it. Fetching the content files and localStorage are not modelled:
 * the fetched data is an argument of `LoadContent` and the stored progress one of `RestoreProgress`.
 */
module Learning {
  import opened Wrappers
  import opened JsNumbers
  import Seqs
  import Gamification

  datatype Status = Locked | Open | Passed | Perfect

  /** A skill, with the ids of its lessons and of the skills it requires. */
  datatype Skill = Skill(id: string, lessons: seq<string>, prerequisiteSkillIds: Option<seq<string>>)

  datatype Lesson = Lesson(id: string, skillId: string)

  /** The seven exercise kinds, each with the part of it that decides the answer. */
  datatype Exercise =
    | MultipleChoice(id: string, correctIndex: int)
    | TapTokens(id: string, correctTokens: seq<string>)
    | FillInNumeric(id: string, correctValue: real, tolerance: Option<real>)
    | CategorizeTxn(id: string, correctCategories: seq<string>)
    | BudgetScenario(id: string, correctIndex: int)
    | TrueFalse(id: string, correctTruth: bool)
    | OrderSteps(id: string, correctOrder: seq<string>)

  /**
   * What a player can submit: a number (an option index is a number too), a truth value, or a
   * list of words.
   */
  datatype Answer = Number(number: real) | Truth(truth: bool) | Words(words: seq<string>)

  /** An entry of the review queue; `dueAt` is a time in milliseconds. */
  datatype SrsItem = SrsItem(exerciseId: string, dueAt: int, ease: real, interval: int, wrongStreak: int)

  datatype ProgressState = ProgressState(hearts: int, maxHearts: int, xp: int, streakDays: int,
    lastActiveISO: Option<string>, crownsBySkill: map<string, int>,
    lessonStatus: map<string, Status>, srs: seq<SrsItem>)

  const DefaultProgress: ProgressState := ProgressState(5, 5, 0, 0, None, map[], map[], [])

  /** The review intervals in days, the largest ease and the smallest. */
  const SrsIntervals: seq<int> := [1, 2, 3, 5, 8, 13, 21]
  const SrsEaseFactor: real := 2.5
  const SrsMinEase: real := 1.3
  const DayMs: int := 24 * 60 * 60 * 1000

  // ---------------------------------------------------------------------------------------------
  // Lesson and skill status

  /** A lesson counts as completed when its status is passed or perfect. */
  predicate Completed(status: map<string, Status>, id: string) {
    id in status && (status[id] == Passed || status[id] == Perfect)
  }

  predicate PerfectIn(status: map<string, Status>, id: string) {
    id in status && status[id] == Perfect
  }

  function CompletedIn(status: map<string, Status>): string -> bool {
    (id: string) => Completed(status, id)
  }

  function PerfectOf(status: map<string, Status>): string -> bool {
    (id: string) => PerfectIn(status, id)
  }

  /** `getLessonStatus`: the recorded status, locked when there is none. */
  function LessonStatusOf(status: map<string, Status>, id: string): Status {
    if id in status then status[id] else Locked
  }

  /** The status a skill's lessons give it once its prerequisites are met. */
  function LessonsStatus(lessons: seq<string>, status: map<string, Status>): Status {
    var done := Seqs.Count(lessons, CompletedIn(status));
    if done == 0 then Open
    else if done == |lessons| then (if Seqs.Any(lessons, PerfectOf(status)) then Perfect else Passed)
    else Open
  }

  /**
   * No completed lesson (also a skill without lessons) gives open; all of them completed gives
   * perfect when one is perfect and passed otherwise; some but not all gives open.
   */
  lemma LessonsStatusSpec(lessons: seq<string>, status: map<string, Status>)
    ensures LessonsStatus(lessons, status) != Locked
    ensures LessonsStatus(lessons, status) in {Passed, Perfect} <==>
      |lessons| > 0 && forall i | 0 <= i < |lessons| :: Completed(status, lessons[i])
    ensures LessonsStatus(lessons, status) == Perfect <==>
      && |lessons| > 0
      && (forall i | 0 <= i < |lessons| :: Completed(status, lessons[i]))
      && (exists i | 0 <= i < |lessons| :: PerfectIn(status, lessons[i]))
  {
    Seqs.CountExtremes(lessons, CompletedIn(status));
  }

  function SkillNamed(id: string): Skill -> bool {
    (s: Skill) => s.id == id
  }

  /**
   * `getSkillStatus`. The source recurses through the prerequisites without a bound; `fuel` bounds
   * the depth, and a prerequisite reached with no fuel left counts as not met. `acceptPerfect`
   * decides whether a perfect prerequisite counts as met: the source accepts only passed
   * (`SkillStatusAsWritten`), the corrected status also perfect (`SkillStatus`).
   */
  function SkillStatusBy(skills: seq<Skill>, status: map<string, Status>, skill: Skill,
                         acceptPerfect: bool, fuel: nat): Status
    decreases fuel, 2
  {
    if skill.prerequisiteSkillIds.Some?
       && !PrerequisitesMet(skills, status, skill.prerequisiteSkillIds.value, acceptPerfect, fuel)
    then Locked
    else LessonsStatus(skill.lessons, status)
  }

  predicate PrerequisitesMet(skills: seq<Skill>, status: map<string, Status>, ids: seq<string>,
                             acceptPerfect: bool, fuel: nat)
    decreases fuel, 1
  {
    forall i | 0 <= i < |ids| :: PrerequisiteDone(skills, status, ids[i], acceptPerfect, fuel)
  }

  /** The first skill named `id` exists and its own status counts as done. */
  predicate PrerequisiteDone(skills: seq<Skill>, status: map<string, Status>, id: string,
                             acceptPerfect: bool, fuel: nat)
    decreases fuel, 0
  {
    fuel > 0 &&
    var found := Seqs.Find(skills, SkillNamed(id));
    found.Some? &&
    var st := SkillStatusBy(skills, status, found.value, acceptPerfect, fuel - 1);
    st == Passed || (acceptPerfect && st == Perfect)
  }

  function SkillStatus(skills: seq<Skill>, status: map<string, Status>, skill: Skill, fuel: nat): Status {
    SkillStatusBy(skills, status, skill, true, fuel)
  }

  function SkillStatusAsWritten(skills: seq<Skill>, status: map<string, Status>, skill: Skill, fuel: nat): Status {
    SkillStatusBy(skills, status, skill, false, fuel)
  }

  /**
   * The unfolding of `SkillStatusBy`: a skill is locked exactly when it lists prerequisites that
   * are not all met; otherwise its lessons decide. What a met prerequisite is comes from
   * `FinishedStatus` and `FinishedPrerequisitesUnlock`.
   */
  lemma SkillStatusSpec(skills: seq<Skill>, status: map<string, Status>, skill: Skill,
                        acceptPerfect: bool, fuel: nat)
    ensures SkillStatusBy(skills, status, skill, acceptPerfect, fuel) == Locked <==>
      skill.prerequisiteSkillIds.Some?
      && !PrerequisitesMet(skills, status, skill.prerequisiteSkillIds.value, acceptPerfect, fuel)
    ensures SkillStatusBy(skills, status, skill, acceptPerfect, fuel) != Locked ==>
      SkillStatusBy(skills, status, skill, acceptPerfect, fuel) == LessonsStatus(skill.lessons, status)
  {
    LessonsStatusSpec(skill.lessons, status);
  }

  /** The first skill named `id` has no prerequisites of its own and every one of its lessons is completed. */
  predicate Finished(skills: seq<Skill>, status: map<string, Status>, id: string) {
    var found := Seqs.Find(skills, SkillNamed(id));
    && found.Some? && found.value.prerequisiteSkillIds.None? && |found.value.lessons| > 0
    && forall j | 0 <= j < |found.value.lessons| :: Completed(status, found.value.lessons[j])
  }

  /** Finished, and one of the lessons is perfect. */
  predicate FinishedPerfectly(skills: seq<Skill>, status: map<string, Status>, id: string) {
    var found := Seqs.Find(skills, SkillNamed(id));
    && Finished(skills, status, id)
    && exists j | 0 <= j < |found.value.lessons| :: PerfectIn(status, found.value.lessons[j])
  }

  /** The status of a finished prerequisite: perfect when one of its lessons is, passed otherwise. */
  lemma FinishedStatus(skills: seq<Skill>, status: map<string, Status>, id: string, acceptPerfect: bool, fuel: nat)
    requires Finished(skills, status, id)
    ensures var st := SkillStatusBy(skills, status, Seqs.Find(skills, SkillNamed(id)).value, acceptPerfect, fuel);
      st == (if FinishedPerfectly(skills, status, id) then Perfect else Passed)
  {
    LessonsStatusSpec(Seqs.Find(skills, SkillNamed(id)).value.lessons, status);
  }

  /**
   * As written, a prerequisite whose lessons are all completed, one of them perfectly, locks
   * every skill that requires it: its status is perfect, and only passed is accepted.
   */
  lemma PerfectPrerequisiteLocksAsWritten(skills: seq<Skill>, status: map<string, Status>,
                                          skill: Skill, fuel: nat, i: nat)
    requires skill.prerequisiteSkillIds.Some? && i < |skill.prerequisiteSkillIds.value|
    requires FinishedPerfectly(skills, status, skill.prerequisiteSkillIds.value[i])
    ensures SkillStatusAsWritten(skills, status, skill, fuel) == Locked
  {
    var ids := skill.prerequisiteSkillIds.value;
    if fuel > 0 {
      FinishedStatus(skills, status, ids[i], false, fuel - 1);
    }
    assert !PrerequisiteDone(skills, status, ids[i], false, fuel);
    assert !PrerequisitesMet(skills, status, ids, false, fuel);
  }

  /** Corrected: finished prerequisites, perfect or not, never lock a skill. */
  lemma FinishedPrerequisitesUnlock(skills: seq<Skill>, status: map<string, Status>, skill: Skill, fuel: nat)
    requires fuel > 0 && skill.prerequisiteSkillIds.Some?
    requires forall i | 0 <= i < |skill.prerequisiteSkillIds.value| :: Finished(skills, status, skill.prerequisiteSkillIds.value[i])
    ensures SkillStatus(skills, status, skill, fuel) == LessonsStatus(skill.lessons, status)
  {
    var ids := skill.prerequisiteSkillIds.value;
    forall i | 0 <= i < |ids|
      ensures PrerequisiteDone(skills, status, ids[i], true, fuel)
    {
      FinishedStatus(skills, status, ids[i], true, fuel - 1);
    }
    assert PrerequisitesMet(skills, status, ids, true, fuel);
  }

  /** The correction only unlocks: whenever the status as written is not locked, both agree. */
  lemma {:induction false} CorrectionOnlyUnlocks(skills: seq<Skill>, status: map<string, Status>,
                                                  skill: Skill, fuel: nat)
    ensures SkillStatusAsWritten(skills, status, skill, fuel) != Locked ==>
      SkillStatus(skills, status, skill, fuel) == SkillStatusAsWritten(skills, status, skill, fuel)
    decreases fuel, 1
  {
    if skill.prerequisiteSkillIds.Some? {
      var ids := skill.prerequisiteSkillIds.value;
      forall i | 0 <= i < |ids| && PrerequisiteDone(skills, status, ids[i], false, fuel)
        ensures PrerequisiteDone(skills, status, ids[i], true, fuel)
      {
        CorrectionKeepsDone(skills, status, ids[i], fuel);
      }
      assert PrerequisitesMet(skills, status, ids, false, fuel) ==> PrerequisitesMet(skills, status, ids, true, fuel);
    }
  }

  /** A prerequisite done as written is done after the correction. */
  lemma {:induction false} CorrectionKeepsDone(skills: seq<Skill>, status: map<string, Status>, id: string, fuel: nat)
    requires PrerequisiteDone(skills, status, id, false, fuel)
    ensures PrerequisiteDone(skills, status, id, true, fuel)
    decreases fuel, 0
  {
    var p := Seqs.Find(skills, SkillNamed(id)).value;
    CorrectionOnlyUnlocks(skills, status, p, fuel - 1);
    assert SkillStatusBy(skills, status, p, true, fuel - 1) == Passed;
  }

  // ---------------------------------------------------------------------------------------------
  // Crowns and lesson completion

  /** Crowns for a skill: 3 when every lesson is completed and one is perfect, 2 when all are completed. */
  function Crowns(lessons: seq<string>, status: map<string, Status>): Option<int> {
    if Seqs.Count(lessons, CompletedIn(status)) == |lessons| then
      Some(if Seqs.Any(lessons, PerfectOf(status)) then 3 else 2)
    else None
  }

  lemma CrownsSpec(lessons: seq<string>, status: map<string, Status>)
    ensures Crowns(lessons, status).Some? <==> forall i | 0 <= i < |lessons| :: Completed(status, lessons[i])
    ensures Crowns(lessons, status) == Some(3) <==>
      && (forall i | 0 <= i < |lessons| :: Completed(status, lessons[i]))
      && (exists i | 0 <= i < |lessons| :: PerfectIn(status, lessons[i]))
    ensures Crowns(lessons, status).Some? ==> Crowns(lessons, status).value in {2, 3}
  {
    Seqs.CountExtremes(lessons, CompletedIn(status));
  }

  function LessonXP(perfect: bool): int {
    if perfect then Gamification.PerfectLessonXP else Gamification.LessonCompletedXP
  }

  /** The progress after `completeLesson` found `lesson`. */
  function CompletedProgress(p: ProgressState, skills: seq<Skill>, lesson: Lesson, perfect: bool): ProgressState {
    var status := p.lessonStatus[lesson.id := if perfect then Perfect else Passed];
    var q := p.(lessonStatus := status, xp := p.xp + LessonXP(perfect));
    var skill := Seqs.Find(skills, SkillNamed(lesson.skillId));
    if skill.Some? && Crowns(skill.value.lessons, status).Some? then
      q.(crownsBySkill := q.crownsBySkill[lesson.skillId := Crowns(skill.value.lessons, status).value])
    else q
  }

  /**
   * Completing a lesson records passed or perfect for it and no other lesson, adds 15 XP for a
   * perfect lesson and 10 otherwise, and gives the lesson's skill 3 or 2 crowns only when every
   * lesson of that skill is now completed; no other skill's crowns change.
   */
  lemma CompletedProgressSpec(p: ProgressState, skills: seq<Skill>, lesson: Lesson, perfect: bool)
    ensures var r := CompletedProgress(p, skills, lesson, perfect);
      && LessonStatusOf(r.lessonStatus, lesson.id) == (if perfect then Perfect else Passed)
      && (forall id | id != lesson.id :: LessonStatusOf(r.lessonStatus, id) == LessonStatusOf(p.lessonStatus, id))
      && r.xp == p.xp + (if perfect then 15 else 10)
      && r.hearts == p.hearts && r.maxHearts == p.maxHearts && r.srs == p.srs
      && r.streakDays == p.streakDays && r.lastActiveISO == p.lastActiveISO
      && (forall k | k != lesson.skillId && k in p.crownsBySkill :: k in r.crownsBySkill && r.crownsBySkill[k] == p.crownsBySkill[k])
      && (forall k | k in r.crownsBySkill :: k in p.crownsBySkill || k == lesson.skillId)
      && (lesson.skillId in r.crownsBySkill && (lesson.skillId !in p.crownsBySkill
            || r.crownsBySkill[lesson.skillId] != p.crownsBySkill[lesson.skillId]) ==>
          var skill := Seqs.Find(skills, SkillNamed(lesson.skillId));
          && skill.Some?
          && (forall i | 0 <= i < |skill.value.lessons| :: Completed(r.lessonStatus, skill.value.lessons[i]))
          && r.crownsBySkill[lesson.skillId] in {2, 3})
  {
    var status := p.lessonStatus[lesson.id := if perfect then Perfect else Passed];
    var skill := Seqs.Find(skills, SkillNamed(lesson.skillId));
    if skill.Some? {
      CrownsSpec(skill.value.lessons, status);
    }
  }

  /** Completing the last open lesson of a skill crowns it, with 3 crowns when that lesson is perfect. */
  lemma LastLessonCrowns(p: ProgressState, skills: seq<Skill>, lesson: Lesson, perfect: bool, skill: Skill)
    requires Seqs.Find(skills, SkillNamed(lesson.skillId)) == Some(skill)
    requires forall i | 0 <= i < |skill.lessons| :: skill.lessons[i] == lesson.id || Completed(p.lessonStatus, skill.lessons[i])
    ensures lesson.skillId in CompletedProgress(p, skills, lesson, perfect).crownsBySkill
    ensures perfect && lesson.id in skill.lessons ==>
      CompletedProgress(p, skills, lesson, perfect).crownsBySkill[lesson.skillId] == 3
  {
    var status := p.lessonStatus[lesson.id := if perfect then Perfect else Passed];
    LastLessonStatus(p.lessonStatus, skill.lessons, lesson.id, perfect);
    var c := Crowns(skill.lessons, status);
    assert CompletedProgress(p, skills, lesson, perfect).crownsBySkill == p.crownsBySkill[lesson.skillId := c.value];
  }

  /** Marking the one open lesson of a list completed completes the list, perfectly when it is perfect. */
  lemma LastLessonStatus(st: map<string, Status>, lessons: seq<string>, id: string, perfect: bool)
    requires forall i | 0 <= i < |lessons| :: lessons[i] == id || Completed(st, lessons[i])
    ensures var status := st[id := if perfect then Perfect else Passed];
      && Crowns(lessons, status).Some?
      && (perfect && id in lessons ==> Crowns(lessons, status) == Some(3))
  {
    var v := if perfect then Perfect else Passed;
    MarkedCompleted(st, lessons, id, v);
    CrownsOfCompleted(lessons, st[id := v]);
    if perfect && id in lessons {
      var i :| 0 <= i < |lessons| && lessons[i] == id;
      assert PerfectIn(st[id := v], lessons[i]);
    }
  }

  lemma MarkedCompleted(st: map<string, Status>, lessons: seq<string>, id: string, v: Status)
    requires v == Passed || v == Perfect
    requires forall i | 0 <= i < |lessons| :: lessons[i] == id || Completed(st, lessons[i])
    ensures forall i | 0 <= i < |lessons| :: Completed(st[id := v], lessons[i])
  {
    forall i | 0 <= i < |lessons|
      ensures Completed(st[id := v], lessons[i])
    {
      if lessons[i] != id {
        assert Completed(st, lessons[i]);
      }
    }
  }

  /** With every lesson completed a skill has crowns, 3 of them when a lesson is perfect. */
  lemma CrownsOfCompleted(lessons: seq<string>, status: map<string, Status>)
    requires forall i | 0 <= i < |lessons| :: Completed(status, lessons[i])
    ensures Crowns(lessons, status).Some?
    ensures forall i | 0 <= i < |lessons| && PerfectIn(status, lessons[i]) :: Crowns(lessons, status) == Some(3)
  {
    forall i | 0 <= i < |lessons|
      ensures CompletedIn(status)(lessons[i])
    {
    }
    Seqs.CountAll(lessons, CompletedIn(status));
    forall i | 0 <= i < |lessons| && PerfectIn(status, lessons[i])
      ensures Crowns(lessons, status) == Some(3)
    {
      assert PerfectOf(status)(lessons[i]);
    }
  }

  // ---------------------------------------------------------------------------------------------
  // Answers

  function ExerciseNamed(id: string): Exercise -> bool {
    (e: Exercise) => e.id == id
  }

  /**
   * The number `answer - x` subtracts for fill-in-numeric: a number is itself, a truth value is 1
   * or 0, the empty list is 0; any other list is NaN here (none).
   */
  function NumericValue(answer: Answer): (r: Option<real>)
    ensures answer.Number? ==> r == Some(answer.number)
    ensures answer.Truth? ==> r == Some(if answer.truth then 1.0 else 0.0)
    ensures r.None? <==> answer.Words? && answer.words != []
  {
    match answer
    case Number(x) => Some(x)
    case Truth(b) => Some(if b then 1.0 else 0.0)
    case Words(ws) => if ws == [] then Some(0.0) else None
  }

  /**
   * Whether `answer` solves `e`: the same number as the option index, or the same truth value
   * (strict equality); for tap-tokens the same words in any order (both lists are sorted before
   * comparing), and a TypeError when the answer is not a list and so has no `sort`; the same list
   * for the two list kinds that compare as they are; for fill-in-numeric a numeric value within
   * the tolerance (0 when absent).
   */
  function CheckAnswer(e: Exercise, answer: Answer): Result<bool, string> {
    match e
    case MultipleChoice(_, k) => Ok(answer == Number(k as real))
    case TapTokens(_, correct) =>
      if answer.Words? then Ok(multiset(answer.words) == multiset(correct)) else Err("TypeError")
    case FillInNumeric(_, value, tolerance) =>
      var x := NumericValue(answer);
      Ok(x.Some? && Abs(x.value - value) <= tolerance.GetOr(0.0))
    case CategorizeTxn(_, correct) => Ok(answer == Words(correct))
    case BudgetScenario(_, k) => Ok(answer == Number(k as real))
    case TrueFalse(_, t) => Ok(answer == Truth(t))
    case OrderSteps(_, correct) => Ok(answer == Words(correct))
  }

  /** The answer the exercise itself holds as correct. */
  function AnswerKey(e: Exercise): Answer {
    match e
    case MultipleChoice(_, k) => Number(k as real)
    case TapTokens(_, correct) => Words(correct)
    case FillInNumeric(_, value, _) => Number(value)
    case CategorizeTxn(_, correct) => Words(correct)
    case BudgetScenario(_, k) => Number(k as real)
    case TrueFalse(_, t) => Truth(t)
    case OrderSteps(_, correct) => Words(correct)
  }

  /**
   * The key is accepted, given a non-negative tolerance; tap-tokens also accepts any reordering
   * of its key and throws exactly on an answer that is not a list, while order-steps accepts no
   * other list, and fill-in-numeric without a tolerance only answers whose numeric value is its
   * exact value. Only tap-tokens throws.
   */
  lemma CheckAnswerSpec(e: Exercise, answer: Answer)
    ensures (!e.FillInNumeric? || e.tolerance.GetOr(0.0) >= 0.0) ==> CheckAnswer(e, AnswerKey(e)) == Ok(true)
    ensures e.TapTokens? && answer.Words? && multiset(answer.words) == multiset(e.correctTokens) ==>
      CheckAnswer(e, answer) == Ok(true)
    ensures CheckAnswer(e, answer).Err? <==> e.TapTokens? && !answer.Words?
    ensures e.OrderSteps? && CheckAnswer(e, answer) == Ok(true) ==> answer == AnswerKey(e)
    ensures e.FillInNumeric? && e.tolerance.None? && CheckAnswer(e, answer) == Ok(true) ==>
      NumericValue(answer) == Some(e.correctValue)
  {
    if e.FillInNumeric? && e.tolerance.None? && CheckAnswer(e, answer) == Ok(true) {
      assert Abs(NumericValue(answer).value - e.correctValue) <= 0.0;
    }
  }

  /**
   * Example: a multiple-choice index and a fill-in value are numbers alike, so the number 2
   * answers option 2 and the truth value `true` answers a fill-in of 1.
   */
  lemma NumbersAnswerAlike()
    ensures CheckAnswer(MultipleChoice("q", 2), Number(2.0)) == Ok(true)
    ensures CheckAnswer(FillInNumeric("f", 3.0, None), Number(3.0)) == Ok(true)
    ensures CheckAnswer(FillInNumeric("f", 1.0, None), Truth(true)) == Ok(true)
    ensures CheckAnswer(TapTokens("t", ["a"]), Number(0.0)).Err?
  {
  }

  /** The outcome of `submitAnswer`: none when the exercises are not loaded or the id is unknown. */
  function AnswerOutcome(exercises: Option<seq<Exercise>>, id: string, answer: Answer): (r: Option<Result<bool, string>>)
    ensures r.Some? <==> exercises.Some? && exists i | 0 <= i < |exercises.value| :: exercises.value[i].id == id
  {
    if exercises.None? then None
    else
      var e := Seqs.Find(exercises.value, ExerciseNamed(id));
      if e.Some? then Some(CheckAnswer(e.value, answer)) else None
  }

  // ---------------------------------------------------------------------------------------------
  // Spaced repetition

  function IsInterval(d: int): int -> bool {
    (x: int) => x == d
  }

  /** The next interval: one step further through the list, capped at its end; 1 for an unlisted interval. */
  function NextInterval(interval: int): (r: int)
    ensures r in SrsIntervals
  {
    var k := Seqs.FindIndex(SrsIntervals, IsInterval(interval));
    SrsIntervals[MinInt(k + 1, |SrsIntervals| - 1)]
  }

  lemma NextIntervalSpec(interval: int)
    ensures forall i | 0 <= i < |SrsIntervals| - 1 :: SrsIntervals[i] == interval ==> NextInterval(interval) == SrsIntervals[i + 1]
    ensures interval == 21 ==> NextInterval(interval) == 21
    ensures interval !in SrsIntervals ==> NextInterval(interval) == 1
    ensures interval in SrsIntervals && interval < 21 ==> NextInterval(interval) > interval
  {
    forall i | 0 <= i < |SrsIntervals| - 1 && SrsIntervals[i] == interval
      ensures NextInterval(interval) == SrsIntervals[i + 1]
    {
      NextIntervalAt(interval, i);
    }
    var k := Seqs.FindIndex(SrsIntervals, IsInterval(interval));
    if interval in SrsIntervals {
      var i :| 0 <= i < |SrsIntervals| && SrsIntervals[i] == interval;
      NextIntervalAt(interval, i);
      IntervalsIncrease();
    }
  }

  /** The interval at position `i` of the list is followed by the one after it, or itself at the end. */
  lemma NextIntervalAt(interval: int, i: nat)
    requires i < |SrsIntervals| && SrsIntervals[i] == interval
    ensures NextInterval(interval) == SrsIntervals[MinInt(i + 1, |SrsIntervals| - 1)]
  {
    var k := Seqs.FindIndex(SrsIntervals, IsInterval(interval));
    IntervalsIncrease();
    assert k == i;
  }

  /** The review intervals strictly increase along the list. */
  lemma IntervalsIncrease()
    ensures forall a, b | 0 <= a < b < |SrsIntervals| :: SrsIntervals[a] < SrsIntervals[b]
  {
  }

  /** The entry after one more review of it. */
  function Reviewed(item: SrsItem, correct: bool, now: int): SrsItem {
    if correct then
      var interval := NextInterval(item.interval);
      item.(interval := interval, ease := Min(item.ease + 0.1, SrsEaseFactor), wrongStreak := 0,
            dueAt := now + interval * DayMs)
    else
      item.(interval := 1, ease := Max(item.ease - 0.2, SrsMinEase), wrongStreak := item.wrongStreak + 1,
            dueAt := now + DayMs)
  }

  /** The entry of an exercise reviewed for the first time. */
  function NewItem(id: string, correct: bool, now: int): SrsItem {
    SrsItem(id, now + (if correct then 2 else 1) * DayMs, if correct then 2.5 else 1.3,
            if correct then 2 else 1, if correct then 0 else 1)
  }

  function HasId(id: string): SrsItem -> bool {
    (item: SrsItem) => item.exerciseId == id
  }

  function LacksId(id: string): SrsItem -> bool {
    (item: SrsItem) => item.exerciseId != id
  }

  /** `enqueueSRS`: review the first entry for `id` in place, or append a new one. */
  function Enqueue(srs: seq<SrsItem>, id: string, correct: bool, now: int): seq<SrsItem> {
    var k := Seqs.FindIndex(srs, HasId(id));
    if k >= 0 then srs[k := Reviewed(srs[k], correct, now)] else srs + [NewItem(id, correct, now)]
  }

  /** `dequeueSRS`: every entry for `id` removed, the rest kept in order. */
  function Dequeue(srs: seq<SrsItem>, id: string): seq<SrsItem> {
    Seqs.Filter(srs, LacksId(id))
  }

  function ExerciseIdOf(item: SrsItem): string {
    item.exerciseId
  }

  predicate ItemValid(item: SrsItem) {
    item.interval in SrsIntervals && SrsMinEase <= item.ease <= SrsEaseFactor && item.wrongStreak >= 0
  }

  /** Every entry has a listed interval and an ease in range, and no two entries share an exercise. */
  predicate SrsValid(srs: seq<SrsItem>) {
    && (forall i | 0 <= i < |srs| :: ItemValid(srs[i]))
    && Seqs.DistinctBy(srs, ExerciseIdOf)
  }

  /**
   * A correct review moves the interval one step up the list, raises the ease by 0.1 up to 2.5 and
   * clears the wrong streak; a wrong one resets the interval to 1, lowers the ease by 0.2 down to
   * 1.3 and counts the streak up; either way the ease stays in [1.3, 2.5] and the entry is due
   * after its new interval.
   */
  lemma ReviewedSpec(item: SrsItem, correct: bool, now: int)
    ensures var r := Reviewed(item, correct, now);
      && r.exerciseId == item.exerciseId
      && r.dueAt == now + r.interval * DayMs
      && (correct ==>
            r.interval == NextInterval(item.interval) && r.wrongStreak == 0 && r.ease == Min(item.ease + 0.1, 2.5))
      && (!correct ==>
            r.interval == 1 && r.wrongStreak == item.wrongStreak + 1 && r.ease == Max(item.ease - 0.2, 1.3))
      && (ItemValid(item) ==> ItemValid(r))
  {
  }

  /** A review of an exercise already queued replaces its entry and nothing else. */
  lemma EnqueueExisting(srs: seq<SrsItem>, id: string, correct: bool, now: int, k: nat)
    requires SrsValid(srs) && k < |srs| && srs[k].exerciseId == id
    ensures Enqueue(srs, id, correct, now) == srs[k := Reviewed(srs[k], correct, now)]
    ensures |Enqueue(srs, id, correct, now)| == |srs|
  {
    var f := Seqs.FindIndex(srs, HasId(id));
    assert HasId(id)(srs[k]);
  }

  /**
   * The first review of an exercise appends an entry due after 2 days with ease 2.5 and no wrong
   * streak when correct, and due after 1 day with ease 1.3 and a wrong streak of 1 otherwise.
   */
  lemma EnqueueNew(srs: seq<SrsItem>, id: string, correct: bool, now: int)
    requires forall i | 0 <= i < |srs| :: srs[i].exerciseId != id
    ensures var r := Enqueue(srs, id, correct, now);
      && |r| == |srs| + 1 && r[..|srs|] == srs
      && r[|srs|].exerciseId == id
      && r[|srs|].interval == (if correct then 2 else 1)
      && r[|srs|].ease == (if correct then 2.5 else 1.3)
      && r[|srs|].wrongStreak == (if correct then 0 else 1)
      && r[|srs|].dueAt == now + r[|srs|].interval * DayMs
  {
    var f := Seqs.FindIndex(srs, HasId(id));
    assert forall j | 0 <= j < |srs| :: !HasId(id)(srs[j]);
  }

  /** Enqueueing keeps entries valid and one per exercise. */
  lemma EnqueueValid(srs: seq<SrsItem>, id: string, correct: bool, now: int)
    ensures SrsValid(srs) ==> SrsValid(Enqueue(srs, id, correct, now))
  {
    var f := Seqs.FindIndex(srs, HasId(id));
    ReviewedSpec(if f >= 0 then srs[f] else NewItem(id, correct, now), correct, now);
    if f < 0 {
      var r := Enqueue(srs, id, correct, now);
      assert forall i | 0 <= i < |srs| :: r[i] == srs[i] && !HasId(id)(srs[i]);
    }
  }

  /**
   * Dequeueing leaves exactly the entries for other exercises, so it removes as many entries as
   * there were for `id`, and it keeps the queue valid.
   */
  lemma DequeueSpec(srs: seq<SrsItem>, id: string)
    ensures forall x :: x in Dequeue(srs, id) <==> x in srs && x.exerciseId != id
    ensures |Dequeue(srs, id)| == |srs| - Seqs.Count(srs, HasId(id))
  {
    Seqs.FilterMembers(srs, LacksId(id));
    Seqs.FilterPartition(srs, HasId(id), LacksId(id), (x: SrsItem) => 0.0);
  }

  /** Dequeueing keeps entries valid and one per exercise. */
  lemma DequeueValid(srs: seq<SrsItem>, id: string)
    requires SrsValid(srs)
    ensures SrsValid(Dequeue(srs, id))
  {
    var r := Dequeue(srs, id);
    Seqs.FilterDistinctBy(srs, LacksId(id), ExerciseIdOf);
    forall i | 0 <= i < |r|
      ensures ItemValid(r[i])
    {
      assert r[i] in multiset(srs);
    }
  }

  /** Removing an exercise after reviewing it is removing it: the other entries are untouched. */
  lemma DequeueEnqueue(srs: seq<SrsItem>, id: string, correct: bool, now: int)
    ensures Dequeue(Enqueue(srs, id, correct, now), id) == Dequeue(srs, id)
  {
    var k := Seqs.FindIndex(srs, HasId(id));
    if k >= 0 {
      Seqs.FilterUpdate(srs, k, Reviewed(srs[k], correct, now), LacksId(id));
    } else {
      var x := NewItem(id, correct, now);
      Seqs.FilterAppend(srs, [x], LacksId(id));
      assert Seqs.Filter([x], LacksId(id)) == [];
    }
  }

  function DueBy(now: int): SrsItem -> bool {
    (item: SrsItem) => item.dueAt <= now
  }

  function DueKey(item: SrsItem): real {
    item.dueAt as real
  }

  /** `getPracticeQueue`: the entries due by `now`, earliest first. */
  function PracticeQueue(srs: seq<SrsItem>, now: int): seq<SrsItem> {
    Seqs.SortBy(Seqs.Filter(srs, DueBy(now)), DueKey)
  }

  /** The practice queue holds exactly the due entries, as many times as the queue does. */
  lemma PracticeQueueSpec(srs: seq<SrsItem>, now: int)
    ensures forall x :: x in PracticeQueue(srs, now) <==> x in srs && x.dueAt <= now
    ensures multiset(PracticeQueue(srs, now)) == multiset(Seqs.Filter(srs, DueBy(now)))
  {
    var due := Seqs.Filter(srs, DueBy(now));
    forall x | x in srs && x.dueAt <= now
      ensures x in multiset(due)
    {
      Seqs.FilterKeeps(srs, DueBy(now), x);
    }
    forall x | x in multiset(due)
      ensures x in srs && x.dueAt <= now
    {
      assert x in due;
    }
  }

  /** The practice queue is ordered by due time, earliest first. */
  lemma PracticeQueueOrdered(srs: seq<SrsItem>, now: int)
    ensures forall i, j | 0 <= i < j < |PracticeQueue(srs, now)| ::
      PracticeQueue(srs, now)[i].dueAt <= PracticeQueue(srs, now)[j].dueAt
  {
    var r := PracticeQueue(srs, now);
    Seqs.SortBySorted(Seqs.Filter(srs, DueBy(now)), DueKey);
    forall i, j | 0 <= i < j < |r|
      ensures r[i].dueAt <= r[j].dueAt
    {
      assert DueKey(r[i]) <= DueKey(r[j]);
    }
  }

  // ---------------------------------------------------------------------------------------------
  // Days and streaks

  /** The progress was last active on the calendar day of `now` (both compared by their date text). */
  predicate ActiveToday(p: ProgressState, now: string) {
    p.lastActiveISO.Some? && Gamification.DatePart(p.lastActiveISO.value) == Gamification.DatePart(now)
  }

  /** The daily refill applied when stored progress is loaded: full hearts on a new day. */
  function RefillOnLoad(p: ProgressState, now: string): ProgressState {
    if ActiveToday(p, now) then p else p.(hearts := p.maxHearts, lastActiveISO := Some(now))
  }

  /** `incrementStreak`: one more streak day, at most once per calendar day. */
  function StreakBumped(p: ProgressState, now: string): ProgressState {
    if ActiveToday(p, now) then p else p.(streakDays := p.streakDays + 1, lastActiveISO := Some(now))
  }

  /**
   * The streak grows by one on the first increment of a day and not again that day; a load refill
   * on a new day also marks the day active, so the increment that follows it the same day adds
   * nothing.
   */
  lemma StreakSpec(p: ProgressState, now: string)
    ensures StreakBumped(p, now).streakDays == p.streakDays + (if ActiveToday(p, now) then 0 else 1)
    ensures StreakBumped(StreakBumped(p, now), now) == StreakBumped(p, now)
    ensures RefillOnLoad(RefillOnLoad(p, now), now) == RefillOnLoad(p, now)
    ensures StreakBumped(RefillOnLoad(p, now), now).streakDays == p.streakDays
    ensures !ActiveToday(p, now) ==> RefillOnLoad(p, now).hearts == p.maxHearts
  {
  }

  // ---------------------------------------------------------------------------------------------
  // The hook's state

  predicate CrownsValid(crowns: map<string, int>) {
    forall k | k in crowns :: crowns[k] == 2 || crowns[k] == 3
  }

  /** Hearts within [0, maxHearts], crowns of 2 or 3, and a valid review queue. */
  predicate ProgressValid(p: ProgressState) {
    0 <= p.hearts <= p.maxHearts && CrownsValid(p.crownsBySkill) && SrsValid(p.srs)
  }

  lemma DefaultProgressValid()
    ensures ProgressValid(DefaultProgress)
  {
  }

  lemma CompletedProgressValid(p: ProgressState, skills: seq<Skill>, lesson: Lesson, perfect: bool)
    ensures ProgressValid(p) ==> ProgressValid(CompletedProgress(p, skills, lesson, perfect))
  {
    CompletedProgressSpec(p, skills, lesson, perfect);
  }

  class LearningState {
    var progress: ProgressState
    var currentLesson: Option<string>
    var currentExercise: Option<string>
    var lessonHearts: int
    var lessonXP: int
    /** The skills of every unit of the curriculum, unit by unit; empty until the curriculum is loaded. */
    var skills: seq<Skill>
    var lessons: Option<seq<Lesson>>
    var exercises: Option<seq<Exercise>>

    predicate Valid()
      reads this
    {
      ProgressValid(progress) && lessonHearts >= 0 && lessonXP >= 0
    }

    /**
     * `getSkillStatus` as written (only a passed prerequisite counts as met), with a depth bound
     * that covers every acyclic chain of prerequisites.
     */
    function GetSkillStatus(skill: Skill): (r: Status)
      reads this
      ensures r == Locked <==>
        skill.prerequisiteSkillIds.Some?
        && !PrerequisitesMet(skills, progress.lessonStatus, skill.prerequisiteSkillIds.value, false, |skills| + 1)
      ensures r != Locked ==> r == LessonsStatus(skill.lessons, progress.lessonStatus)
    {
      SkillStatusSpec(skills, progress.lessonStatus, skill, false, |skills| + 1);
      SkillStatusAsWritten(skills, progress.lessonStatus, skill, |skills| + 1)
    }

    /** `getSkillStatus` with finished prerequisites, passed or perfect, counting as met: it only unlocks. */
    function GetSkillStatusCorrected(skill: Skill): (r: Status)
      reads this
      ensures GetSkillStatus(skill) != Locked ==> r == GetSkillStatus(skill)
      ensures r != Locked ==> r == LessonsStatus(skill.lessons, progress.lessonStatus)
    {
      CorrectionOnlyUnlocks(skills, progress.lessonStatus, skill, |skills| + 1);
      SkillStatusSpec(skills, progress.lessonStatus, skill, true, |skills| + 1);
      SkillStatus(skills, progress.lessonStatus, skill, |skills| + 1)
    }

    function GetLessonStatus(lessonId: string): Status
      reads this
    {
      LessonStatusOf(progress.lessonStatus, lessonId)
    }

    function GetPracticeQueue(now: int): seq<SrsItem>
      reads this
    {
      PracticeQueue(progress.srs, now)
    }

    constructor ()
      ensures Valid()
      ensures progress == DefaultProgress && lessonHearts == 5 && lessonXP == 0
      ensures currentLesson == None && currentExercise == None
      ensures skills == [] && lessons == None && exercises == None
    {
      progress := DefaultProgress;
      currentLesson := None;
      currentExercise := None;
      lessonHearts := 5;
      lessonXP := 0;
      skills := [];
      lessons := None;
      exercises := None;
    }

    /** The content files once fetched. */
    method LoadContent(skills': seq<Skill>, lessons': seq<Lesson>, exercises': seq<Exercise>)
      modifies this
      ensures skills == skills' && lessons == Some(lessons') && exercises == Some(exercises')
      ensures progress == old(progress) && lessonHearts == old(lessonHearts) && lessonXP == old(lessonXP)
      ensures currentLesson == old(currentLesson) && currentExercise == old(currentExercise)
      ensures old(Valid()) ==> Valid()
    {
      skills := skills';
      lessons := Some(lessons');
      exercises := Some(exercises');
    }

    /** The stored progress, if any, loaded at `now` with the daily heart refill. */
    method RestoreProgress(stored: Option<ProgressState>, now: string)
      modifies this
      ensures progress == if stored.Some? then RefillOnLoad(stored.value, now) else old(progress)
      ensures lessonHearts == old(lessonHearts) && lessonXP == old(lessonXP)
      ensures currentLesson == old(currentLesson) && currentExercise == old(currentExercise)
      ensures skills == old(skills) && lessons == old(lessons) && exercises == old(exercises)
      ensures old(Valid()) && (stored.Some? ==> ProgressValid(stored.value)) ==> Valid()
    {
      if stored.Some? {
        progress := stored.value;
        if !ActiveToday(progress, now) {
          progress := progress.(hearts := progress.maxHearts, lastActiveISO := Some(now));
        }
      }
    }

    method StartLesson(lessonId: string)
      modifies this
      ensures currentLesson == Some(lessonId) && currentExercise == None
      ensures lessonHearts == progress.hearts && lessonXP == 0
      ensures progress == old(progress)
      ensures skills == old(skills) && lessons == old(lessons) && exercises == old(exercises)
      ensures old(Valid()) ==> Valid()
    {
      currentLesson := Some(lessonId);
      currentExercise := None;
      lessonHearts := progress.hearts;
      lessonXP := 0;
    }

    /** One heart less, never below zero, both in the lesson and in the progress. */
    method LoseHeart()
      modifies this
      ensures lessonHearts == MaxInt(0, old(lessonHearts) - 1)
      ensures progress == old(progress).(hearts := MaxInt(0, old(progress).hearts - 1))
      ensures lessonXP == old(lessonXP) && currentLesson == old(currentLesson) && currentExercise == old(currentExercise)
      ensures skills == old(skills) && lessons == old(lessons) && exercises == old(exercises)
      ensures old(Valid()) ==> Valid()
    {
      lessonHearts := MaxInt(0, lessonHearts - 1);
      progress := progress.(hearts := MaxInt(0, progress.hearts - 1));
    }

    /** One heart more, never above the maximum. */
    method GainHeart()
      modifies this
      ensures progress == old(progress).(hearts := MinInt(old(progress).maxHearts, old(progress).hearts + 1))
      ensures lessonHearts == old(lessonHearts) && lessonXP == old(lessonXP)
      ensures currentLesson == old(currentLesson) && currentExercise == old(currentExercise)
      ensures skills == old(skills) && lessons == old(lessons) && exercises == old(exercises)
      ensures old(Valid()) ==> Valid()
    {
      progress := progress.(hearts := MinInt(progress.maxHearts, progress.hearts + 1));
    }

    method EnqueueSRS(exerciseId: string, correct: bool, now: int)
      modifies this
      ensures progress == old(progress).(srs := Enqueue(old(progress).srs, exerciseId, correct, now))
      ensures lessonHearts == old(lessonHearts) && lessonXP == old(lessonXP)
      ensures currentLesson == old(currentLesson) && currentExercise == old(currentExercise)
      ensures skills == old(skills) && lessons == old(lessons) && exercises == old(exercises)
      ensures old(Valid()) ==> Valid()
    {
      EnqueueValid(progress.srs, exerciseId, correct, now);
      var k := Seqs.FindIndex(progress.srs, HasId(exerciseId));
      if k >= 0 {
        var newSrs := progress.srs[k := Reviewed(progress.srs[k], correct, now)];
        progress := progress.(srs := newSrs);
      } else {
        progress := progress.(srs := progress.srs + [NewItem(exerciseId, correct, now)]);
      }
    }

    method DequeueSRS(exerciseId: string)
      modifies this
      ensures progress == old(progress).(srs := Dequeue(old(progress).srs, exerciseId))
      ensures lessonHearts == old(lessonHearts) && lessonXP == old(lessonXP)
      ensures currentLesson == old(currentLesson) && currentExercise == old(currentExercise)
      ensures skills == old(skills) && lessons == old(lessons) && exercises == old(exercises)
      ensures old(Valid()) ==> Valid()
    {
      if SrsValid(progress.srs) {
        DequeueValid(progress.srs, exerciseId);
      }
      progress := progress.(srs := Seqs.Filter(progress.srs, LacksId(exerciseId)));
    }

    /**
     * `submitAnswer`: false with nothing changed when the exercise is unknown, and the check's
     * TypeError with nothing changed when it throws; otherwise a right answer earns a lesson
     * point, a wrong one costs a heart, and either is queued for review.
     */
    method SubmitAnswer(exerciseId: string, answer: Answer, now: int) returns (r: Result<bool, string>)
      modifies this
      ensures AnswerOutcome(exercises, exerciseId, answer).None? ==> r == Ok(false)
      ensures AnswerOutcome(exercises, exerciseId, answer).Some? ==> r == AnswerOutcome(exercises, exerciseId, answer).value
      ensures AnswerOutcome(exercises, exerciseId, answer).None? || r.Err? ==>
        progress == old(progress) && lessonHearts == old(lessonHearts) && lessonXP == old(lessonXP)
      ensures AnswerOutcome(exercises, exerciseId, answer).Some? && r.Ok? ==>
        && progress.srs == Enqueue(old(progress).srs, exerciseId, r.value, now)
        && progress.hearts == (if r.value then old(progress).hearts else MaxInt(0, old(progress).hearts - 1))
        && lessonHearts == (if r.value then old(lessonHearts) else MaxInt(0, old(lessonHearts) - 1))
        && lessonXP == old(lessonXP) + (if r.value then 1 else 0)
        && progress == old(progress).(hearts := progress.hearts, srs := progress.srs)
      ensures currentLesson == old(currentLesson) && currentExercise == old(currentExercise)
      ensures skills == old(skills) && lessons == old(lessons) && exercises == old(exercises)
      ensures old(Valid()) ==> Valid()
    {
      if exercises.None? {
        return Ok(false);
      }
      var exercise := Seqs.Find(exercises.value, ExerciseNamed(exerciseId));
      if exercise.None? {
        return Ok(false);
      }
      r := CheckAnswer(exercise.value, answer);
      if r.Err? {
        return;
      }
      if r.value {
        lessonXP := lessonXP + 1;
      } else {
        LoseHeart();
      }
      EnqueueSRS(exerciseId, r.value, now);
    }

    /**
     * `completeLesson`: nothing when the lessons are not loaded or the id is unknown; otherwise the
     * progress of `CompletedProgress` and no current lesson.
     */
    method CompleteLesson(lessonId: string, perfect: bool)
      modifies this
      ensures lessons.None? || Seqs.Find(lessons.value, (l: Lesson) => l.id == lessonId).None? ==>
        progress == old(progress) && currentLesson == old(currentLesson) && currentExercise == old(currentExercise)
      ensures lessons.Some? && Seqs.Find(lessons.value, (l: Lesson) => l.id == lessonId).Some? ==>
        && progress == CompletedProgress(old(progress), skills, Seqs.Find(lessons.value, (l: Lesson) => l.id == lessonId).value, perfect)
        && LessonStatusOf(progress.lessonStatus, lessonId) == (if perfect then Perfect else Passed)
        && currentLesson == None && currentExercise == None
      ensures lessonHearts == old(lessonHearts) && lessonXP == old(lessonXP)
      ensures skills == old(skills) && lessons == old(lessons) && exercises == old(exercises)
      ensures old(Valid()) ==> Valid()
    {
      if lessons.None? {
        return;
      }
      var lesson := Seqs.Find(lessons.value, (l: Lesson) => l.id == lessonId);
      if lesson.None? {
        return;
      }
      CompletedProgressValid(progress, skills, lesson.value, perfect);
      CompletedProgressSpec(progress, skills, lesson.value, perfect);
      progress := CompletedProgress(progress, skills, lesson.value, perfect);
      currentLesson := None;
      currentExercise := None;
    }

    /** Full hearts, and today marked active. */
    method RefillDaily(now: string)
      modifies this
      ensures progress == old(progress).(hearts := old(progress).maxHearts, lastActiveISO := Some(now))
      ensures lessonHearts == old(lessonHearts) && lessonXP == old(lessonXP)
      ensures currentLesson == old(currentLesson) && currentExercise == old(currentExercise)
      ensures skills == old(skills) && lessons == old(lessons) && exercises == old(exercises)
      ensures old(Valid()) ==> Valid()
    {
      progress := progress.(hearts := progress.maxHearts, lastActiveISO := Some(now));
    }

    method AwardXP(amount: int)
      modifies this
      ensures progress == old(progress).(xp := old(progress).xp + amount)
      ensures lessonHearts == old(lessonHearts) && lessonXP == old(lessonXP)
      ensures currentLesson == old(currentLesson) && currentExercise == old(currentExercise)
      ensures skills == old(skills) && lessons == old(lessons) && exercises == old(exercises)
      ensures old(Valid()) ==> Valid()
    {
      progress := progress.(xp := progress.xp + amount);
    }

    method IncrementStreak(now: string)
      modifies this
      ensures progress == StreakBumped(old(progress), now)
      ensures lessonHearts == old(lessonHearts) && lessonXP == old(lessonXP)
      ensures currentLesson == old(currentLesson) && currentExercise == old(currentExercise)
      ensures skills == old(skills) && lessons == old(lessons) && exercises == old(exercises)
      ensures old(Valid()) ==> Valid()
    {
      if !ActiveToday(progress, now) {
        progress := progress.(streakDays := progress.streakDays + 1, lastActiveISO := Some(now));
      }
    }

    method ResetProgress()
      modifies this
      ensures progress == DefaultProgress && lessonHearts == 5 && lessonXP == 0
      ensures currentLesson == None && currentExercise == None
      ensures skills == old(skills) && lessons == old(lessons) && exercises == old(exercises)
      ensures Valid()
    {
      progress := DefaultProgress;
      currentLesson := None;
      currentExercise := None;
      lessonHearts := 5;
      lessonXP := 0;
    }
  }
}
