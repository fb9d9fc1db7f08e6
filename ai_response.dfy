/**
 * The chat assistant of `components/ai-chat/ai-response-generator.ts`: the figures it derives from
 * the user's data (`analyzeFinancialData`), the months to the savings goal, the keyword routing
 * of a message to one of six reply builders or the default reply, and the builders themselves.
 * A reply is modelled by what it reports (the figures, the listed items and which message
 * variant is chosen); the formatted text (`toFixed`, `toLocaleString`, emoji) is not modelled.
 */
module AiResponse {
  import opened Wrappers
  import opened FinanceTypes
  import opened JsNumbers
  import Strings
  import Seqs
  import Analytics
  import Calendar
  import Gamification
  import Insights

  // ---- analysis ----

  /** `calculateMonthsToGoal`: `Infinity` or a whole number of months. */
  datatype Months = Never | InMonths(n: int)

  datatype Analysis = Analysis(
    totalIncome: real,
    totalExpenses: real,
    netSavings: real,
    savingsRate: real,
    categorySpending: seq<CategorySpending>,
    goalProgress: Num,
    monthsToGoal: Option<Months>,
    recentTransactions: seq<Transaction>,
    level: int,
    streak: nat)

  /**
   * `calculateMonthsToGoal(goal, monthlySavings)`: never without positive savings, otherwise the
   * remaining amount over the savings, rounded up.
   */
  function CalculateMonthsToGoal(goal: Goal, monthlySavings: real): Months {
    if monthlySavings <= 0.0 then Never
    else InMonths(Ceil((goal.targetAmount - goal.currentAmount) / monthlySavings))
  }

  /**
   * The months to the goal are the fewest whole months of savings that cover the remaining
   * amount: `n` months cover it and `n - 1` do not.
   */
  lemma MonthsToGoalSpec(goal: Goal, monthlySavings: real)
    ensures var m := CalculateMonthsToGoal(goal, monthlySavings);
      var remaining := goal.targetAmount - goal.currentAmount;
      && (m.Never? <==> monthlySavings <= 0.0)
      && (m.InMonths? ==> (m.n - 1) as real * monthlySavings < remaining)
      && (m.InMonths? ==> remaining <= m.n as real * monthlySavings)
  {
    if monthlySavings > 0.0 {
      var remaining := goal.targetAmount - goal.currentAmount;
      var n := Ceil(remaining / monthlySavings);
      assert CalculateMonthsToGoal(goal, monthlySavings) == InMonths(n);
      CeilCovers(remaining, monthlySavings);
    }
  }

  /** `Math.ceil(remaining / k)` multiples of a positive `k` cover `remaining`, one fewer does not. */
  lemma CeilCovers(remaining: real, k: real)
    requires k > 0.0
    ensures (Ceil(remaining / k) - 1) as real * k < remaining <= Ceil(remaining / k) as real * k
  {
    var x := remaining / k;
    Analytics.DivTimes(remaining, k);
    CoverBounds(remaining, k, x, Ceil(x));
  }

  /** If `x` multiples of `k` make `remaining`, then so do at most `n` and fewer than `n - 1`. */
  lemma CoverBounds(remaining: real, k: real, x: real, n: int)
    requires k > 0.0 && x * k == remaining && (n - 1) as real < x <= n as real
    ensures (n - 1) as real * k < remaining <= n as real * k
  {
    var lo, hi := (n - 1) as real, n as real;
    assert lo * k < x * k by { Analytics.MultiplyPositive(lo, x, k); }
    assert x * k <= hi * k by { Analytics.MultiplyPositive(x, hi, k); }
  }

  /** The percentage of the goal reached (`currentAmount / targetAmount * 100`), 0 without a goal. */
  function GoalProgressOf(goal: Option<Goal>): Num {
    if goal.Some? then Scale(Div(goal.value.currentAmount, goal.value.targetAmount), 100.0)
    else Finite(0.0)
  }

  /** The sort key of "newest first": the later the date, the smaller the key. */
  function NewestFirst(t: Transaction): real {
    -(Calendar.DayNumber(t.date) as real)
  }

  /** The debits, newest first (stably), cut to the first ten. */
  function RecentOf(txns: seq<Transaction>): seq<Transaction> {
    var sorted := Seqs.SortBy(Analytics.Debits(txns), NewestFirst);
    sorted[..MinInt(10, |sorted|)]
  }

  /** What `analyzeFinancialData` returns for these transactions, goal and gamification data. */
  function AnalysisOf(txns: seq<Transaction>, goal: Option<Goal>, g: Gamification.GamificationData): Analysis {
    var income := Analytics.Total(Analytics.Credits(txns));
    var expenses := Analytics.Total(Analytics.Debits(txns));
    Analysis(income, expenses, income - expenses, Analytics.SavingsRate(income - expenses, income),
             Analytics.CategorySpendingOf(txns), GoalProgressOf(goal),
             if goal.Some? then Some(CalculateMonthsToGoal(goal.value, income - expenses)) else None,
             RecentOf(txns), g.level, g.streak)
  }

  function DebitIn(c: Category): Transaction -> bool {
    (t: Transaction) => t.category == c && t.kind == Debit
  }

  /**
   * Counting the debits of category `c` over all transactions, as `analyzeFinancialData` does,
   * gives the count the grouping of the debits keeps.
   */
  lemma {:induction false} DebitCount(txns: seq<Transaction>, c: Category)
    ensures |Seqs.Filter(txns, DebitIn(c))| == Analytics.KeyCount(Analytics.Debits(txns), Analytics.CategoryOf, c)
    decreases |txns|
  {
    if txns != [] {
      var n := |txns| - 1;
      var front, last := txns[..n], txns[n];
      assert txns == front + [last];
      DebitCount(front, c);
      DebitInSnoc(front, last, c);
      KeyCountSnoc(front, last, c);
    }
  }

  lemma DebitInSnoc(front: seq<Transaction>, last: Transaction, c: Category)
    ensures |Seqs.Filter(front + [last], DebitIn(c))|
         == |Seqs.Filter(front, DebitIn(c))| + (if last.kind == Debit && last.category == c then 1 else 0)
  {
    Seqs.FilterAppend(front, [last], DebitIn(c));
    assert Seqs.Filter([last], DebitIn(c)) == if last.kind == Debit && last.category == c then [last] else [];
  }

  lemma KeyCountSnoc(front: seq<Transaction>, last: Transaction, c: Category)
    ensures Analytics.KeyCount(Analytics.Debits(front + [last]), Analytics.CategoryOf, c)
         == Analytics.KeyCount(Analytics.Debits(front), Analytics.CategoryOf, c)
            + (if last.kind == Debit && last.category == c then 1 else 0)
  {
    Seqs.FilterAppend(front, [last], IsDebit);
    var d0 := Analytics.Debits(front);
    if last.kind == Debit {
      assert Seqs.Filter([last], IsDebit) == [last];
      assert Analytics.Debits(front + [last]) == d0 + [last];
      KeyCountTail(d0, last, c);
    } else {
      assert Seqs.Filter([last], IsDebit) == [];
      assert Analytics.Debits(front + [last]) == d0;
    }
  }

  lemma KeyCountTail(xs: seq<Transaction>, x: Transaction, c: Category)
    ensures Analytics.KeyCount(xs + [x], Analytics.CategoryOf, c)
         == Analytics.KeyCount(xs, Analytics.CategoryOf, c) + (if x.category == c then 1 else 0)
  {
    assert (xs + [x])[..|xs|] == xs;
  }

  /**
   * The category breakdown of `analyzeFinancialData`: the debit amounts summed per category in
   * a map, one entry per category with its share of `totalExpenses` and its count of debits
   * over all transactions, sorted by amount from largest down. It is the breakdown of
   * `calculateCategorySpending`.
   */
  method CategoryBreakdown(transactions: seq<Transaction>) returns (categorySpending: seq<CategorySpending>)
    ensures categorySpending == Analytics.CategorySpendingOf(transactions)
  {
    var expenses := Analytics.Debits(transactions);
    var totalExpenses := Analytics.Total(expenses);
    var categories, categoryTotals := Analytics.Tally(expenses, Analytics.CategoryOf);
    var entries: seq<CategorySpending> := [];
    var j := 0;
    while j < |categories|
      invariant 0 <= j <= |categories|
      invariant |entries| == j
      invariant forall k :: 0 <= k < j ==> entries[k] == Analytics.Entry(categories[k], expenses, totalExpenses)
    {
      var category := categories[j];
      var amount := categoryTotals[category].amount;
      var transactionCount := |Seqs.Filter(transactions, DebitIn(category))|;
      DebitCount(transactions, category);
      var entry := CategorySpending(category, amount, Analytics.Percent(amount, totalExpenses), transactionCount);
      assert entry == Analytics.Entry(category, expenses, totalExpenses);
      entries := entries + [entry];
      j := j + 1;
    }
    assert entries == Analytics.Entries(categories, expenses, totalExpenses);
    categorySpending := Seqs.SortBy(entries, Analytics.NegAmount);
  }

  /**
   * `analyzeFinancialData`: totals and savings rate, the category breakdown, the goal figures,
   * and the ten newest debits; the level and streak are copied from the gamification data.
   */
  method AnalyzeFinancialData(transactions: seq<Transaction>, goal: Option<Goal>,
                              gamification: Gamification.GamificationData) returns (analysis: Analysis)
    ensures analysis == AnalysisOf(transactions, goal, gamification)
  {
    var expenses := Analytics.Debits(transactions);
    var totalIncome := Analytics.Total(Analytics.Credits(transactions));
    var totalExpenses := Analytics.Total(expenses);
    var netSavings := totalIncome - totalExpenses;
    var savingsRate := if totalIncome > 0.0 then netSavings / totalIncome * 100.0 else 0.0;
    assert savingsRate == Analytics.SavingsRate(netSavings, totalIncome);
    var categorySpending := CategoryBreakdown(transactions);

    var goalProgress := if goal.Some? then Scale(Div(goal.value.currentAmount, goal.value.targetAmount), 100.0)
                        else Finite(0.0);
    var monthsToGoal := if goal.Some? then Some(CalculateMonthsToGoal(goal.value, netSavings)) else None;
    var sorted := Seqs.SortBy(expenses, NewestFirst);
    var recentTransactions := sorted[..MinInt(10, |sorted|)];
    assert goalProgress == GoalProgressOf(goal);
    assert recentTransactions == RecentOf(transactions);

    analysis := Analysis(totalIncome, totalExpenses, netSavings, savingsRate, categorySpending,
                         goalProgress, monthsToGoal, recentTransactions, gamification.level, gamification.streak);
  }

  /**
   * The figures of the analysis: the net is income less expenses, income and expenses add up
   * to all amounts, and the months to the goal are known exactly when there is a goal.
   */
  lemma AnalysisSpec(txns: seq<Transaction>, goal: Option<Goal>, g: Gamification.GamificationData)
    ensures var a := AnalysisOf(txns, goal, g);
      && a.netSavings == a.totalIncome - a.totalExpenses
      && a.totalIncome + a.totalExpenses == Analytics.Total(txns)
      && (a.monthsToGoal.Some? <==> goal.Some?)
      && a.level == g.level && a.streak == g.streak
  {
    var a := AnalysisOf(txns, goal, g);
    assert a.totalIncome == Analytics.Total(Analytics.Credits(txns));
    assert a.totalExpenses == Analytics.Total(Analytics.Debits(txns));
    Analytics.CreditsAndDebits(txns);
  }

  /** The breakdown of the analysis is sorted by amount from largest down and adds up to the expenses. */
  lemma AnalysisCategories(txns: seq<Transaction>, goal: Option<Goal>, g: Gamification.GamificationData)
    ensures var a := AnalysisOf(txns, goal, g);
      && (forall i, j :: 0 <= i < j < |a.categorySpending| ==>
            a.categorySpending[i].amount >= a.categorySpending[j].amount)
      && Seqs.Sum(a.categorySpending, Analytics.EntryAmount) == a.totalExpenses
  {
    var a := AnalysisOf(txns, goal, g);
    assert a.categorySpending == Analytics.CategorySpendingOf(txns);
    assert a.totalExpenses == Analytics.Total(Analytics.Debits(txns));
    Analytics.CategorySpendingOrder(txns);
    Analytics.CategorySpendingSums(txns);
  }

  /**
   * The recent transactions: at most ten, all debits of the input, newest first, and ten of
   * them whenever there are ten debits.
   */
  lemma RecentSpec(txns: seq<Transaction>)
    ensures var r := RecentOf(txns);
      var debits := Analytics.Debits(txns);
      && |r| == MinInt(10, |debits|)
      && (forall i | 0 <= i < |r| :: r[i].kind == Debit && r[i] in txns)
      && (forall i, j | 0 <= i < j < |r| :: Calendar.DayNumber(r[i].date) >= Calendar.DayNumber(r[j].date))
  {
    var debits := Analytics.Debits(txns);
    var sorted := Seqs.SortBy(debits, NewestFirst);
    var r := RecentOf(txns);
    Seqs.SortBySorted(debits, NewestFirst);
    Seqs.FilterMembers(txns, IsDebit);
    forall i | 0 <= i < |r|
      ensures r[i].kind == Debit && r[i] in txns
    {
      assert r[i] == sorted[i];
      assert sorted[i] in multiset(debits);
    }
    forall i, j | 0 <= i < j < |r|
      ensures Calendar.DayNumber(r[i].date) >= Calendar.DayNumber(r[j].date)
    {
      assert NewestFirst(sorted[i]) <= NewestFirst(sorted[j]);
    }
  }

  /** No debit left out of the recent transactions is newer than one shown. */
  lemma RecentComplete(txns: seq<Transaction>)
    ensures var r := RecentOf(txns);
      forall t | t in Analytics.Debits(txns) ::
        t in r || forall i | 0 <= i < |r| :: Calendar.DayNumber(t.date) <= Calendar.DayNumber(r[i].date)
  {
    var debits := Analytics.Debits(txns);
    var sorted := Seqs.SortBy(debits, NewestFirst);
    var k := MinInt(10, |sorted|);
    Seqs.SortBySorted(debits, NewestFirst);
    Seqs.SortedPrefix(sorted, NewestFirst, k);
    forall t | t in debits
      ensures t in sorted
    {
      assert t in multiset(debits);
    }
  }

  // ---- routing ----

  /** The reply builders, in the order `generateContextualResponse` tries them. */
  datatype Route = GoalRoute | SpendingRoute | SavingsRoute | InsightsRoute | OverviewRoute | RecentRoute | DefaultRoute

  function RouteRank(r: Route): nat {
    match r
    case GoalRoute => 0
    case SpendingRoute => 1
    case SavingsRoute => 2
    case InsightsRoute => 3
    case OverviewRoute => 4
    case RecentRoute => 5
    case DefaultRoute => 6
  }

  /** The words that select a builder; the default reply has none. */
  function Keywords(r: Route): seq<string> {
    match r
    case GoalRoute => ["goal", "target", "progress"]
    case SpendingRoute => ["spend", "expense", "category", "budget"]
    case SavingsRoute => ["save", "saving", "money"]
    case InsightsRoute => ["insight", "advice", "recommend"]
    case OverviewRoute => ["how am i doing", "financial health", "overview"]
    case RecentRoute => ["recent", "latest", "transaction"]
    case DefaultRoute => []
  }

  /** Some keyword of `r` occurs in the lower-cased message `m`. */
  predicate Mentions(m: string, r: Route) {
    exists i | 0 <= i < |Keywords(r)| :: Strings.Contains(m, Keywords(r)[i])
  }

  /** The routing of `generateContextualResponse`: the first builder whose keywords occur in the lower-cased message. */
  function RouteOf(userMessage: string): (r: Route)
    ensures var m := Strings.ToLower(userMessage);
      && (r == DefaultRoute <==> forall q :: !Mentions(m, q))
      && (r != DefaultRoute ==> Mentions(m, r))
      && (forall q | RouteRank(q) < RouteRank(r) :: !Mentions(m, q))
  {
    var m := Strings.ToLower(userMessage);
    if Mentions(m, GoalRoute) then GoalRoute
    else if Mentions(m, SpendingRoute) then SpendingRoute
    else if Mentions(m, SavingsRoute) then SavingsRoute
    else if Mentions(m, InsightsRoute) then InsightsRoute
    else if Mentions(m, OverviewRoute) then OverviewRoute
    else if Mentions(m, RecentRoute) then RecentRoute
    else DefaultRoute
  }

  lemma LowerIdempotent(s: string)
    ensures Strings.ToLower(Strings.ToLower(s)) == Strings.ToLower(s)
    ensures Strings.ToLower(Strings.ToUpper(s)) == Strings.ToLower(s)
  {
    var l, u := Strings.ToLower(s), Strings.ToUpper(s);
    assert forall i | 0 <= i < |s| :: Strings.ToLower(l)[i] == l[i];
    assert forall i | 0 <= i < |s| :: Strings.ToLower(u)[i] == l[i];
  }

  /** The routing ignores case: an upper-cased or lower-cased message goes where the original goes. */
  lemma RouteIgnoresCase(userMessage: string)
    ensures RouteOf(Strings.ToUpper(userMessage)) == RouteOf(userMessage)
    ensures RouteOf(Strings.ToLower(userMessage)) == RouteOf(userMessage)
  {
    LowerIdempotent(userMessage);
  }

  /** Example, used by the next one: where the two phrases sit in the lower-cased goal question. */
  lemma LowerGoalQuestion(userMessage: string)
    requires userMessage == "How am I doing with my financial goals?"
    ensures Strings.ToLower(userMessage)[..14] == "how am i doing"
    ensures Strings.ToLower(userMessage)[33..37] == "goal"
  {
    var m := Strings.ToLower(userMessage);
    assert Strings.LowerChar('H') == 'h' && Strings.LowerChar('I') == 'i';
    assert forall i | 0 <= i < 14 :: m[i] == "how am i doing"[i];
    assert forall i | 33 <= i < 37 :: m[i] == "goal"[i - 33];
  }

  /**
   * Example of the order deciding: "How am I doing with my financial goals?" holds an overview
   * phrase but also "goal", so it gets the goal reply.
   */
  lemma GoalQuestionRoutesToGoal(userMessage: string)
    requires userMessage == "How am I doing with my financial goals?"
    ensures Mentions(Strings.ToLower(userMessage), OverviewRoute)
    ensures RouteOf(userMessage) == GoalRoute
  {
    LowerGoalQuestion(userMessage);
    var m := Strings.ToLower(userMessage);
    Strings.ContainsIff(m, "goal");
    assert Strings.OccursAt(m, "goal", 33);
    assert Keywords(GoalRoute)[0] == "goal";
    Strings.ContainsIff(m, "how am i doing");
    assert Strings.OccursAt(m, "how am i doing", 0);
    assert Keywords(OverviewRoute)[0] == "how am i doing";
  }

  // ---- replies ----

  /** The three savings-rate messages of the savings and overview replies. */
  datatype Tier = Excellent | Good | NeedsWork

  /** 20% and up is excellent, 10% and up good. */
  function TierOf(savingsRate: real): (t: Tier)
    ensures t == Excellent <==> savingsRate >= 20.0
    ensures t == Good <==> 10.0 <= savingsRate < 20.0
    ensures t == NeedsWork <==> savingsRate < 10.0
  {
    if savingsRate >= 20.0 then Excellent else if savingsRate >= 10.0 then Good else NeedsWork
  }

  /** The closing message of the goal reply. */
  datatype Outlook = NotSavingEnough | OnTrack(months: int) | Steady(months: int)

  datatype Reply =
    | GeneralHelp
    | NoGoalSet
    | GoalStatus(name: string, target: real, current: real, progress: Num, outlook: Outlook)
    | SpendingBreakdown(top: seq<CategorySpending>, totalExpenses: real, biggest: Option<CategorySpending>)
    | SavingsSummary(netSavings: real, savingsRate: real, totalIncome: real, tier: Tier)
    | NoInsights
    | InsightList(highPriority: seq<Insights.Insight>, opportunities: seq<Insights.Insight>)
    | Overview(netSavings: real, savingsRate: real, goalProgress: Num, level: int, streak: nat, tier: Tier)
    | NoRecent
    | RecentList(items: seq<Transaction>)

  datatype AIResponse = AIResponse(content: Reply, suggestions: seq<string>)

  /** The data the chat widget passes in; the user record is not read by any reply. */
  datatype FinancialData = FinancialData(
    transactions: seq<Transaction>,
    goal: Option<Goal>,
    gamification: Gamification.GamificationData,
    insights: seq<Insights.Insight>)

  const DefaultSuggestions: seq<string> := [
    "How am I doing with my financial goals?",
    "What are my biggest spending categories?",
    "How can I save more money?",
    "Show me my recent transactions"]

  /** The outlook for months to the goal: not saving, within a year, or longer. */
  function OutlookOf(m: Months): Outlook {
    match m
    case Never => NotSavingEnough
    case InMonths(n) => if n <= 12 then OnTrack(n) else Steady(n)
  }

  /**
   * `generateGoalResponse`. The analysis has months to the goal whenever there is a goal, which
   * holds for the analysis of the same data that the only caller passes.
   */
  function GoalResponse(analysis: Analysis, goal: Option<Goal>): (r: AIResponse)
    requires goal.Some? ==> analysis.monthsToGoal.Some?
    ensures goal.None? <==> r.content == NoGoalSet
    ensures goal.Some? ==>
      r.content.GoalStatus? && r.content.name == goal.value.name
      && r.content.outlook == OutlookOf(analysis.monthsToGoal.value)
  {
    match goal
    case None =>
      AIResponse(NoGoalSet, ["How do I set a financial goal?", "What should my goal amount be?"])
    case Some(g) =>
      AIResponse(GoalStatus(g.name, g.targetAmount, g.currentAmount, analysis.goalProgress,
                            OutlookOf(analysis.monthsToGoal.value)),
                 ["How can I reach my goal faster?", "Should I adjust my goal amount?", "What's my savings rate?"])
  }

  /**
   * The outlook at monthly savings `s`: on track exactly when `s` is positive and covers the
   * remaining amount within twelve months, in the months `calculateMonthsToGoal` gives; not
   * saving enough exactly when `s` is not positive.
   */
  lemma OutlookSpec(goal: Goal, s: real)
    ensures var o := OutlookOf(CalculateMonthsToGoal(goal, s));
      var remaining := goal.targetAmount - goal.currentAmount;
      && (o.OnTrack? <==> s > 0.0 && remaining <= 12.0 * s)
      && (o.NotSavingEnough? <==> s <= 0.0)
      && (!o.NotSavingEnough? ==> o.months == Ceil(remaining / s))
  {
    var remaining := goal.targetAmount - goal.currentAmount;
    if s > 0.0 {
      var x := remaining / s;
      assert x * s == remaining;
      var n := Ceil(x);
      if remaining <= 12.0 * s {
        assert x <= 12.0 by {
          if x > 12.0 {
            Analytics.MultiplyPositive(12.0, x, s);
          }
        }
        assert n <= 12;
      } else {
        assert x > 12.0 by {
          if x <= 12.0 {
            Analytics.MultiplyPositive(x, 12.0, s);
          }
        }
      }
    }
  }

  /** The goal reply for the user's own data has the outlook of their net savings. */
  lemma GoalOutlookSpec(txns: seq<Transaction>, goal: Goal, g: Gamification.GamificationData)
    ensures var a := AnalysisOf(txns, Some(goal), g);
      var o := GoalResponse(a, Some(goal)).content.outlook;
      var remaining := goal.targetAmount - goal.currentAmount;
      && (o.OnTrack? <==> a.netSavings > 0.0 && remaining <= 12.0 * a.netSavings)
      && (o.NotSavingEnough? <==> a.netSavings <= 0.0)
  {
    var a := AnalysisOf(txns, Some(goal), g);
    assert a.monthsToGoal == Some(CalculateMonthsToGoal(goal, a.netSavings));
    OutlookSpec(goal, a.netSavings);
  }

  const SpendingSuggestions: seq<string> := [
    "How can I reduce my spending?",
    "What's a good budget for each category?",
    "Show me my recent transactions"]

  /** The top three categories (fewer when there are fewer). */
  function TopCategories(entries: seq<CategorySpending>): (top: seq<CategorySpending>)
    ensures |top| == MinInt(3, |entries|) && top == entries[..|top|]
  {
    entries[..MinInt(3, |entries|)]
  }

  /**
   * `generateSpendingResponse` as written: it reads the percentage of the first of the top
   * categories, which is `undefined` with no categories, so the reply fails with a `TypeError`.
   */
  function SpendingResponseAsWritten(analysis: Analysis): Result<AIResponse, string> {
    var top := TopCategories(analysis.categorySpending);
    if |top| == 0 then Err("TypeError: cannot read properties of undefined (reading 'percentage')")
    else
      var biggest := if top[0].percentage > 30.0 then Some(top[0]) else None;
      Ok(AIResponse(SpendingBreakdown(top, analysis.totalExpenses, biggest), SpendingSuggestions))
  }

  /** Without any debit there is no category, and the spending reply as written fails. */
  lemma NoDebitsCrashesAsWritten(txns: seq<Transaction>, goal: Option<Goal>, g: Gamification.GamificationData)
    requires forall i | 0 <= i < |txns| :: txns[i].kind == Credit
    ensures SpendingResponseAsWritten(AnalysisOf(txns, goal, g)).Err?
  {
    Seqs.FilterNone(txns, IsDebit);
    assert Analytics.FirstKeys(Analytics.Debits(txns), Analytics.CategoryOf) == [];
  }

  /** The spending reply with the highlight only when there is a first category: it never fails. */
  function SpendingResponse(analysis: Analysis): (r: AIResponse)
    ensures r.content.SpendingBreakdown?
    ensures r.content.top == TopCategories(analysis.categorySpending)
    ensures r.content.biggest.Some? <==>
      |analysis.categorySpending| > 0 && analysis.categorySpending[0].percentage > 30.0
    ensures r.content.biggest.Some? ==> r.content.biggest.value == analysis.categorySpending[0]
  {
    var top := TopCategories(analysis.categorySpending);
    var biggest := if |top| > 0 && top[0].percentage > 30.0 then Some(top[0]) else None;
    AIResponse(SpendingBreakdown(top, analysis.totalExpenses, biggest), SpendingSuggestions)
  }

  /** The corrected reply is the reply as written wherever that one does not fail. */
  lemma SpendingResponseAgrees(analysis: Analysis)
    ensures SpendingResponseAsWritten(analysis).Ok? ==>
      SpendingResponseAsWritten(analysis).value == SpendingResponse(analysis)
    ensures SpendingResponseAsWritten(analysis).Err? <==> |analysis.categorySpending| == 0
  {
  }

  /**
   * For the user's own data the highlighted category is the one with the largest amount, and
   * the reply lists at most three categories in order of amount.
   */
  lemma SpendingHighlightIsLargest(txns: seq<Transaction>, goal: Option<Goal>, g: Gamification.GamificationData)
    ensures var a := AnalysisOf(txns, goal, g);
      var c := SpendingResponse(a).content;
      && |c.top| <= 3
      && (forall i, j :: 0 <= i < j < |c.top| ==> c.top[i].amount >= c.top[j].amount)
      && (c.biggest.Some? ==> forall e | e in a.categorySpending :: c.biggest.value.amount >= e.amount)
  {
    var a := AnalysisOf(txns, goal, g);
    Analytics.CategorySpendingOrder(txns);
    var cs := a.categorySpending;
    forall e | e in cs
      ensures |cs| > 0 && cs[0].amount >= e.amount
    {
      var k :| 0 <= k < |cs| && cs[k] == e;
      if k > 0 {
        assert cs[0].amount >= cs[k].amount;
      }
    }
  }

  /** `generateSavingsResponse`: the savings figures and the message for the savings-rate tier. */
  function SavingsResponse(analysis: Analysis): (r: AIResponse)
    ensures r.content == SavingsSummary(analysis.netSavings, analysis.savingsRate, analysis.totalIncome,
                                        TierOf(analysis.savingsRate))
  {
    AIResponse(SavingsSummary(analysis.netSavings, analysis.savingsRate, analysis.totalIncome, TierOf(analysis.savingsRate)),
               ["How can I increase my savings rate?", "What should I do with my savings?",
                "How much should I save each month?"])
  }

  function IsHighPriority(i: Insights.Insight): bool {
    i.priority == Insights.High
  }

  function IsOpportunity(i: Insights.Insight): bool {
    i.kind == Insights.Opportunity
  }

  /**
   * `generateInsightsResponse`: a fixed message without insights, otherwise every high-priority
   * insight and the first two opportunities.
   */
  function InsightsResponse(insights: seq<Insights.Insight>): AIResponse {
    if |insights| == 0 then
      AIResponse(NoInsights, ["How can I get more insights?", "What should I track?"])
    else
      var opportunities := Seqs.Filter(insights, IsOpportunity);
      AIResponse(InsightList(Seqs.Filter(insights, IsHighPriority), opportunities[..MinInt(2, |opportunities|)]),
                 ["How can I act on these insights?", "Show me more opportunities", "What should I focus on first?"])
  }

  /**
   * The insights reply lists exactly the high-priority insights, and the first two opportunities
   * (all of them when there are fewer); it says there are none exactly when the list is empty.
   */
  lemma InsightsResponseSpec(insights: seq<Insights.Insight>)
    ensures var c := InsightsResponse(insights).content;
      && (c == NoInsights <==> |insights| == 0)
      && (c.InsightList? ==>
            && (forall x :: x in c.highPriority <==> x in insights && x.priority == Insights.High)
            && |c.opportunities| == MinInt(2, |Seqs.Filter(insights, IsOpportunity)|)
            && c.opportunities == Seqs.Filter(insights, IsOpportunity)[..|c.opportunities|]
            && (forall x | x in c.opportunities :: x in insights && x.kind == Insights.Opportunity))
  {
    Seqs.FilterMembers(insights, IsHighPriority);
    Seqs.FilterMembers(insights, IsOpportunity);
    var opportunities := Seqs.Filter(insights, IsOpportunity);
    var shown := opportunities[..MinInt(2, |opportunities|)];
    assert forall x | x in shown :: x in opportunities;
  }

  /** `generateOverviewResponse`: savings, goal progress, level and streak, and the tier message. */
  function OverviewResponse(analysis: Analysis): (r: AIResponse)
    ensures r.content.Overview? && r.content.tier == TierOf(analysis.savingsRate)
    ensures r.content.level == analysis.level && r.content.streak == analysis.streak
  {
    AIResponse(Overview(analysis.netSavings, analysis.savingsRate, analysis.goalProgress, analysis.level,
                        analysis.streak, TierOf(analysis.savingsRate)),
               ["How can I improve my financial health?", "What should I focus on next?",
                "Show me my spending breakdown"])
  }

  /** `generateRecentTransactionsResponse`: a fixed message with none, otherwise the first five. */
  function RecentResponse(analysis: Analysis): AIResponse {
    var recent := analysis.recentTransactions;
    if |recent| == 0 then
      AIResponse(NoRecent, ["How do I track transactions?", "What should I monitor?"])
    else
      AIResponse(RecentList(recent[..MinInt(5, |recent|)]),
                 ["Show me spending by category", "What are my biggest expenses?", "How can I reduce spending?"])
  }

  /**
   * The recent-transactions reply: no recent transactions exactly when there are none, otherwise
   * the first five of them (all of them when there are fewer).
   */
  lemma RecentReplySpec(analysis: Analysis)
    ensures var c := RecentResponse(analysis).content;
      var recent := analysis.recentTransactions;
      && (c == NoRecent <==> |recent| == 0)
      && (c.RecentList? ==> |c.items| == MinInt(5, |recent|) && c.items == recent[..|c.items|])
  {
  }

  /**
   * The recent-transactions reply for an analysis of the user's transactions (whose recent list
   * is `RecentOf` of them, as in `AnalysisOf`): no recent transactions exactly when there is no
   * debit; otherwise at most five debits, newest first, five whenever there are five.
   */
  lemma RecentResponseSpec(txns: seq<Transaction>, analysis: Analysis)
    requires analysis.recentTransactions == RecentOf(txns)
    ensures var c := RecentResponse(analysis).content;
      var debits := Analytics.Debits(txns);
      && (c == NoRecent <==> |debits| == 0)
      && (c.RecentList? ==>
            && |c.items| == MinInt(5, |debits|)
            && (forall i | 0 <= i < |c.items| :: c.items[i].kind == Debit && c.items[i] in txns)
            && (forall i, j | 0 <= i < j < |c.items| ::
                  Calendar.DayNumber(c.items[i].date) >= Calendar.DayNumber(c.items[j].date)))
  {
    var r := RecentOf(txns);
    RecentSpec(txns);
    RecentReplySpec(analysis);
    var c := RecentResponse(analysis).content;
    if c.RecentList? {
      assert forall i | 0 <= i < |c.items| :: c.items[i] == r[i];
    }
  }

  /**
   * `generateContextualResponse`: the reply of the builder the message routes to. The spending
   * builder is the one as written, so with no category the reply is the error it throws.
   */
  function ContextualResponse(userMessage: string, analysis: Analysis, data: FinancialData): Result<AIResponse, string>
    requires data.goal.Some? ==> analysis.monthsToGoal.Some?
  {
    match RouteOf(userMessage)
    case GoalRoute => Ok(GoalResponse(analysis, data.goal))
    case SpendingRoute => SpendingResponseAsWritten(analysis)
    case SavingsRoute => Ok(SavingsResponse(analysis))
    case InsightsRoute => Ok(InsightsResponse(data.insights))
    case OverviewRoute => Ok(OverviewResponse(analysis))
    case RecentRoute => Ok(RecentResponse(analysis))
    case DefaultRoute =>
      Ok(AIResponse(GeneralHelp, DefaultSuggestions))
  }

  /**
   * `generateAIResponse`: analyse the data, then answer the message from the analysis. The
   * reply fails exactly when the message routes to the spending builder and there is no debit.
   */
  function GenerateAIResponse(userMessage: string, data: FinancialData): (r: Result<AIResponse, string>)
    ensures r.Err? <==> RouteOf(userMessage) == SpendingRoute && |Analytics.Debits(data.transactions)| == 0
    ensures r.Ok? && RouteOf(userMessage) == SpendingRoute ==>
      r.value == SpendingResponse(AnalysisOf(data.transactions, data.goal, data.gamification))
  {
    var analysis := AnalysisOf(data.transactions, data.goal, data.gamification);
    assert data.goal.Some? ==> analysis.monthsToGoal.Some?;
    Analytics.NoCategoriesIffNoDebits(data.transactions);
    ResponseFollowsRoute(userMessage, analysis, data);
    SpendingResponseAgrees(analysis);
    ContextualResponse(userMessage, analysis, data)
  }

  /**
   * The kind of reply follows the route: the goal builder gives the goal or no-goal reply, the
   * default route the general help, and so on for each builder. The only failure is the
   * spending builder's with no category.
   */
  lemma ResponseFollowsRoute(userMessage: string, analysis: Analysis, data: FinancialData)
    requires data.goal.Some? ==> analysis.monthsToGoal.Some?
    ensures var res := ContextualResponse(userMessage, analysis, data);
      var r := RouteOf(userMessage);
      && (res.Err? <==> r == SpendingRoute && |analysis.categorySpending| == 0)
      && (res.Ok? ==>
            var c := res.value.content;
            && (r == GoalRoute <==> c.GoalStatus? || c.NoGoalSet?)
            && (r == SpendingRoute <==> c.SpendingBreakdown?)
            && (r == SavingsRoute <==> c.SavingsSummary?)
            && (r == InsightsRoute <==> c.InsightList? || c.NoInsights?)
            && (r == OverviewRoute <==> c.Overview?)
            && (r == RecentRoute <==> c.RecentList? || c.NoRecent?)
            && (r == DefaultRoute <==> c.GeneralHelp?)
            && (c.NoGoalSet? <==> r == GoalRoute && data.goal.None?))
  {
    var r := RouteOf(userMessage);
    var res := ContextualResponse(userMessage, analysis, data);
    match r
    case GoalRoute =>
    case SpendingRoute =>
      SpendingResponseAgrees(analysis);
    case SavingsRoute =>
    case InsightsRoute =>
      assert res.value.content == InsightsResponse(data.insights).content;
    case OverviewRoute =>
    case RecentRoute =>
      assert res.value.content == RecentResponse(analysis).content;
    case DefaultRoute =>
  }

  /** The goal question of the default suggestions gets the goal reply. */
  lemma GoalSuggestionAnswered(data: FinancialData)
    ensures GenerateAIResponse(DefaultSuggestions[0], data).Ok?
    ensures var c := GenerateAIResponse(DefaultSuggestions[0], data).value.content;
      c.GoalStatus? || c.NoGoalSet?
  {
    GoalQuestionRoutesToGoal(DefaultSuggestions[0]);
  }
}
