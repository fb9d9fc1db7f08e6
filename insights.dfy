/**
 * `generateInsights`: five threshold rules over the transactions and the spending breakdown, each
 * adding at most one insight, always in the same order. The time stamp in the ids and the
 * creation time are arguments; the description texts, which print percentages with `toFixed`,
 * are not modelled.
 */
module Insights {
  import opened Wrappers
  import opened FinanceTypes
  import Seqs
  import Analytics

  datatype InsightType = Opportunity | Warning | Achievement

  datatype Priority = High | Medium | Low

  /** The five rules, in the order they are checked. */
  datatype Topic = DiningTopic | SubscriptionsTopic | ShoppingTopic | UnusualTopic | SavingsRateTopic

  datatype Insight = Insight(
    id: string,
    topic: Topic,
    kind: InsightType,
    title: string,
    potentialSavings: Option<real>,
    category: Option<Category>,
    actionable: bool,
    priority: Priority,
    createdAt: string)

  function Rank(t: Topic): nat {
    match t
    case DiningTopic => 0
    case SubscriptionsTopic => 1
    case ShoppingTopic => 2
    case UnusualTopic => 3
    case SavingsRateTopic => 4
  }

  function IsCategory(c: Category): CategorySpending -> bool {
    (e: CategorySpending) => e.category == c
  }

  /** The first entry of the breakdown for category `c`. */
  function SpendingOf(entries: seq<CategorySpending>, c: Category): Option<CategorySpending> {
    Seqs.Find(entries, IsCategory(c))
  }

  predicate RecurringSubscription(t: Transaction) {
    t.category == Subscriptions && t.isRecurring == Some(true)
  }

  predicate Unusual(t: Transaction) {
    t.isUnusual == Some(true)
  }

  /** The income less the expenses, as a percentage of the income; 0 without income. */
  function SavingsRate(txns: seq<Transaction>): real {
    var income := Analytics.Total(Analytics.Credits(txns));
    var expenses := Analytics.Total(Analytics.Debits(txns));
    Analytics.SavingsRate(income - expenses, income)
  }

  /** A savings rate above 30% means income and expenses under 70% of it. */
  lemma SavingsRateSpec(txns: seq<Transaction>)
    ensures var income := Analytics.Total(Analytics.Credits(txns));
      var expenses := Analytics.Total(Analytics.Debits(txns));
      SavingsRate(txns) > 30.0 <==> income > 0.0 && expenses < 0.7 * income
  {
    var income := Analytics.Total(Analytics.Credits(txns));
    var expenses := Analytics.Total(Analytics.Debits(txns));
    if income > 0.0 {
      Analytics.RateAbove(SavingsRate(txns), income, income - expenses, 30.0);
    }
  }

  /** Whether the rule for `t` fires. */
  predicate Fires(t: Topic, txns: seq<Transaction>, entries: seq<CategorySpending>) {
    match t
    case DiningTopic => SpendingOf(entries, Dining).Some? && SpendingOf(entries, Dining).value.percentage > 15.0
    case SubscriptionsTopic => |Seqs.Filter(txns, RecurringSubscription)| >= 3
    case ShoppingTopic => SpendingOf(entries, Shopping).Some? && SpendingOf(entries, Shopping).value.percentage > 20.0
    case UnusualTopic => |Seqs.Filter(txns, Unusual)| > 0
    case SavingsRateTopic => SavingsRate(txns) > 30.0
  }

  /**
   * The insight the rule for `t` adds: a dining opportunity worth 30% of the dining amount, a
   * subscriptions opportunity worth 30% of the recurring subscriptions' total, a shopping
   * warning, an unusual-transactions warning, and a savings-rate achievement.
   */
  function InsightFor(t: Topic, txns: seq<Transaction>, entries: seq<CategorySpending>,
                      stamp: string, createdAt: string): Insight {
    match t
    case DiningTopic =>
      var amount := if SpendingOf(entries, Dining).Some? then SpendingOf(entries, Dining).value.amount else 0.0;
      Insight("insight-dining-" + stamp, t, Opportunity, "Reduce dining expenses", Some(amount * 0.3),
              Some(Dining), true, High, createdAt)
    case SubscriptionsTopic =>
      var total := Analytics.Total(Seqs.Filter(txns, RecurringSubscription));
      Insight("insight-subscriptions-" + stamp, t, Opportunity, "Review your subscriptions", Some(total * 0.3),
              Some(Subscriptions), true, Medium, createdAt)
    case ShoppingTopic =>
      Insight("insight-shopping-" + stamp, t, Warning, "High shopping expenses", None,
              Some(Shopping), true, Medium, createdAt)
    case UnusualTopic =>
      Insight("insight-unusual-" + stamp, t, Warning, "Unusual large transactions detected", None,
              None, false, High, createdAt)
    case SavingsRateTopic =>
      Insight("insight-savings-rate-" + stamp, t, Achievement, "Excellent savings rate!", None,
              None, false, Low, createdAt)
  }

  const AllTopics: seq<Topic> := [DiningTopic, SubscriptionsTopic, ShoppingTopic, UnusualTopic, SavingsRateTopic]

  function FiresOn(txns: seq<Transaction>, entries: seq<CategorySpending>): Topic -> bool {
    (t: Topic) => Fires(t, txns, entries)
  }

  function InsightOn(txns: seq<Transaction>, entries: seq<CategorySpending>, stamp: string, createdAt: string): Topic -> Insight {
    (t: Topic) => InsightFor(t, txns, entries, stamp, createdAt)
  }

  /** Every rule's insight is about its own topic. */
  lemma InsightTopics(txns: seq<Transaction>, entries: seq<CategorySpending>, stamp: string, createdAt: string)
    ensures forall t :: InsightOn(txns, entries, stamp, createdAt)(t).topic == t
  {
  }

  /** The insights of the rules `topics`, checked in that order, where `fires` says which rules fire and `make` builds their insights. */
  function Emitted(topics: seq<Topic>, fires: Topic -> bool, make: Topic -> Insight): seq<Insight>
    decreases |topics|
  {
    if topics == [] then []
    else
      var last := topics[|topics| - 1];
      Emitted(topics[..|topics| - 1], fires, make) + (if fires(last) then [make(last)] else [])
  }

  predicate StrictlyRanked(topics: seq<Topic>) {
    forall i, j | 0 <= i < j < |topics| :: Rank(topics[i]) < Rank(topics[j])
  }

  /** One more rule checked adds its insight at the end when it fires. */
  lemma EmittedSnoc(topics: seq<Topic>, t: Topic, fires: Topic -> bool, make: Topic -> Insight)
    ensures Emitted(topics + [t], fires, make) == Emitted(topics, fires, make) + (if fires(t) then [make(t)] else [])
  {
    assert (topics + [t])[..|topics|] == topics;
  }

  /** The rules emit at most one insight each, the insight of its own topic, exactly for the rules that fire. */
  lemma {:induction false} EmittedSpec(topics: seq<Topic>, fires: Topic -> bool, make: Topic -> Insight)
    requires forall t :: make(t).topic == t
    ensures var r := Emitted(topics, fires, make);
      && |r| <= |topics|
      && (forall i | 0 <= i < |r| :: r[i] == make(r[i].topic) && r[i].topic in topics)
      && (forall t :: (exists i | 0 <= i < |r| :: r[i].topic == t) <==> t in topics && fires(t))
    decreases |topics|
  {
    if topics != [] {
      var n := |topics| - 1;
      var front := topics[..n];
      EmittedSpec(front, fires, make);
      var r0 := Emitted(front, fires, make);
      var r := Emitted(topics, fires, make);
      assert topics == front + [topics[n]];
      assert forall t | t in topics :: t in front || t == topics[n];
      if fires(topics[n]) {
        assert r == r0 + [make(topics[n])];
        assert r[|r0|].topic == topics[n];
        assert forall i | 0 <= i < |r0| :: r[i] == r0[i];
      } else {
        assert r == r0;
      }
    }
  }

  /** The insights come in the order of their rules. */
  lemma {:induction false} EmittedOrdered(topics: seq<Topic>, fires: Topic -> bool, make: Topic -> Insight)
    requires forall t :: make(t).topic == t
    requires StrictlyRanked(topics)
    ensures var r := Emitted(topics, fires, make);
      forall i, j | 0 <= i < j < |r| :: Rank(r[i].topic) < Rank(r[j].topic)
    decreases |topics|
  {
    if topics != [] {
      var n := |topics| - 1;
      var front := topics[..n];
      EmittedOrdered(front, fires, make);
      EmittedSpec(front, fires, make);
      var r0 := Emitted(front, fires, make);
      assert forall i | 0 <= i < |r0| :: r0[i].topic in front;
      assert forall t | t in front :: Rank(t) < Rank(topics[n]);
    }
  }

  /** What checking the rule for `t` contributes. */
  function RuleOutput(t: Topic, fires: Topic -> bool, make: Topic -> Insight): (r: seq<Insight>)
    ensures |r| <= 1
  {
    if fires(t) then [make(t)] else []
  }

  /** Checking five rules is checking each in turn. */
  lemma {:induction false} EmittedFive(a: Topic, b: Topic, c: Topic, d: Topic, e: Topic,
                                       fires: Topic -> bool, make: Topic -> Insight)
    ensures Emitted([a, b, c, d, e], fires, make)
      == RuleOutput(a, fires, make) + RuleOutput(b, fires, make) + RuleOutput(c, fires, make)
      + RuleOutput(d, fires, make) + RuleOutput(e, fires, make)
  {
    assert Emitted([a], fires, make) == RuleOutput(a, fires, make) by {
      assert [] + [a] == [a];
      EmittedSnoc([], a, fires, make);
    }
    assert Emitted([a, b], fires, make) == Emitted([a], fires, make) + RuleOutput(b, fires, make) by {
      assert [a] + [b] == [a, b];
      EmittedSnoc([a], b, fires, make);
    }
    assert Emitted([a, b, c], fires, make) == Emitted([a, b], fires, make) + RuleOutput(c, fires, make) by {
      assert [a, b] + [c] == [a, b, c];
      EmittedSnoc([a, b], c, fires, make);
    }
    assert Emitted([a, b, c, d], fires, make) == Emitted([a, b, c], fires, make) + RuleOutput(d, fires, make) by {
      assert [a, b, c] + [d] == [a, b, c, d];
      EmittedSnoc([a, b, c], d, fires, make);
    }
    assert Emitted([a, b, c, d, e], fires, make) == Emitted([a, b, c, d], fires, make) + RuleOutput(e, fires, make) by {
      assert [a, b, c, d] + [e] == [a, b, c, d, e];
      EmittedSnoc([a, b, c, d], e, fires, make);
    }
  }

  /** Checking all five rules is checking each in turn. */
  lemma EmittedAll(fires: Topic -> bool, make: Topic -> Insight)
    ensures Emitted(AllTopics, fires, make)
      == RuleOutput(DiningTopic, fires, make) + RuleOutput(SubscriptionsTopic, fires, make)
      + RuleOutput(ShoppingTopic, fires, make) + RuleOutput(UnusualTopic, fires, make)
      + RuleOutput(SavingsRateTopic, fires, make)
  {
    EmittedFive(DiningTopic, SubscriptionsTopic, ShoppingTopic, UnusualTopic, SavingsRateTopic, fires, make);
  }

  /** Appending what each of the five rules contributes, starting from no insights, is checking them all. */
  lemma RulesInTurn(dining: seq<Insight>, subscriptions: seq<Insight>, shopping: seq<Insight>,
                    unusual: seq<Insight>, savings: seq<Insight>, fires: Topic -> bool, make: Topic -> Insight)
    requires dining == RuleOutput(DiningTopic, fires, make)
    requires subscriptions == RuleOutput(SubscriptionsTopic, fires, make)
    requires shopping == RuleOutput(ShoppingTopic, fires, make)
    requires unusual == RuleOutput(UnusualTopic, fires, make)
    requires savings == RuleOutput(SavingsRateTopic, fires, make)
    ensures [] + dining + subscriptions + shopping + unusual + savings == Emitted(AllTopics, fires, make)
  {
    EmittedAll(fires, make);
    assert [] + dining == dining;
  }

  /** Every topic is one of the five rules. */
  lemma AllTopicsComplete(t: Topic)
    ensures t in AllTopics
  {
    assert AllTopics[Rank(t)] == t;
  }

  /** The properties of a full pass: each firing rule once, with its own insight, in rule order. */
  lemma AllRulesSpec(fires: Topic -> bool, make: Topic -> Insight)
    requires forall t :: make(t).topic == t
    ensures var r := Emitted(AllTopics, fires, make);
      && |r| <= 5
      && (forall i | 0 <= i < |r| :: r[i] == make(r[i].topic))
      && (forall t :: fires(t) <==> exists i | 0 <= i < |r| :: r[i].topic == t)
      && (forall i, j | 0 <= i < j < |r| :: Rank(r[i].topic) < Rank(r[j].topic))
  {
    EmittedSpec(AllTopics, fires, make);
    EmittedOrdered(AllTopics, fires, make);
    forall t: Topic ensures t in AllTopics {
      AllTopicsComplete(t);
    }
  }

  /**
   * `generateInsights` on concrete arguments: at most five insights, each the one its rule builds,
   * exactly the rules that fire, in rule order (so no topic twice).
   */
  lemma GenerateInsightsSpec(txns: seq<Transaction>, entries: seq<CategorySpending>, stamp: string, createdAt: string)
    ensures var r := Emitted(AllTopics, FiresOn(txns, entries), InsightOn(txns, entries, stamp, createdAt));
      && |r| <= 5
      && (forall i | 0 <= i < |r| :: r[i] == InsightFor(r[i].topic, txns, entries, stamp, createdAt))
      && (forall t :: Fires(t, txns, entries) <==> exists i | 0 <= i < |r| :: r[i].topic == t)
      && (forall i, j | 0 <= i < j < |r| :: Rank(r[i].topic) < Rank(r[j].topic))
  {
    var fires, make := FiresOn(txns, entries), InsightOn(txns, entries, stamp, createdAt);
    InsightTopics(txns, entries, stamp, createdAt);
    AllRulesSpec(fires, make);
    assert forall t :: fires(t) == Fires(t, txns, entries);
    assert forall t :: make(t) == InsightFor(t, txns, entries, stamp, createdAt);
  }

  /** Dining above 15% of spending: an opportunity worth 30% of the dining amount. */
  method DiningRule(transactions: seq<Transaction>, categorySpending: seq<CategorySpending>,
                    stamp: string, createdAt: string) returns (out: seq<Insight>)
    ensures out == RuleOutput(DiningTopic, FiresOn(transactions, categorySpending),
                              InsightOn(transactions, categorySpending, stamp, createdAt))
  {
    out := [];
    var diningCategory := Seqs.Find(categorySpending, IsCategory(Dining));
    if diningCategory.Some? && diningCategory.value.percentage > 15.0 {
      out := [Insight("insight-dining-" + stamp, DiningTopic, Opportunity,
        "Reduce dining expenses", Some(diningCategory.value.amount * 0.3), Some(Dining), true, High, createdAt)];
    }
  }

  /** Three or more recurring subscriptions: an opportunity worth 30% of their total. */
  method SubscriptionsRule(transactions: seq<Transaction>, categorySpending: seq<CategorySpending>,
                           stamp: string, createdAt: string) returns (out: seq<Insight>)
    ensures out == RuleOutput(SubscriptionsTopic, FiresOn(transactions, categorySpending),
                              InsightOn(transactions, categorySpending, stamp, createdAt))
  {
    out := [];
    var subscriptions := Seqs.Filter(transactions, RecurringSubscription);
    if |subscriptions| >= 3 {
      var subscriptionTotal := Analytics.Total(subscriptions);
      out := [Insight("insight-subscriptions-" + stamp, SubscriptionsTopic, Opportunity,
        "Review your subscriptions", Some(subscriptionTotal * 0.3), Some(Subscriptions), true, Medium, createdAt)];
    }
  }

  /** Shopping above 20% of spending: a warning. */
  method ShoppingRule(transactions: seq<Transaction>, categorySpending: seq<CategorySpending>,
                      stamp: string, createdAt: string) returns (out: seq<Insight>)
    ensures out == RuleOutput(ShoppingTopic, FiresOn(transactions, categorySpending),
                              InsightOn(transactions, categorySpending, stamp, createdAt))
  {
    out := [];
    var shoppingCategory := Seqs.Find(categorySpending, IsCategory(Shopping));
    if shoppingCategory.Some? && shoppingCategory.value.percentage > 20.0 {
      out := [Insight("insight-shopping-" + stamp, ShoppingTopic, Warning,
        "High shopping expenses", None, Some(Shopping), true, Medium, createdAt)];
    }
  }

  /** Any transaction flagged unusual: a warning. */
  method UnusualRule(transactions: seq<Transaction>, categorySpending: seq<CategorySpending>,
                     stamp: string, createdAt: string) returns (out: seq<Insight>)
    ensures out == RuleOutput(UnusualTopic, FiresOn(transactions, categorySpending),
                              InsightOn(transactions, categorySpending, stamp, createdAt))
  {
    out := [];
    var unusualTransactions := Seqs.Filter(transactions, Unusual);
    if |unusualTransactions| > 0 {
      out := [Insight("insight-unusual-" + stamp, UnusualTopic, Warning,
        "Unusual large transactions detected", None, None, false, High, createdAt)];
    }
  }

  /** A savings rate above 30%: an achievement. */
  method SavingsRateRule(transactions: seq<Transaction>, categorySpending: seq<CategorySpending>,
                         stamp: string, createdAt: string) returns (out: seq<Insight>)
    ensures out == RuleOutput(SavingsRateTopic, FiresOn(transactions, categorySpending),
                              InsightOn(transactions, categorySpending, stamp, createdAt))
  {
    out := [];
    var income := Analytics.Total(Analytics.Credits(transactions));
    var expenses := Analytics.Total(Analytics.Debits(transactions));
    var savingsRate := Analytics.SavingsRate(income - expenses, income);
    if savingsRate > 30.0 {
      out := [Insight("insight-savings-rate-" + stamp, SavingsRateTopic, Achievement,
        "Excellent savings rate!", None, None, false, Low, createdAt)];
    }
  }

  /**
   * `generateInsights`, with `stamp` the text of `Date.now()` and `createdAt` the ISO text of the
   * current time: the five rules in order, each appending what it contributes; the properties of
   * the result are `GenerateInsightsSpec`.
   */
  method GenerateInsights(transactions: seq<Transaction>, categorySpending: seq<CategorySpending>,
                          stamp: string, createdAt: string) returns (insights: seq<Insight>)
    ensures insights == Emitted(AllTopics, FiresOn(transactions, categorySpending),
                                InsightOn(transactions, categorySpending, stamp, createdAt))
  {
    insights := [];
    var dining := DiningRule(transactions, categorySpending, stamp, createdAt);
    insights := insights + dining;
    var subscriptions := SubscriptionsRule(transactions, categorySpending, stamp, createdAt);
    insights := insights + subscriptions;
    var shopping := ShoppingRule(transactions, categorySpending, stamp, createdAt);
    insights := insights + shopping;
    var unusual := UnusualRule(transactions, categorySpending, stamp, createdAt);
    insights := insights + unusual;
    var savings := SavingsRateRule(transactions, categorySpending, stamp, createdAt);
    insights := insights + savings;
    RulesInTurn(dining, subscriptions, shopping, unusual, savings,
                FiresOn(transactions, categorySpending), InsightOn(transactions, categorySpending, stamp, createdAt));
  }
}
