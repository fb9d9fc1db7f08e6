/** The application's own transaction, goal and badge records. */
module FinanceTypes {
  import opened Wrappers
  import opened Calendar

  datatype TxnKind = Debit | Credit

  datatype Category =
    | Shopping | Dining | Transportation | Healthcare | Subscriptions | Fitness | Housing
    | Income | Cash | Services | Entertainment | Groceries | Utilities | Other

  /** The category's name as the application writes it. */
  function CategoryName(c: Category): string {
    match c
    case Shopping => "Shopping"
    case Dining => "Dining"
    case Transportation => "Transportation"
    case Healthcare => "Healthcare"
    case Subscriptions => "Subscriptions"
    case Fitness => "Fitness"
    case Housing => "Housing"
    case Income => "Income"
    case Cash => "Cash"
    case Services => "Services"
    case Entertainment => "Entertainment"
    case Groceries => "Groceries"
    case Utilities => "Utilities"
    case Other => "Other"
  }

  /** A transaction as imported from a statement; `amount` is in dollars. */
  datatype Transaction = Transaction(
    id: string,
    date: CivilDate,
    description: string,
    merchant: string,
    amount: real,
    kind: TxnKind,
    category: Category,
    balance: real,
    tags: seq<string>,
    isRecurring: Option<bool>,
    isUnusual: Option<bool>)

  predicate IsDebit(t: Transaction) {
    t.kind == Debit
  }

  predicate IsCredit(t: Transaction) {
    t.kind == Credit
  }

  /** A savings goal; `deadline` is a calendar day. */
  datatype Goal = Goal(id: string, name: string, targetAmount: real, currentAmount: real, deadline: CivilDate)

  datatype CategorySpending = CategorySpending(category: Category, amount: real, percentage: real, transactionCount: nat)

  datatype BadgeCategory = Saving | Behavioral | Social | Milestone | Learning

  /** A badge; `unlockedAt` is the ISO time text of the unlock. */
  datatype Badge = Badge(id: string, name: string, category: BadgeCategory, unlocked: bool, unlockedAt: Option<string>)
}
