/** The budget tab: expenses, their status, the totals and the per-category breakdown. */
module Budget {
  import opened Wrappers
  import opened Lists
  import opened Model

  /** The add-expense form; `amount` is the text typed in. */
  datatype ExpenseForm = ExpenseForm(description: string, amount: string, category: string, status: ExpenseStatus)

  const EMPTY_FORM: ExpenseForm := ExpenseForm("", "", "other", Planned)

  /** `expenseCategories`: the six categories the breakdown lists. */
  const EXPENSE_CATEGORIES: seq<string> := ["equipment", "location", "team", "props", "travel", "other"]

  function ExpenseId(e: Expense): string { e.id }
  function Amount(e: Expense): real { e.amount }

  /**
   * `handleAddExpense`: refused while the description or the amount text
   * is empty; otherwise the expense is appended with the amount parsed by
   * `parseNumber`, the chosen category and status, dated `now`.
   */
  function AddExpense(p: Project, form: ExpenseForm, id: string, now: int, parseNumber: string -> real): (r: Project)
    ensures form.description == "" || form.amount == "" ==> r == p
    ensures form.description != "" && form.amount != "" ==>
      && r == p.(expenses := r.expenses)
      && |r.expenses| == |p.expenses| + 1
      && r.expenses[..|p.expenses|] == p.expenses
      && r.expenses[|p.expenses|]
         == Expense(id, form.description, parseNumber(form.amount), form.category, form.status, now)
  {
    if form.description == "" || form.amount == "" then p
    else p.(expenses := p.expenses + [Expense(id, form.description, parseNumber(form.amount),
                                              form.category, form.status, now)])
  }

  /** `removeExpense`: exactly the expenses carrying `id` disappear, the rest keep their order. */
  function RemoveExpense(p: Project, id: string): (r: Project)
    ensures r == p.(expenses := r.expenses)
    ensures IsSubsequence(r.expenses, p.expenses)
    ensures forall e :: e in r.expenses <==> e in p.expenses && e.id != id
    ensures |r.expenses| == Count(p.expenses, OtherId(ExpenseId, id))
  {
    p.(expenses := RemoveById(p.expenses, ExpenseId, id))
  }

  /** An expense added under a fresh id is removed again by that id. */
  lemma AddThenRemove(p: Project, form: ExpenseForm, id: string, now: int, parseNumber: string -> real)
    requires forall e :: e in p.expenses ==> e.id != id
    ensures RemoveExpense(AddExpense(p, form, id, now, parseNumber), id) == p
  {
    if form.description != "" && form.amount != "" {
      var added := AddExpense(p, form, id, now, parseNumber).expenses;
      assert added == p.expenses + [added[|p.expenses|]];
      RemoveByIdLast(p.expenses, added[|p.expenses|], ExpenseId, id);
    }
    RemoveByIdAbsent(p.expenses, ExpenseId, id);
  }

  /** `updateExpenseStatus`: matching expenses take the new status; nothing else changes. */
  function UpdateExpenseStatus(p: Project, id: string, status: ExpenseStatus): (r: Project)
    ensures r == p.(expenses := r.expenses)
    ensures |r.expenses| == |p.expenses|
    ensures forall i :: 0 <= i < |p.expenses| ==>
      r.expenses[i] == if p.expenses[i].id == id then p.expenses[i].(status := status) else p.expenses[i]
  {
    p.(expenses := ReplaceWhere(p.expenses, (e: Expense) => e.id == id, (e: Expense) => e.(status := status)))
  }

  /** Statuses move freely: the last status set is the one that holds, whatever came before. */
  lemma LastStatusWins(p: Project, id: string, first: ExpenseStatus, second: ExpenseStatus)
    ensures UpdateExpenseStatus(UpdateExpenseStatus(p, id, first), id, second) == UpdateExpenseStatus(p, id, second)
  {
    var a := UpdateExpenseStatus(UpdateExpenseStatus(p, id, first), id, second).expenses;
    var b := UpdateExpenseStatus(p, id, second).expenses;
    assert forall i :: 0 <= i < |a| ==> a[i] == b[i];
  }

  /** `member.rate || 0`. */
  function RateOrZero(m: TeamMember): real {
    m.rate.GetOr(0.0)
  }

  /** `totalExpenses`: the sum of all expense amounts. */
  function TotalExpenses(expenses: seq<Expense>): real {
    Sum(expenses, Amount)
  }

  /** `teamCosts`: the sum of member rates, a missing rate counting as 0. */
  function TeamCosts(team: seq<TeamMember>): real {
    Sum(team, RateOrZero)
  }

  /** `totalBudget`: expenses plus team costs. */
  function TotalSpend(p: Project): real {
    TotalExpenses(p.expenses) + TeamCosts(p.team)
  }

  /** With non-negative amounts and rates, the total covers each of its two parts. */
  lemma TotalSpendCoversParts(p: Project)
    requires forall e :: e in p.expenses ==> e.amount >= 0.0
    requires forall m :: m in p.team ==> RateOrZero(m) >= 0.0
    ensures TotalSpend(p) >= TotalExpenses(p.expenses) >= 0.0
    ensures TotalSpend(p) >= TeamCosts(p.team) >= 0.0
  {
    SumNonNegative(p.expenses, Amount);
    SumNonNegative(p.team, RateOrZero);
  }

  /** Adding a member with a rate raises the team costs by exactly that rate. */
  lemma TeamCostsAppend(team: seq<TeamMember>, m: TeamMember)
    ensures TeamCosts(team + [m]) == TeamCosts(team) + RateOrZero(m)
  {
    SumAppend(team, [m], RateOrZero);
    assert Sum([m], RateOrZero) == RateOrZero(m) + Sum([m][1..], RateOrZero);
  }

  /**
   * `budgetUsage`: spending as a percentage of the planned budget; 0 when
   * the budget is absent, zero or negative.
   */
  function BudgetUsage(p: Project): (r: real)
    ensures p.budget.None? || p.budget.value <= 0.0 ==> r == 0.0
    ensures p.budget.Some? && p.budget.value > 0.0 ==> r * p.budget.value == TotalSpend(p) * 100.0
  {
    var planned := p.budget.GetOr(0.0);
    if planned > 0.0 then TotalSpend(p) / planned * 100.0 else 0.0
  }

  /** The amount an expense contributes to `category`. */
  function AmountIn(e: Expense, category: string): real {
    if e.category == category then e.amount else 0.0
  }

  /** One category's total: the expenses of that category, summed. */
  function CategoryTotal(expenses: seq<Expense>, category: string): (r: real)
    ensures r == Sum(expenses, e => AmountIn(e, category))
  {
    CategoryTotalIsIndicatorSum(expenses, category);
    Sum(Filter(expenses, (e: Expense) => e.category == category), Amount)
  }

  lemma {:induction false} CategoryTotalIsIndicatorSum(expenses: seq<Expense>, category: string)
    ensures Sum(Filter(expenses, (e: Expense) => e.category == category), Amount)
         == Sum(expenses, e => AmountIn(e, category))
  {
    if expenses != [] {
      CategoryTotalIsIndicatorSum(expenses[1..], category);
    }
  }

  /** `expensesByCategory`: each listed category with its total, in the listed order. */
  function ExpensesByCategory(expenses: seq<Expense>): (r: seq<(string, real)>)
    ensures |r| == |EXPENSE_CATEGORIES|
    ensures forall i :: 0 <= i < |r| ==> r[i] == (EXPENSE_CATEGORIES[i], CategoryTotal(expenses, EXPENSE_CATEGORIES[i]))
  {
    Map(EXPENSE_CATEGORIES, c => (c, CategoryTotal(expenses, c)))
  }

  /**
   * When every expense uses one of the listed categories, the category
   * totals add up to the total of all expenses.
   */
  lemma {:induction false} CategoryTotalsAddUp(expenses: seq<Expense>)
    requires forall e :: e in expenses ==> e.category in EXPENSE_CATEGORIES
    ensures Sum(EXPENSE_CATEGORIES, c => CategoryTotal(expenses, c)) == TotalExpenses(expenses)
  {
    assert NoDuplicates(EXPENSE_CATEGORIES);
    TotalsAddUp(EXPENSE_CATEGORIES, expenses);
  }

  lemma {:induction false} TotalsAddUp(categories: seq<string>, expenses: seq<Expense>)
    requires NoDuplicates(categories)
    requires forall e :: e in expenses ==> e.category in categories
    ensures Sum(categories, c => CategoryTotal(expenses, c)) == Sum(expenses, Amount)
    decreases |expenses|
  {
    if expenses == [] {
      SumSingle(categories, c => CategoryTotal(expenses, c), "");
      if "" in categories {
        assert CategoryTotal(expenses, "") == 0.0;
      }
    } else {
      var e := expenses[0];
      var rest := expenses[1..];
      forall c ensures CategoryTotal(expenses, c) == AmountIn(e, c) + CategoryTotal(rest, c) {
      }
      SumSplit(categories, c => AmountIn(e, c), c => CategoryTotal(rest, c), c => CategoryTotal(expenses, c));
      SumSingle(categories, c => AmountIn(e, c), e.category);
      TotalsAddUp(categories, rest);
    }
  }
}
