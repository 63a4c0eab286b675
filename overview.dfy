/** The overview tab: the project's headline statistics, progress percentages and readiness checks. */
module Overview {
  import opened Wrappers
  import opened Lists
  import opened Model
  import opened Metrics
  import Checklist
  import Budget
  import Team

  /** The statistics the overview and the project cards show. */
  datatype Stats = Stats(
    completedTasks: nat,
    totalTasks: nat,
    confirmedMembers: nat,
    totalMembers: nat,
    totalBudget: real,
    overdueTasks: nat)

  /** `task.dueDate && new Date() > task.dueDate && !task.completed`. */
  function IsOverdue(now: int): ChecklistItem -> bool {
    (t: ChecklistItem) => Checklist.IsOverdue(t, now)
  }

  /**
   * The statistics at time `now`: tasks done and in all, members confirmed
   * and in all, the budget (0 without one) plus every member's rate (0
   * without one), and the open tasks whose due date has passed.
   */
  function ProjectStats(p: Project, now: int): (r: Stats)
    ensures r.totalTasks == |p.checklist| && r.totalMembers == |p.team|
    ensures r.completedTasks == Count(p.checklist, Checklist.IsCompleted) <= r.totalTasks
    ensures r.confirmedMembers == Count(p.team, Team.IsConfirmed) <= r.totalMembers
    ensures r.totalBudget == p.budget.GetOr(0.0) + Budget.TeamCosts(p.team)
    ensures r.overdueTasks == Count(p.checklist, IsOverdue(now))
  {
    Stats(Checklist.CompletedCount(p.checklist), |p.checklist|,
      |Team.ConfirmedMembers(p.team)|, |p.team|,
      p.budget.GetOr(0.0) + Budget.TeamCosts(p.team),
      |Filter(p.checklist, IsOverdue(now))|)
  }

  /** Overdue tasks are open tasks, so together with the done ones they never exceed the checklist. */
  lemma OverdueTasksAreOpen(p: Project, now: int)
    ensures var s := ProjectStats(p, now); s.overdueTasks + s.completedTasks <= s.totalTasks
  {
    OverdueAndDone(p.checklist, now);
  }

  lemma {:induction false} OverdueAndDone(items: seq<ChecklistItem>, now: int)
    ensures Count(items, IsOverdue(now)) + Count(items, Checklist.IsCompleted) <= |items|
  {
    if items != [] {
      OverdueAndDone(items[1..], now);
    }
  }

  /** A project with a non-negative budget and non-negative rates has a total of at least its budget. */
  lemma TotalBudgetCoversBudget(p: Project, now: int)
    requires p.budget.Some? ==> p.budget.value >= 0.0
    requires forall m :: m in p.team ==> m.rate.GetOr(0.0) >= 0.0
    ensures ProjectStats(p, now).totalBudget >= p.budget.GetOr(0.0)
    ensures ProjectStats(p, now).totalBudget >= 0.0
  {
    SumNonNegative(p.team, Budget.RateOrZero);
  }

  /** The task completion shown: `Math.round(done / total * 100)`, 0 without tasks. */
  function TaskPercent(s: Stats): (r: int)
    ensures s.totalTasks == 0 ==> r == 0
    ensures s.totalTasks != 0 ==> r == RoundPercent(s.completedTasks, s.totalTasks)
    ensures s.completedTasks <= s.totalTasks ==> 0 <= r <= 100
    ensures 0 < s.completedTasks == s.totalTasks ==> r == 100
  {
    Percentage(s.completedTasks, s.totalTasks)
  }

  /** The team confirmation shown: `Math.round(confirmed / total * 100)`, 0 without members. */
  function TeamPercent(s: Stats): (r: int)
    ensures s.totalMembers == 0 ==> r == 0
    ensures s.totalMembers != 0 ==> r == RoundPercent(s.confirmedMembers, s.totalMembers)
    ensures s.confirmedMembers <= s.totalMembers ==> 0 <= r <= 100
    ensures 0 < s.confirmedMembers == s.totalMembers ==> r == 100
  {
    Percentage(s.confirmedMembers, s.totalMembers)
  }

  /** The overview's task percentage is the checklist tab's completion rate. */
  lemma TaskPercentIsCompletionRate(p: Project, now: int)
    ensures TaskPercent(ProjectStats(p, now)) == Checklist.CompletionRate(p.checklist)
  {
  }

  /** The team percentage is the share of confirmed members, the one the team tab's badges count. */
  lemma TeamPercentIsConfirmedShare(p: Project, now: int)
    ensures TeamPercent(ProjectStats(p, now)) ==
      if p.team == [] then 0 else RoundPercent(|Team.ConfirmedMembers(p.team)|, |p.team|)
  {
  }

  /** `getStatusColor`. */
  function StatusColor(s: Status): string {
    match s
    case Planning => "bg-blue-500"
    case Scheduled => "bg-amber-500"
    case InProgress => "bg-green-500"
    case Completed => "bg-gray-500"
  }

  /** `statusLabels`. */
  function StatusLabel(s: Status): string {
    match s
    case Planning => "策划中"
    case Scheduled => "已安排"
    case InProgress => "进行中"
    case Completed => "已完成"
  }

  /** The four statuses have four different labels. */
  lemma StatusLabelsDistinct(a: Status, b: Status)
    requires a != b
    ensures StatusLabel(a) != StatusLabel(b)
  {
    match a
    case Planning =>
    case Scheduled =>
    case InProgress =>
    case Completed =>
  }

  /** The traffic light of a readiness check. */
  datatype Light = Green | Yellow | Red

  /** Basic information is complete when title, description and location are all filled. */
  predicate BasicInfoComplete(p: Project) {
    p.title != "" && p.description != "" && p.location != ""
  }

  /** The team check: green when there are members and all are confirmed, yellow with members, red without. */
  function TeamLight(s: Stats): (r: Light)
    ensures r == Red <==> s.totalMembers == 0
    ensures r == Green <==> s.totalMembers > 0 && s.confirmedMembers == s.totalMembers
  {
    if s.totalMembers > 0 && s.confirmedMembers == s.totalMembers then Green
    else if s.totalMembers > 0 then Yellow
    else Red
  }

  /** The team check is green exactly when the team is non-empty and every member has confirmed. */
  lemma TeamLightGreen(p: Project, now: int)
    ensures TeamLight(ProjectStats(p, now)) == Green <==>
      |p.team| > 0 && forall i :: 0 <= i < |p.team| ==> p.team[i].confirmed
  {
    CountAll(p.team, Team.IsConfirmed);
  }

  /** A count reaches the length exactly when every element qualifies. */
  lemma {:induction false} CountAll<T>(s: seq<T>, p: T -> bool)
    ensures Count(s, p) == |s| <==> forall i :: 0 <= i < |s| ==> p(s[i])
  {
    if s != [] {
      CountAll(s[1..], p);
      assert forall i :: 1 <= i < |s| ==> s[i] == s[1..][i - 1];
      assert Count(s[1..], p) <= |s[1..]| by {
        CountAtMost(s[1..], p);
      }
    }
  }

  lemma {:induction false} CountAtMost<T>(s: seq<T>, p: T -> bool)
    ensures Count(s, p) <= |s|
  {
    if s != [] {
      CountAtMost(s[1..], p);
    }
  }

  /** The equipment check: green with any equipment listed, yellow otherwise. */
  function EquipmentLight(p: Project): (r: Light)
    ensures r == Green <==> |p.equipment| > 0
    ensures r != Red
  {
    if |p.equipment| > 0 then Green else Yellow
  }

  /** The inspiration check: green from three images, yellow for one or two, red for none. */
  function InspirationLight(p: Project): (r: Light)
    ensures r == Green <==> |p.inspirationImages| >= 3
    ensures r == Yellow <==> 1 <= |p.inspirationImages| <= 2
    ensures r == Red <==> |p.inspirationImages| == 0
  {
    if |p.inspirationImages| >= 3 then Green
    else if |p.inspirationImages| > 0 then Yellow
    else Red
  }
}
