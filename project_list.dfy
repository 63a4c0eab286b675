/** The project list: an empty state, or one card per project with its status and statistics. */
module ProjectList {
  import opened Model
  import Overview

  /** `statusColors`. */
  function StatusColor(s: Status): string {
    match s
    case Planning => "bg-blue-500"
    case Scheduled => "bg-amber-500"
    case InProgress => "bg-green-500"
    case Completed => "bg-gray-500"
  }

  /** `statusLabels`. */
  function StatusLabel(s: Status): string {
    match s
    case Planning => "策划中"
    case Scheduled => "已安排"
    case InProgress => "进行中"
    case Completed => "已完成"
  }

  /** The list's colour and label maps give every status what the overview gives it. */
  lemma StatusMapsAgree(s: Status)
    ensures StatusColor(s) == Overview.StatusColor(s)
    ensures StatusLabel(s) == Overview.StatusLabel(s)
  {
    match s
    case Planning =>
    case Scheduled =>
    case InProgress =>
    case Completed =>
  }

  /**
   * What a card shows besides the project's own texts: the status badge,
   * the statistics, whether the overdue badge, the budget line and the
   * task progress appear, and whether the cover image is shown.
   */
  datatype Card = Card(
    projectId: string,
    statusColor: string,
    statusLabel: string,
    stats: Overview.Stats,
    showsOverdue: bool,
    showsBudget: bool,
    showsProgress: bool,
    showsCover: bool)

  datatype ListView = EmptyState | Cards(cards: seq<Card>)

  /** One project's card at time `now`. */
  function CardFor(p: Project, now: int): (r: Card)
    ensures r.projectId == p.id
    ensures r.stats == Overview.ProjectStats(p, now)
    ensures r.stats.completedTasks <= r.stats.totalTasks
    ensures r.showsProgress <==> |p.checklist| > 0
    ensures r.showsOverdue <==> r.stats.overdueTasks > 0
    ensures r.showsBudget <==> r.stats.totalBudget > 0.0
    ensures r.showsCover <==> p.coverImage != ""
  {
    var stats := Overview.ProjectStats(p, now);
    Card(p.id, StatusColor(p.status), StatusLabel(p.status), stats,
      stats.overdueTasks > 0, stats.totalBudget > 0.0, stats.totalTasks > 0, p.coverImage != "")
  }

  /** `ProjectList`: the empty state alone for no projects, otherwise a card per project, in order. */
  function Render(projects: seq<Project>, now: int): (r: ListView)
    ensures r.EmptyState? <==> |projects| == 0
    ensures r.Cards? ==> |r.cards| == |projects|
    ensures r.Cards? ==> forall i :: 0 <= i < |projects| ==> r.cards[i] == CardFor(projects[i], now)
  {
    if |projects| == 0 then EmptyState
    else Cards(seq(|projects|, i requires 0 <= i < |projects| => CardFor(projects[i], now)))
  }

  /** A card shows no progress and no overdue badge for a project without tasks. */
  lemma NoTasksNoProgress(p: Project, now: int)
    requires p.checklist == []
    ensures !CardFor(p, now).showsProgress && !CardFor(p, now).showsOverdue
  {
  }

  /** Overdue tasks are never more than the tasks still open on the card. */
  lemma CardOverdueWithinOpen(p: Project, now: int)
    ensures var s := CardFor(p, now).stats; s.overdueTasks <= s.totalTasks - s.completedTasks
  {
    Overview.OverdueTasksAreOpen(p, now);
  }
}
