/** The post-production tab: workflow, deliverables and the milestone timeline. */
module PostProduction {
  import opened Wrappers
  import opened Lists
  import opened Text
  import opened Model
  import opened Metrics

  /** `SOFTWARE_OPTIONS`: the editing programs offered. */
  const SOFTWARE_OPTIONS: seq<string> := [
    "Adobe Lightroom", "Adobe Photoshop", "Capture One", "Luminar", "ON1 Photo RAW",
    "Skylum Aurora HDR", "DxO PhotoLab", "Affinity Photo", "GIMP", "Darktable", "RawTherapee"
  ]

  /** `FORMAT_OPTIONS`: the delivery file formats offered. */
  const FORMAT_OPTIONS: seq<string> := ["JPEG", "PNG", "TIFF", "RAW", "PSD", "DNG", "HEIC"]

  /**
   * The plan the editor starts from when the project has none: Lightroom,
   * six standard steps and four hours; JPEG at original resolution in sRGB
   * with high-quality compression; every milestone at `now`; no notes.
   */
  function DefaultPlan(id: string, now: int): (r: PostProductionPlan)
    ensures r.workflow.software == ["Adobe Lightroom"] && |r.workflow.steps| == 6 && r.workflow.estimatedTime == 4
    ensures r.deliverables == Deliverables(["JPEG"], ["原始分辨率"], "sRGB", "高质量压缩")
    ensures r.timeline == Timeline(now, now, now, now, now)
    ensures NoDuplicates(r.workflow.software) && NoDuplicates(r.deliverables.format)
  {
    PostProductionPlan(id,
      Workflow(["Adobe Lightroom"], ["导入照片", "初步筛选", "基础调整", "色彩校正", "细节优化", "导出"], 4),
      Deliverables(["JPEG"], ["原始分辨率"], "sRGB", "高质量压缩"),
      Timeline(now, now, now, now, now),
      "")
  }

  /** The plan being edited: the project's own plan when it has one (`project.postProduction || {...}`). */
  function InitialPlan(p: Project, id: string, now: int): (r: PostProductionPlan)
    ensures p.postProduction.Some? ==> r == p.postProduction.value
    ensures p.postProduction.None? ==> r == DefaultPlan(id, now)
  {
    p.postProduction.GetOr(DefaultPlan(id, now))
  }

  /** `handleSave`: the edited plan becomes the project's; nothing else changes. */
  function Save(p: Project, plan: PostProductionPlan): (r: Project)
    ensures r.postProduction == Some(plan)
    ensures r.(postProduction := p.postProduction) == p
  {
    p.(postProduction := Some(plan))
  }

  /** Saving and reopening the tab edits the saved plan, whatever fresh id and time the default would take. */
  lemma SaveThenReopen(p: Project, plan: PostProductionPlan, id: string, now: int)
    ensures InitialPlan(Save(p, plan), id, now) == plan
  {
  }

  /** `addWorkflowStep`: a non-blank step is appended trimmed; nothing else changes. */
  function AddWorkflowStep(plan: PostProductionPlan, step: string): (r: PostProductionPlan)
    ensures r == plan.(workflow := plan.workflow.(steps := r.workflow.steps))
    ensures IsBlank(step) ==> r == plan
    ensures !IsBlank(step) ==> r.workflow.steps == plan.workflow.steps + [Trim(step)]
  {
    plan.(workflow := plan.workflow.(steps := AppendTrimmed(plan.workflow.steps, step)))
  }

  /** `removeWorkflowStep`: the step at `index` goes; nothing else changes. */
  function RemoveWorkflowStep(plan: PostProductionPlan, index: int): (r: PostProductionPlan)
    ensures r == plan.(workflow := plan.workflow.(steps := r.workflow.steps))
    ensures RemovedAt(r.workflow.steps, plan.workflow.steps, index)
  {
    plan.(workflow := plan.workflow.(steps := RemoveIndex(plan.workflow.steps, index)))
  }

  /** Removing the step just added restores the plan. */
  lemma AddThenRemoveStep(plan: PostProductionPlan, step: string)
    ensures RemoveWorkflowStep(AddWorkflowStep(plan, step), |plan.workflow.steps|) == plan
  {
    AppendTrimmedThenRemove(plan.workflow.steps, step);
  }

  /** `software && !list.includes(software)`: a non-empty value not yet listed is appended. */
  function AddChoice(list: seq<string>, value: string): (r: seq<string>)
    ensures value == "" || value in list ==> r == list
    ensures value != "" && value !in list ==> r == list + [value]
    ensures NoDuplicates(list) ==> NoDuplicates(r)
  {
    if value == "" then list else AppendIfAbsent(list, value)
  }

  /** `addSoftware`: the program is listed once; nothing else changes. */
  function AddSoftware(plan: PostProductionPlan, software: string): (r: PostProductionPlan)
    ensures r == plan.(workflow := plan.workflow.(software := r.workflow.software))
    ensures r.workflow.software == AddChoice(plan.workflow.software, software)
    ensures software != "" ==> software in r.workflow.software
    ensures NoDuplicates(plan.workflow.software) ==> NoDuplicates(r.workflow.software)
  {
    plan.(workflow := plan.workflow.(software := AddChoice(plan.workflow.software, software)))
  }

  /** `removeSoftware`: every occurrence of the program goes, the others stay in order. */
  function RemoveSoftware(plan: PostProductionPlan, software: string): (r: PostProductionPlan)
    ensures r == plan.(workflow := plan.workflow.(software := r.workflow.software))
    ensures IsSubsequence(r.workflow.software, plan.workflow.software)
    ensures software !in r.workflow.software
    ensures forall s :: s in plan.workflow.software && s != software ==> s in r.workflow.software
    ensures |r.workflow.software| == Count(plan.workflow.software, OtherValue(software))
  {
    plan.(workflow := plan.workflow.(software := RemoveValue(plan.workflow.software, software)))
  }

  /** Adding a program that was not listed and removing it again restores the plan. */
  lemma AddThenRemoveSoftware(plan: PostProductionPlan, software: string)
    requires software !in plan.workflow.software
    ensures RemoveSoftware(AddSoftware(plan, software), software) == plan
  {
    if software != "" {
      RemoveValueAppended(plan.workflow.software, software);
    } else {
      RemoveValueAbsent(plan.workflow.software, software);
    }
  }

  /** `addFormat`: the format is listed once; nothing else changes. */
  function AddFormat(plan: PostProductionPlan, format: string): (r: PostProductionPlan)
    ensures r == plan.(deliverables := plan.deliverables.(format := r.deliverables.format))
    ensures r.deliverables.format == AddChoice(plan.deliverables.format, format)
    ensures format != "" ==> format in r.deliverables.format
    ensures NoDuplicates(plan.deliverables.format) ==> NoDuplicates(r.deliverables.format)
  {
    plan.(deliverables := plan.deliverables.(format := AddChoice(plan.deliverables.format, format)))
  }

  /** `removeFormat`: every occurrence of the format goes, the others stay in order. */
  function RemoveFormat(plan: PostProductionPlan, format: string): (r: PostProductionPlan)
    ensures r == plan.(deliverables := plan.deliverables.(format := r.deliverables.format))
    ensures IsSubsequence(r.deliverables.format, plan.deliverables.format)
    ensures format !in r.deliverables.format
    ensures forall f :: f in plan.deliverables.format && f != format ==> f in r.deliverables.format
    ensures |r.deliverables.format| == Count(plan.deliverables.format, OtherValue(format))
  {
    plan.(deliverables := plan.deliverables.(format := RemoveValue(plan.deliverables.format, format)))
  }

  /** Adding a format that was not listed and removing it again restores the plan. */
  lemma AddThenRemoveFormat(plan: PostProductionPlan, format: string)
    requires format !in plan.deliverables.format
    ensures RemoveFormat(AddFormat(plan, format), format) == plan
  {
    if format != "" {
      RemoveValueAppended(plan.deliverables.format, format);
    } else {
      RemoveValueAbsent(plan.deliverables.format, format);
    }
  }

  /** The estimated-time field: `parseInt(text) || 0`, where `parsed` is `None` for text that is not a number. */
  function SetEstimatedTime(plan: PostProductionPlan, parsed: Option<int>): (r: PostProductionPlan)
    ensures r == plan.(workflow := plan.workflow.(estimatedTime := r.workflow.estimatedTime))
    ensures parsed.None? ==> r.workflow.estimatedTime == 0
    ensures parsed.Some? ==> r.workflow.estimatedTime == parsed.value
  {
    plan.(workflow := plan.workflow.(estimatedTime := parsed.GetOr(0)))
  }

  datatype TimelineStatus = Overdue | Today | Urgent | Normal

  /** The colour each status is shown in. */
  function StatusColor(s: TimelineStatus): string {
    match s
    case Overdue => "text-red-400"
    case Today => "text-yellow-400"
    case Urgent => "text-orange-400"
    case Normal => "text-green-400"
  }

  /**
   * `getTimelineStatus`: by whole days until the milestone rounded up,
   * overdue below 0, today at 0, urgent up to 3, normal beyond. In
   * milliseconds: overdue when the milestone lies a whole day or more in
   * the past, today when it lies less than a day back or exactly now,
   * urgent within the next three days, normal after that.
   */
  function TimelineStatusAt(date: int, now: int): (r: TimelineStatus)
    ensures r == Overdue <==> date - now <= -DAY
    ensures r == Today <==> -DAY < date - now <= 0
    ensures r == Urgent <==> 0 < date - now <= 3 * DAY
    ensures r == Normal <==> date - now > 3 * DAY
  {
    var days := DaysUntil(date, now);
    if days < 0 then Overdue
    else if days == 0 then Today
    else if days <= 3 then Urgent
    else Normal
  }

  /** Every milestone of a fresh default plan is due today. */
  lemma DefaultMilestonesDueToday(id: string, now: int)
    ensures var t := DefaultPlan(id, now).timeline;
            && TimelineStatusAt(t.culling, now) == Today
            && TimelineStatusAt(t.delivery, now) == Today
  {
  }

  /** As time passes, a milestone's status only moves towards overdue. */
  lemma StatusWorsensOverTime(date: int, now: int, later: int)
    requires now <= later
    ensures TimelineStatusAt(date, later) == Overdue || TimelineStatusAt(date, now) != Overdue
    ensures TimelineStatusAt(date, now) == Today ==> TimelineStatusAt(date, later) in {Today, Overdue}
  {
  }
}
