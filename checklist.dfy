/** The checklist tab: adding, toggling and removing tasks, the filtered view and the completion rate. */
module Checklist {
  import opened Wrappers
  import opened Lists
  import opened Text
  import opened Model
  import opened Metrics

  /** The add-task form; `dueDate` and `assignedTo` are empty when left blank. */
  datatype TaskForm = TaskForm(task: string, dueDate: string, assignedTo: string, priority: Priority, category: string)

  /** The form as it starts and as it is reset after an addition. */
  const EMPTY_FORM: TaskForm := TaskForm("", "", "", Medium, "other")

  function TaskId(t: ChecklistItem): string { t.id }

  /**
   * `handleAddTask`: a task whose text is blank after trimming is refused;
   * otherwise a new, open task is appended with the text as typed, the date
   * parsed by `parseDate` when one was given and the assignee when one was given.
   */
  function AddTask(p: Project, form: TaskForm, id: string, parseDate: string -> int): (r: Project)
    ensures IsBlank(form.task) ==> r == p
    ensures !IsBlank(form.task) ==>
      && r == p.(checklist := r.checklist)
      && |r.checklist| == |p.checklist| + 1
      && r.checklist[..|p.checklist|] == p.checklist
      && r.checklist[|p.checklist|].id == id
      && r.checklist[|p.checklist|].task == form.task
      && !r.checklist[|p.checklist|].completed
      && (r.checklist[|p.checklist|].dueDate.Some? <==> form.dueDate != "")
      && (form.dueDate != "" ==> r.checklist[|p.checklist|].dueDate.value == parseDate(form.dueDate))
      && (r.checklist[|p.checklist|].assignedTo == if form.assignedTo == "" then None else Some(form.assignedTo))
      && r.checklist[|p.checklist|].priority == form.priority
      && r.checklist[|p.checklist|].category == form.category
  {
    if IsBlank(form.task) then p
    else
      var task := ChecklistItem(id, form.task, false,
        if form.dueDate != "" then Some(parseDate(form.dueDate)) else None,
        if form.assignedTo != "" then Some(form.assignedTo) else None,
        form.priority, form.category);
      p.(checklist := p.checklist + [task])
  }

  /** A task added under a fresh id is removed again by that id, restoring the project. */
  lemma AddThenRemove(p: Project, form: TaskForm, id: string, parseDate: string -> int)
    requires forall t :: t in p.checklist ==> t.id != id
    ensures RemoveTask(AddTask(p, form, id, parseDate), id) == p
  {
    if !IsBlank(form.task) {
      var added := AddTask(p, form, id, parseDate).checklist;
      assert added == p.checklist + [added[|p.checklist|]];
      RemoveByIdLast(p.checklist, added[|p.checklist|], TaskId, id);
    }
    RemoveByIdAbsent(p.checklist, TaskId, id);
  }

  function FlipCompleted(t: ChecklistItem): ChecklistItem {
    t.(completed := !t.completed)
  }

  /** `toggleTask`: tasks carrying `id` change state; nothing else changes. */
  function ToggleTask(p: Project, id: string): (r: Project)
    ensures r == p.(checklist := r.checklist)
    ensures |r.checklist| == |p.checklist|
    ensures forall i :: 0 <= i < |p.checklist| ==>
      && r.checklist[i].(completed := p.checklist[i].completed) == p.checklist[i]
      && r.checklist[i].completed == (p.checklist[i].completed != (p.checklist[i].id == id))
  {
    p.(checklist := ReplaceWhere(p.checklist, (t: ChecklistItem) => t.id == id, FlipCompleted))
  }

  /** Toggling the same task twice restores the project. */
  lemma ToggleTwice(p: Project, id: string)
    ensures ToggleTask(ToggleTask(p, id), id) == p
  {
    ReplaceWhereInvolution(p.checklist, (t: ChecklistItem) => t.id == id, FlipCompleted);
  }

  /** `removeTask`: exactly the tasks carrying `id` disappear, the rest keep their order. */
  function RemoveTask(p: Project, id: string): (r: Project)
    ensures r == p.(checklist := r.checklist)
    ensures IsSubsequence(r.checklist, p.checklist)
    ensures forall t :: t in r.checklist <==> t in p.checklist && t.id != id
    ensures |r.checklist| == Count(p.checklist, OtherId(TaskId, id))
  {
    p.(checklist := RemoveById(p.checklist, TaskId, id))
  }

  /** The filter settings: priority, category and whether completed tasks show. */
  predicate Shown(t: ChecklistItem, priority: Choice<Priority>, category: Choice<string>, showCompleted: bool) {
    priority.Admits(t.priority) && category.Admits(t.category) && (showCompleted || !t.completed)
  }

  /** `filteredTasks`: the tasks the filter settings admit, in checklist order. */
  function FilteredTasks(items: seq<ChecklistItem>, priority: Choice<Priority>, category: Choice<string>,
                         showCompleted: bool): (r: seq<ChecklistItem>)
    ensures IsSubsequence(r, items)
    ensures forall t :: t in r <==> t in items && Shown(t, priority, category, showCompleted)
    ensures !showCompleted ==> forall t :: t in r ==> !t.completed
    ensures |r| == Count(items, ShownBy(priority, category, showCompleted))
  {
    Filter(items, ShownBy(priority, category, showCompleted))
  }

  /** The filter settings as the test `filter` applies. */
  function ShownBy(priority: Choice<Priority>, category: Choice<string>, showCompleted: bool): ChecklistItem -> bool {
    t => Shown(t, priority, category, showCompleted)
  }

  /** With both filters on "all" and completed tasks shown, the view is the whole checklist. */
  lemma FilterAllShowsEverything(items: seq<ChecklistItem>)
    ensures FilteredTasks(items, All, All, true) == items
  {
    FilterKeepsAll(items, t => Shown(t, All, All, true));
  }

  function IsCompleted(t: ChecklistItem): bool { t.completed }

  /** `completedTasks`: how many tasks are done. */
  function CompletedCount(items: seq<ChecklistItem>): (r: nat)
    ensures r <= |items|
    ensures r == Count(items, IsCompleted)
  {
    |Filter(items, IsCompleted)|
  }

  /**
   * `completionRate`: 0 for an empty checklist, otherwise the rounded
   * percentage of completed tasks; always within 0..100, 100 for a
   * non-empty checklist that is all done and 0 when nothing is done.
   */
  function CompletionRate(items: seq<ChecklistItem>): (r: int)
    ensures 0 <= r <= 100
    ensures |items| == 0 ==> r == 0
    ensures |items| > 0 ==> r == RoundPercent(CompletedCount(items), |items|)
    ensures CompletedCount(items) == |items| && |items| > 0 ==> r == 100
    ensures CompletedCount(items) == 0 ==> r == 0
  {
    if |items| > 0 then
      RoundPercentBounds(CompletedCount(items), |items|);
      RoundPercent(CompletedCount(items), |items|)
    else 0
  }

  /** `isOverdue`: a task with a due date before now that is still open. */
  predicate IsOverdue(t: ChecklistItem, now: int) {
    t.dueDate.Some? && now > t.dueDate.value && !t.completed
  }

  /** Toggling an open task closes it, and a closed task is never overdue. */
  lemma ToggledTaskNotOverdue(p: Project, id: string, now: int)
    ensures forall i :: 0 <= i < |p.checklist| && p.checklist[i].id == id && !p.checklist[i].completed ==>
      !IsOverdue(ToggleTask(p, id).checklist[i], now)
  {
  }

  /** A preset task: text, category and priority. */
  datatype TaskTemplate = TaskTemplate(task: string, category: string, priority: Priority)

  /** `taskTemplates`: the eight preset tasks. */
  const TASK_TEMPLATES: seq<TaskTemplate> := [
    TaskTemplate("确认拍摄地点和时间", "location", High),
    TaskTemplate("准备拍摄器材", "equipment", High),
    TaskTemplate("确认模特档期", "team", High),
    TaskTemplate("准备道具和服装", "creative", Medium),
    TaskTemplate("联系化妆师", "team", Medium),
    TaskTemplate("检查天气情况", "logistics", Medium),
    TaskTemplate("充电和准备存储卡", "equipment", High),
    TaskTemplate("制定拍摄流程", "creative", Medium)
  ]

  /**
   * `addTemplateTask`: the preset is appended as an open task with the
   * preset's text, priority and category, and no due date or assignee.
   */
  function AddTemplateTask(p: Project, template: TaskTemplate, id: string): (r: Project)
    ensures r == p.(checklist := r.checklist)
    ensures |r.checklist| == |p.checklist| + 1 && r.checklist[..|p.checklist|] == p.checklist
    ensures r.checklist[|p.checklist|] == ChecklistItem(id, template.task, false, None, None, template.priority, template.category)
  {
    p.(checklist := p.checklist + [ChecklistItem(id, template.task, false, None, None, template.priority, template.category)])
  }

  /** Adding a preset task adds one open task, so the completed count is unchanged. */
  lemma {:induction false} TemplateTaskKeepsCompleted(p: Project, template: TaskTemplate, id: string)
    ensures CompletedCount(AddTemplateTask(p, template, id).checklist) == CompletedCount(p.checklist)
  {
    var t := ChecklistItem(id, template.task, false, None, None, template.priority, template.category);
    CountAppendOpen(p.checklist, t);
  }

  lemma {:induction false} CountAppendOpen(s: seq<ChecklistItem>, t: ChecklistItem)
    requires !t.completed
    ensures Count(s + [t], IsCompleted) == Count(s, IsCompleted)
  {
    if s == [] {
      assert [t][1..] == [];
    } else {
      assert (s + [t])[1..] == s[1..] + [t];
      CountAppendOpen(s[1..], t);
    }
  }
}
