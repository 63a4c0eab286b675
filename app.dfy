/**
 * The application shell: the list of projects, the selected project, and
 * the three handlers that create, update and delete projects. The clock
 * (`new Date()`) and the id source (`Date.now().toString()`) are parameters.
 * Each handler takes one `now`: the separate `new Date()` calls inside a
 * handler run within the same event and are read as one moment, so the
 * model does not let a created project's two timestamps, or an update's
 * two stamps, differ.
 */
module App {
  import opened Wrappers
  import opened Lists
  import opened Model
  import opened Calendar

  datatype AppState = AppState(projects: seq<Project>, selected: Option<Project>)

  function IdOf(p: Project): string { p.id }

  /**
   * `handleCreateProject`: the form's project gets its id and both
   * timestamps, goes to the front of the list and becomes selected.
   */
  function CreateProject(s: AppState, draft: Project, id: string, now: int): (r: AppState)
    ensures |r.projects| == |s.projects| + 1
    ensures r.projects[1..] == s.projects
    ensures r.projects[0].id == id && r.projects[0].createdAt == now && r.projects[0].updatedAt == now
    ensures r.projects[0].(id := draft.id, createdAt := draft.createdAt, updatedAt := draft.updatedAt) == draft
    ensures r.selected == Some(r.projects[0])
  {
    var p := draft.(id := id, createdAt := now, updatedAt := now);
    AppState([p] + s.projects, Some(p))
  }

  /** The updated project as the handler stores it: stamped with the current time. */
  function Stamped(updated: Project, now: int): Project {
    updated.(updatedAt := now)
  }

  /**
   * `handleUpdateProject`: every project with the updated project's id is
   * replaced by it with a fresh `updatedAt`; the others stay, in place; the
   * selection becomes the stamped update.
   */
  function UpdateProject(s: AppState, updated: Project, now: int): (r: AppState)
    ensures |r.projects| == |s.projects|
    ensures forall i :: 0 <= i < |s.projects| && s.projects[i].id == updated.id ==>
      r.projects[i] == Stamped(updated, now)
    ensures forall i :: 0 <= i < |s.projects| && s.projects[i].id != updated.id ==>
      r.projects[i] == s.projects[i]
    ensures r.selected == Some(Stamped(updated, now))
  {
    AppState(ReplaceWhere(s.projects, (p: Project) => p.id == updated.id, (_: Project) => Stamped(updated, now)),
             Some(Stamped(updated, now)))
  }

  /**
   * `handleDeleteProject`: every project carrying `id` is dropped, the rest
   * keep their order; the selection is cleared only when it carries `id`.
   */
  function DeleteProject(s: AppState, id: string): (r: AppState)
    ensures IsSubsequence(r.projects, s.projects)
    ensures forall p :: p in r.projects <==> p in s.projects && p.id != id
    ensures |r.projects| == Count(s.projects, OtherId(IdOf, id))
    ensures s.selected.Some? && s.selected.value.id == id ==> r.selected.None?
    ensures !(s.selected.Some? && s.selected.value.id == id) ==> r.selected == s.selected
  {
    var kept := RemoveById(s.projects, IdOf, id);
    AppState(kept, if s.selected.Some? && s.selected.value.id == id then None else s.selected)
  }

  /** Updating does not change which ids the list holds, nor where. */
  lemma UpdateKeepsIds(s: AppState, updated: Project, now: int)
    ensures Map(UpdateProject(s, updated, now).projects, IdOf) == Map(s.projects, IdOf)
  {
    var r := UpdateProject(s, updated, now);
    assert forall i :: 0 <= i < |s.projects| ==> r.projects[i].id == s.projects[i].id;
  }

  /** Sending the same update twice at the same moment is the same as sending it once. */
  lemma UpdateIdempotent(s: AppState, updated: Project, now: int)
    ensures UpdateProject(UpdateProject(s, updated, now), updated, now) == UpdateProject(s, updated, now)
  {
    var once := UpdateProject(s, updated, now);
    var twice := UpdateProject(once, updated, now);
    UpdateKeepsIds(s, updated, now);
    assert forall i :: 0 <= i < |s.projects| ==> once.projects[i].id == s.projects[i].id;
    assert twice.projects == once.projects;
  }

  /** Deleting a freshly created project gives the list back as it was, with nothing selected. */
  lemma {:induction false} CreateThenDelete(s: AppState, draft: Project, id: string, now: int)
    requires forall p :: p in s.projects ==> p.id != id
    ensures DeleteProject(CreateProject(s, draft, id, now), id) == AppState(s.projects, None)
  {
    var created := CreateProject(s, draft, id, now);
    assert created.projects == [created.projects[0]] + s.projects;
    RemoveByIdHead(created.projects[0], s.projects, IdOf, id);
    RemoveByIdAbsent(s.projects, IdOf, id);
  }

  /** The two demonstration projects the application starts with, at zone offset `offsetMinutes`. */
  function SampleProjects(offsetMinutes: int): seq<Project> {
    var noExtras := ShootingSettings(3.0, ["自然光拍摄"], None, None, None, None);
    [ Project("1", "春日花海人像拍摄", "在樱花盛开的季节，拍摄温馨浪漫的人像作品",
        Portrait, Planning, "杭州西湖", "春日暖阳下的自然人像", "温馨、浪漫、自然",
        "https://images.unsplash.com/photo-1544005313-94ddf0286df2?w=400&h=300&fit=crop&crop=face",
        [], [], [], [], [],
        [ ChecklistItem("1", "确认拍摄场地", true, None, None, High, "location"),
          ChecklistItem("2", "准备拍摄道具", false, None, None, Medium, "equipment") ],
        Some(2000.0), [], "注意天气变化", Some(LocalMidnight(2024, 3, 15, offsetMinutes)),
        noExtras, None, None, None, None,
        LocalMidnight(2024, 2, 1, offsetMinutes), LocalMidnight(2024, 2, 5, offsetMinutes)),
      Project("2", "产品拍摄 - 时尚手表", "高端手表产品的商业摄影",
        Product, Scheduled, "专业摄影棚", "简约现代风格", "简约、精致、专业",
        "https://images.unsplash.com/photo-1523275335684-37898b6baf30?w=400&h=300&fit=crop",
        [], [], [],
        [ TeamMember("1", "张摄影师", "摄影师", "13800138000", true, Some(800.0), Some(PaymentPending)) ],
        [], [], Some(3000.0), [], "", Some(LocalMidnight(2024, 3, 20, offsetMinutes)),
        ShootingSettings(4.0, ["专业灯光"], None, None, None, None), None, None, None, None,
        LocalMidnight(2024, 2, 10, offsetMinutes), LocalMidnight(2024, 2, 12, offsetMinutes)) ]
  }

  /** The application's initial state: the sample projects, nothing selected. */
  function InitialState(offsetMinutes: int): AppState {
    AppState(SampleProjects(offsetMinutes), None)
  }

  /**
   * The sample projects carry distinct ids, and each was updated no earlier
   * than it was created, in every time zone.
   */
  lemma SampleProjectsWellFormed(offsetMinutes: int)
    ensures |SampleProjects(offsetMinutes)| == 2
    ensures SampleProjects(offsetMinutes)[0].id != SampleProjects(offsetMinutes)[1].id
    ensures forall p :: p in SampleProjects(offsetMinutes) ==> p.createdAt <= p.updatedAt
  {
    var ps := SampleProjects(offsetMinutes);
    LocalMidnightIncreasing(2024, 2, 1, 5, offsetMinutes);
    LocalMidnightIncreasing(2024, 2, 10, 12, offsetMinutes);
    assert ps[0].createdAt <= ps[0].updatedAt && ps[1].createdAt <= ps[1].updatedAt;
  }
}
