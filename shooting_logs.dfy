/** The shooting-log tab: per-session records of settings, images and lessons, and their keeper rates. */
module ShootingLogs {
  import opened Wrappers
  import opened Lists
  import opened Text
  import opened Model
  import opened Metrics

  /** The new-log form, a partial log: every field may be unset. */
  datatype LogForm = LogForm(
    session: Option<string>,
    location: Option<string>,
    weather: Option<string>,
    equipment: Option<seq<string>>,
    settings: Option<CameraSettings>,
    notes: Option<string>,
    challenges: Option<seq<string>>,
    solutions: Option<seq<string>>,
    lessonsLearned: Option<seq<string>>,
    images: Option<ImageCounts>)

  /** The camera settings a log starts with: everything empty and ISO 100. */
  const DEFAULT_SETTINGS: CameraSettings := CameraSettings("", "", "", "", 100, "")

  const NO_IMAGES: ImageCounts := ImageCounts(0, 0, 0)

  /** The form as it starts and as it is reset after an addition. */
  const EMPTY_FORM: LogForm := LogForm(Some(""), Some(""), Some(""), Some([]), Some(DEFAULT_SETTINGS),
    Some(""), Some([]), Some([]), Some([]), Some(NO_IMAGES))

  function LogId(log: ShootingLog): string { log.id }

  /** `project.shootingLogs || []`. */
  function Logs(p: Project): seq<ShootingLog> {
    p.shootingLogs.GetOr([])
  }

  /** `x` is set and non-empty. */
  predicate Filled(x: Option<string>) {
    x.Some? && x.value != ""
  }

  /**
   * `handleAddLog`: refused unless session and location are filled;
   * otherwise a log dated `now` is appended (to an empty list when the
   * project has none yet), with empty text, empty lists, the default
   * camera settings and zero image counts wherever the form is unset.
   */
  function AddLog(p: Project, form: LogForm, id: string, now: int): (r: Project)
    ensures !(Filled(form.session) && Filled(form.location)) ==> r == p
    ensures Filled(form.session) && Filled(form.location) ==>
      && r == p.(shootingLogs := r.shootingLogs)
      && r.shootingLogs.Some?
      && |Logs(r)| == |Logs(p)| + 1
      && Logs(r)[..|Logs(p)|] == Logs(p)
      && Logs(r)[|Logs(p)|] == ShootingLog(id, now, form.session.value, form.location.value,
           form.weather.GetOr(""), form.equipment.GetOr([]), form.settings.GetOr(DEFAULT_SETTINGS),
           form.notes.GetOr(""), form.challenges.GetOr([]), form.solutions.GetOr([]),
           form.lessonsLearned.GetOr([]), form.images.GetOr(NO_IMAGES))
  {
    if Filled(form.session) && Filled(form.location) then
      var log := ShootingLog(id, now, form.session.value, form.location.value,
        form.weather.GetOr(""), form.equipment.GetOr([]), form.settings.GetOr(DEFAULT_SETTINGS),
        form.notes.GetOr(""), form.challenges.GetOr([]), form.solutions.GetOr([]),
        form.lessonsLearned.GetOr([]), form.images.GetOr(NO_IMAGES));
      p.(shootingLogs := Some(Logs(p) + [log]))
    else p
  }

  /** A log added from a form that only names session and location starts with ISO 100 and no images. */
  lemma MinimalLogDefaults(p: Project, session: string, location: string, id: string, now: int)
    requires session != "" && location != ""
    ensures var form := LogForm(Some(session), Some(location), None, None, None, None, None, None, None, None);
            var log := Logs(AddLog(p, form, id, now))[|Logs(p)|];
            && log.settings.iso == 100 && log.images == ImageCounts(0, 0, 0)
            && log.weather == "" && log.equipment == [] && log.challenges == []
            && KeeperRate(log) == 0 && FavoriteRate(log) == 0
  {
  }

  /** `handleUpdateLog`: every log carrying `logId` is replaced by the edited log; nothing else changes. */
  function UpdateLog(p: Project, logId: string, updated: ShootingLog): (r: Project)
    ensures r == p.(shootingLogs := r.shootingLogs)
    ensures r.shootingLogs.Some? && |Logs(r)| == |Logs(p)|
    ensures forall i :: 0 <= i < |Logs(p)| ==> Logs(r)[i] == if Logs(p)[i].id == logId then updated else Logs(p)[i]
  {
    p.(shootingLogs := Some(ReplaceWhere(Logs(p), (log: ShootingLog) => log.id == logId, (_: ShootingLog) => updated)))
  }

  /** `handleDeleteLog`: exactly the logs carrying `logId` disappear, the rest keep their order. */
  function DeleteLog(p: Project, logId: string): (r: Project)
    ensures r == p.(shootingLogs := r.shootingLogs)
    ensures r.shootingLogs.Some?
    ensures IsSubsequence(Logs(r), Logs(p))
    ensures forall log :: log in Logs(r) <==> log in Logs(p) && log.id != logId
    ensures |Logs(r)| == Count(Logs(p), OtherId(LogId, logId))
  {
    p.(shootingLogs := Some(RemoveById(Logs(p), LogId, logId)))
  }

  /** A log added under a fresh id is deleted again by that id; only the list's presence remains. */
  lemma AddThenDelete(p: Project, form: LogForm, id: string, now: int)
    requires forall log :: log in Logs(p) ==> log.id != id
    requires Filled(form.session) && Filled(form.location)
    ensures DeleteLog(AddLog(p, form, id, now), id) == p.(shootingLogs := Some(Logs(p)))
  {
    var added := Logs(AddLog(p, form, id, now));
    assert added == Logs(p) + [added[|Logs(p)|]];
    RemoveByIdLast(Logs(p), added[|Logs(p)|], LogId, id);
    RemoveByIdAbsent(Logs(p), LogId, id);
  }

  /** Editing a log without changing its id and then deleting it leaves the same list as deleting it directly. */
  lemma UpdateThenDelete(p: Project, logId: string, updated: ShootingLog)
    requires updated.id == logId
    ensures DeleteLog(UpdateLog(p, logId, updated), logId) == DeleteLog(p, logId)
  {
    DeleteAfterReplace(Logs(p), logId, updated);
  }

  lemma {:induction false} DeleteAfterReplace(logs: seq<ShootingLog>, logId: string, updated: ShootingLog)
    requires updated.id == logId
    ensures RemoveById(ReplaceWhere(logs, (log: ShootingLog) => log.id == logId, (_: ShootingLog) => updated), LogId, logId)
         == RemoveById(logs, LogId, logId)
  {
    if logs != [] {
      DeleteAfterReplace(logs[1..], logId, updated);
    }
  }

  /** `addArrayItem`: a non-blank entry is appended trimmed; a blank one is ignored. */
  function AddArrayItem(list: seq<string>, item: string): (r: seq<string>)
    ensures IsBlank(item) ==> r == list
    ensures !IsBlank(item) ==> r == list + [Trim(item)]
  {
    AppendTrimmed(list, item)
  }

  /** Entries added through `addArrayItem` are non-empty and trimmed, so a clean list stays clean. */
  lemma AddArrayItemKeepsTrimmed(list: seq<string>, item: string)
    requires forall i :: 0 <= i < |list| ==> list[i] != "" && Trim(list[i]) == list[i]
    ensures var r := AddArrayItem(list, item);
            forall i :: 0 <= i < |r| ==> r[i] != "" && Trim(r[i]) == r[i]
  {
    AppendTrimmedKeepsClean(list, item);
  }

  /** `removeArrayItem`: the entry at `index` goes; an index outside the list removes nothing. */
  function RemoveArrayItem(list: seq<string>, index: int): (r: seq<string>)
    ensures RemovedAt(r, list, index)
  {
    RemoveIndex(list, index)
  }

  /** Removing the entry just added restores the list. */
  lemma AddThenRemoveArrayItem(list: seq<string>, item: string)
    ensures RemoveArrayItem(AddArrayItem(list, item), |list|) == list
  {
    AppendTrimmedThenRemove(list, item);
  }

  /** `getKeeperRate`. */
  function KeeperRate(log: ShootingLog): (r: int)
    ensures 0 <= log.images.keepers <= log.images.total ==> 0 <= r <= 100
    ensures log.images.total == 0 ==> r == 0
    ensures log.images.total != 0 ==> r == RoundPercent(log.images.keepers, log.images.total)
  {
    Percentage(log.images.keepers, log.images.total)
  }

  /** `getFavoriteRate`. */
  function FavoriteRate(log: ShootingLog): (r: int)
    ensures 0 <= log.images.favorites <= log.images.total ==> 0 <= r <= 100
    ensures log.images.total == 0 ==> r == 0
    ensures log.images.total != 0 ==> r == RoundPercent(log.images.favorites, log.images.total)
  {
    Percentage(log.images.favorites, log.images.total)
  }

  /** Favourites are picked among the keepers, so the favourite rate never exceeds the keeper rate. */
  lemma FavoritesWithinKeepers(log: ShootingLog)
    requires 0 <= log.images.favorites <= log.images.keepers <= log.images.total
    ensures FavoriteRate(log) <= KeeperRate(log)
  {
    if log.images.total > 0 {
      RoundPercentMonotone(log.images.favorites, log.images.keepers, log.images.total);
    }
  }

  /** The equipment field: `text.split(',').map(item => item.trim()).filter(Boolean)`. */
  function EquipmentFromText(text: string): (r: seq<string>)
    ensures r == ParseCommaList(text)
    ensures CleanTags(r)
  {
    ParsedListIsClean(text);
    ParseCommaList(text)
  }

  /** The equipment field shows the list joined by `", "`. */
  function EquipmentText(equipment: seq<string>): string {
    Join(equipment, ", ")
  }

  /** The field shows a parsed list back as text that parses to the same list. */
  lemma EquipmentFieldStable(text: string)
    ensures EquipmentFromText(EquipmentText(EquipmentFromText(text))) == EquipmentFromText(text)
  {
    ParseIsStable(text);
  }
}
