/** `StorageManager`: export, import, clearing, size accounting and migration of the
    projects kept in `localStorage`. */
module StorageManager {
  import opened Wrappers
  import opened Text
  import opened Json
  import opened Storage

  const PROJECTS_KEY := "photodesign_projects"
  const SELECTED_PROJECT_KEY := "photodesign_selected_project"
  const VERSION := "1.0.0"

  /** The `{ success, message }` result of import and migration. */
  datatype Report = Report(success: bool, message: string)

  // ---------------------------------------------------------------------------
  // Reading

  /** `getProjects()`: the stored list parsed with the date reviver, or `[]` when the key is
      missing, empty or not JSON. */
  function GetProjects(items: map<string, string>, c: Codec): (r: Value)
    ensures PROJECTS_KEY !in items || items[PROJECTS_KEY] == "" ==> r == Arr([])
    ensures PROJECTS_KEY in items && items[PROJECTS_KEY] != "" ==>
      r == match ParseRevived(c, items[PROJECTS_KEY]) case Success(v) => v case Failure(_) => Arr([])
  {
    if PROJECTS_KEY !in items || items[PROJECTS_KEY] == "" then Arr([])
    else match ParseRevived(c, items[PROJECTS_KEY])
      case Success(v) => v
      case Failure(_) => Arr([])
  }

  /** `getSelectedProjectId()`: the stored value parsed without the reviver, or `null`. */
  function GetSelectedProjectId(items: map<string, string>, c: Codec): (r: Value)
    ensures SELECTED_PROJECT_KEY !in items || items[SELECTED_PROJECT_KEY] == "" ==> r == Null
    ensures SELECTED_PROJECT_KEY in items && items[SELECTED_PROJECT_KEY] != "" ==>
      r == match c.parse(items[SELECTED_PROJECT_KEY]) case Success(v) => v case Failure(_) => Null
  {
    if SELECTED_PROJECT_KEY !in items || items[SELECTED_PROJECT_KEY] == "" then Null
    else match c.parse(items[SELECTED_PROJECT_KEY])
      case Success(v) => v
      case Failure(_) => Null
  }

  // ---------------------------------------------------------------------------
  // Export

  /** The document `exportData` writes; `exportedAt` is the ISO text of the current time. */
  function ExportDocument(items: map<string, string>, c: Codec, exportedAt: string): (r: Value)
    ensures r.Obj? && r.fields.Keys == {"projects", "selectedProjectId", "exportedAt", "version"}
    ensures Get(r, "projects") == GetProjects(items, c)
    ensures Get(r, "selectedProjectId") == GetSelectedProjectId(items, c)
    ensures Get(r, "version") == Str(VERSION)
  {
    Obj(map[
      "projects" := GetProjects(items, c),
      "selectedProjectId" := GetSelectedProjectId(items, c),
      "exportedAt" := Str(exportedAt),
      "version" := Str(VERSION)])
  }

  /** `exportData()` (indentation is part of `stringify` and not modelled). */
  function ExportData(items: map<string, string>, c: Codec, exportedAt: string): string {
    c.stringify(ExportDocument(items, c, exportedAt))
  }

  // ---------------------------------------------------------------------------
  // Import

  /** `v ? new Date(v) : undefined`. */
  function OptionalDate(v: Value): (r: Value)
    ensures Truthy(v) <==> r.Date?
    ensures !Truthy(v) ==> r == Undefined
  {
    if Truthy(v) then Date(v) else Undefined
  }

  /** A list field `import` can restore: absent, or an array without null entries. */
  predicate ListRestorable(list: Value) {
    IsNullish(list) || (list.Arr? && forall i :: 0 <= i < |list.items| ==> !IsNullish(list.items[i]))
  }

  /** A project `import` can restore without throwing. */
  predicate Restorable(p: Value) {
    !IsNullish(p) && ListRestorable(Get(p, "checklist")) && ListRestorable(Get(p, "expenses"))
  }

  /** `items.map(item => ({ ...item, [field]: item[field] ? new Date(item[field]) : undefined }))`,
      which throws at the first null entry. */
  function RestoreItems(items: seq<Value>, field: string): (r: Result<seq<Value>, Fault>)
    ensures r.Success? <==> forall i :: 0 <= i < |items| ==> !IsNullish(items[i])
    ensures r.Failure? ==> r.error == NullAccess(field)
    ensures r.Success? ==> |r.value| == |items| && forall i :: 0 <= i < |items| ==>
      r.value[i] == Obj(Spread(items[i])[field := OptionalDate(Get(items[i], field))])
  {
    if items == [] then Success([])
    else if IsNullish(items[0]) then Failure(NullAccess(field))
    else match RestoreItems(items[1..], field)
      case Failure(f) => Failure(f)
      case Success(rest) =>
        Success([Obj(Spread(items[0])[field := OptionalDate(Get(items[0], field))])] + rest)
  }

  /** `list?.map(...) || []`: a missing list becomes empty, a value without `map` throws. */
  function RestoreList(list: Value, field: string): (r: Result<Value, Fault>)
    ensures r.Success? <==> ListRestorable(list)
    ensures IsNullish(list) ==> r == Success(Arr([]))
    ensures r.Success? ==> r.value.Arr? && (list.Arr? ==> |r.value.items| == |list.items|)
    ensures list.Arr? && r.Success? ==> Success(r.value.items) == RestoreItems(list.items, field)
    ensures !IsNullish(list) && !list.Arr? ==> r == Failure(NotAFunction("map"))
  {
    if IsNullish(list) then Success(Arr([]))
    else if !list.Arr? then Failure(NotAFunction("map"))
    else match RestoreItems(list.items, field)
      case Failure(f) => Failure(f)
      case Success(items) => Success(Arr(items))
  }

  /** `client ? { ...client, deliveryDate: ... } : undefined`. */
  function RestoreClient(client: Value): (r: Value)
    ensures !Truthy(client) ==> r == Undefined
    ensures Truthy(client) ==> r.Obj? && Get(r, "deliveryDate") == OptionalDate(Get(client, "deliveryDate"))
    ensures Truthy(client) ==> forall k :: k in Spread(client) && k != "deliveryDate" ==> Get(r, k) == Spread(client)[k]
  {
    if Truthy(client) then Obj(Spread(client)["deliveryDate" := OptionalDate(Get(client, "deliveryDate"))])
    else Undefined
  }

  /** The fields `importData` rebuilds in each project. */
  const RESTORED_FIELDS := {"createdAt", "updatedAt", "shootDate", "checklist", "expenses", "client"}

  /** One project of `importData`'s map: its fields spread, dates rebuilt and missing lists
      replaced by empty ones. Properties are read in the order the object literal lists them. */
  function RestoreProject(p: Value): (r: Result<Value, Fault>)
    ensures r.Success? <==> Restorable(p)
    ensures IsNullish(p) ==> r == Failure(NullAccess("createdAt"))
    ensures r.Success? ==>
      r.value.Obj?
      && Get(r.value, "createdAt") == Date(Get(p, "createdAt"))
      && Get(r.value, "updatedAt") == Date(Get(p, "updatedAt"))
      && Get(r.value, "checklist").Arr? && Get(r.value, "expenses").Arr?
      && Get(r.value, "shootDate") == OptionalDate(Get(p, "shootDate"))
      && Get(r.value, "client") == RestoreClient(Get(p, "client"))
      && Success(Get(r.value, "checklist")) == RestoreList(Get(p, "checklist"), "dueDate")
      && Success(Get(r.value, "expenses")) == RestoreList(Get(p, "expenses"), "date")
      && (IsNullish(Get(p, "checklist")) ==> Get(r.value, "checklist") == Arr([]))
      && (IsNullish(Get(p, "expenses")) ==> Get(r.value, "expenses") == Arr([]))
      && (forall k :: k in Spread(p) && k !in RESTORED_FIELDS ==> Get(r.value, k) == Spread(p)[k])
  {
    if IsNullish(p) then Failure(NullAccess("createdAt"))
    else match RestoreList(Get(p, "checklist"), "dueDate")
      case Failure(f) => Failure(f)
      case Success(checklist) =>
        match RestoreList(Get(p, "expenses"), "date")
        case Failure(f) => Failure(f)
        case Success(expenses) =>
          var fields := Spread(p)
            ["createdAt" := Date(Get(p, "createdAt"))]
            ["updatedAt" := Date(Get(p, "updatedAt"))]
            ["shootDate" := OptionalDate(Get(p, "shootDate"))]
            ["checklist" := checklist]
            ["expenses" := expenses]
            ["client" := RestoreClient(Get(p, "client"))];
          assert forall k :: k in Spread(p) && k !in RESTORED_FIELDS ==> fields[k] == Spread(p)[k];
          Success(Obj(fields))
  }

  /** `projects.map(restore)`, which stops at the first project that throws. */
  function RestoreAll(projects: seq<Value>): (r: Result<seq<Value>, Fault>)
    ensures r.Success? <==> forall i :: 0 <= i < |projects| ==> Restorable(projects[i])
    ensures r.Success? ==> |r.value| == |projects| && forall i :: 0 <= i < |projects| ==>
      r.value[i] == RestoreProject(projects[i]).value
  {
    if projects == [] then Success([])
    else match RestoreProject(projects[0])
      case Failure(f) => Failure(f)
      case Success(p) =>
        match RestoreAll(projects[1..])
        case Failure(f) => Failure(f)
        case Success(rest) => Success([p] + rest)
  }

  /** What `importData` decides for a parsed document. */
  datatype ImportOutcome =
    | Imported(projects: seq<Value>, selected: Value)
    | MissingProjects
    | Threw(fault: Fault)

  /** `importData` after `JSON.parse`: reading `data.version` throws on `null`, a missing or
      non-array `projects` is rejected, and every project is restored. */
  function ImportDocument(data: Value): (r: ImportOutcome)
    ensures IsNullish(data) ==> r == Threw(NullAccess("version"))
    ensures r.MissingProjects? <==> !IsNullish(data) && !Get(data, "projects").Arr?
    ensures r.Imported? <==>
      !IsNullish(data) && Get(data, "projects").Arr?
      && forall i :: 0 <= i < |Get(data, "projects").items| ==> Restorable(Get(data, "projects").items[i])
    ensures r.Imported? ==>
      |r.projects| == |Get(data, "projects").items|
      && r.selected == Get(data, "selectedProjectId")
      && forall i :: 0 <= i < |r.projects| ==> r.projects[i] == RestoreProject(Get(data, "projects").items[i]).value
  {
    if IsNullish(data) then Threw(NullAccess("version"))
    else
      var projects := Get(data, "projects");
      if !Truthy(projects) || !projects.Arr? then MissingProjects
      else match RestoreAll(projects.items)
        case Failure(f) => Threw(f)
        case Success(ps) => Imported(ps, Get(data, "selectedProjectId"))
  }

  /** `importData(jsonData)` before it touches the store. */
  function ImportPlan(c: Codec, text: string): (r: ImportOutcome)
    ensures c.parse(text).Failure? ==> r == Threw(c.parse(text).error)
    ensures c.parse(text).Success? ==> r == ImportDocument(c.parse(text).value)
  {
    match c.parse(text)
    case Failure(f) => Threw(f)
    case Success(data) => ImportDocument(data)
  }

  /** The store after a successful import: the projects key is overwritten, and the selection
      only when the document names a truthy one. */
  function AfterImport(items: map<string, string>, c: Codec, projects: seq<Value>, selected: Value): (r: map<string, string>)
    ensures r.Keys == items.Keys + {PROJECTS_KEY} + (if Truthy(selected) then {SELECTED_PROJECT_KEY} else {})
    ensures r[PROJECTS_KEY] == c.stringify(Arr(projects))
    ensures !Truthy(selected) ==> SELECTED_PROJECT_KEY in items ==> r[SELECTED_PROJECT_KEY] == items[SELECTED_PROJECT_KEY]
    ensures Truthy(selected) ==> r[SELECTED_PROJECT_KEY] == c.stringify(selected)
    ensures forall k :: k in items && k != PROJECTS_KEY && k != SELECTED_PROJECT_KEY ==> r[k] == items[k]
  {
    var written := items[PROJECTS_KEY := c.stringify(Arr(projects))];
    if Truthy(selected) then written[SELECTED_PROJECT_KEY := c.stringify(selected)] else written
  }

  function ImportReport(c: Codec, outcome: ImportOutcome): (r: Report)
    ensures r.success <==> outcome.Imported?
  {
    match outcome
    case Imported(projects, _) => Report(true, "成功导入 " + DecimalString(|projects|) + " 个项目")
    case MissingProjects => Report(false, "数据格式无效：缺少项目数组")
    case Threw(f) => Report(false, "导入失败：" + ErrorMessage(c, f))
  }

  /** `importData(jsonData)`: never throws, and writes nothing unless it succeeds. */
  method ImportData(store: LocalStorage, c: Codec, text: string) returns (report: Report)
    modifies store
    ensures report == ImportReport(c, ImportPlan(c, text))
    ensures !ImportPlan(c, text).Imported? ==> store.items == old(store.items)
    ensures ImportPlan(c, text).Imported? ==>
      store.items == AfterImport(old(store.items), c, ImportPlan(c, text).projects, ImportPlan(c, text).selected)
  {
    var outcome := ImportPlan(c, text);
    if outcome.Imported? {
      store.SetItem(PROJECTS_KEY, c.stringify(Arr(outcome.projects)));
      if Truthy(outcome.selected) {
        store.SetItem(SELECTED_PROJECT_KEY, c.stringify(outcome.selected));
      }
    }
    report := ImportReport(c, outcome);
  }

  /** After a successful import, `getProjects` returns the imported list as it was written,
      with its date texts revived. */
  lemma ImportThenGetProjects(items: map<string, string>, c: Codec, projects: seq<Value>, selected: Value)
    requires RoundTrips(c)
    ensures GetProjects(AfterImport(items, c, projects, selected), c) == Revive(Jsonify(c, Arr(projects)))
  {
    WrittenValueReadsBack(c, Arr(projects));
  }

  /** The import reports the number of projects it stored, and it is the number of projects
      in the document. */
  lemma ImportCountsProjects(c: Codec, text: string)
    requires ImportPlan(c, text).Imported?
    ensures var outcome := ImportPlan(c, text);
      ImportReport(c, outcome).message == "成功导入 " + DecimalString(|outcome.projects|) + " 个项目"
      && |outcome.projects| == |Get(c.parse(text).value, "projects").items|
  {
  }

  // ---------------------------------------------------------------------------
  // Export, then import

  /** A list field that survives being written as JSON and restored. */
  predicate ListOfObjects(list: Value) {
    IsNullish(list) || (list.Arr? && forall i :: 0 <= i < |list.items| ==> list.items[i].Obj?)
  }

  /** A stored project whose export can be imported back. */
  predicate Exportable(p: Value) {
    p.Obj? && ListOfObjects(Get(p, "checklist")) && ListOfObjects(Get(p, "expenses"))
  }

  lemma JsonifyKeepsListOfObjects(c: Codec, list: Value)
    requires ListOfObjects(list)
    ensures ListRestorable(Jsonify(c, list)) && ListOfObjects(Jsonify(c, list))
  {
  }

  lemma JsonifyKeepsExportable(c: Codec, p: Value)
    requires Exportable(p)
    ensures Exportable(Jsonify(c, p)) && Restorable(Jsonify(c, p))
  {
    var j := Jsonify(c, p);
    forall key | key in {"checklist", "expenses"}
      ensures ListOfObjects(Get(j, key)) && ListRestorable(Get(j, key))
    {
      if key in p.fields && !p.fields[key].Undefined? {
        assert Get(j, key) == Jsonify(c, Get(p, key));
        JsonifyKeepsListOfObjects(c, Get(p, key));
      } else {
        assert Get(j, key) == Undefined;
      }
    }
  }

  /**
   * Importing an export succeeds, provided the stored projects are objects
   * whose lists hold objects: each stored project comes back as the restore
   * of its written form, in order, and the selection as it was written.
   */
  lemma ExportThenImport(items: map<string, string>, c: Codec, exportedAt: string)
    requires RoundTrips(c)
    requires GetProjects(items, c).Arr?
    requires forall i :: 0 <= i < |GetProjects(items, c).items| ==> Exportable(GetProjects(items, c).items[i])
    ensures ImportPlan(c, ExportData(items, c, exportedAt)).Imported?
    ensures |ImportPlan(c, ExportData(items, c, exportedAt)).projects| == |GetProjects(items, c).items|
    ensures forall i :: 0 <= i < |GetProjects(items, c).items| ==>
      RestoreProject(Jsonify(c, GetProjects(items, c).items[i]))
        == Success(ImportPlan(c, ExportData(items, c, exportedAt)).projects[i])
    ensures ImportPlan(c, ExportData(items, c, exportedAt)).selected == Jsonify(c, GetSelectedProjectId(items, c))
  {
    var doc := ExportDocument(items, c, exportedAt);
    var projects := GetProjects(items, c);
    assert c.parse(c.stringify(doc)) == Success(Jsonify(c, doc));
    var data := Jsonify(c, doc);
    assert Get(data, "projects") == Jsonify(c, projects);
    forall i | 0 <= i < |projects.items|
      ensures Restorable(Get(data, "projects").items[i])
    {
      JsonifyKeepsExportable(c, projects.items[i]);
    }
    var selected := GetSelectedProjectId(items, c);
    if selected.Undefined? {
      assert "selectedProjectId" !in data.fields;
    } else {
      assert Get(data, "selectedProjectId") == Jsonify(c, selected);
    }
  }

  /** A field the import does not rebuild, holding no date, survives writing and restoring
      a project, and writing the restored project again. */
  lemma RestoreKeepsPlainField(c: Codec, p: Value, k: string)
    requires RoundTrips(c) && Exportable(p)
    requires k !in RESTORED_FIELDS && Plain(Get(p, k))
    ensures RestoreProject(Jsonify(c, p)).Success?
    ensures Get(RestoreProject(Jsonify(c, p)).value, k) == Get(p, k)
    ensures Get(Jsonify(c, RestoreProject(Jsonify(c, p)).value), k) == Get(p, k)
  {
    JsonifyKeepsExportable(c, p);
    PlainSurvivesJson(c, Get(p, k));
    assert Get(Jsonify(c, p), k) == Get(p, k);
  }

  /** A field of a rebuilt list's item other than its date, holding no date, survives
      writing and restoring a project, and the list keeps its length. The date field
      comes back as a date of its written text. */
  lemma RestoreKeepsPlainItemField(c: Codec, p: Value, key: string, field: string, j: int, k: string)
    requires RoundTrips(c) && Exportable(p)
    requires (key, field) == ("checklist", "dueDate") || (key, field) == ("expenses", "date")
    requires Get(p, key).Arr? && 0 <= j < |Get(p, key).items|
    requires k != field && Plain(Get(Get(p, key).items[j], k))
    ensures RestoreProject(Jsonify(c, p)).Success?
    ensures var list := Get(RestoreProject(Jsonify(c, p)).value, key);
      && list.Arr? && |list.items| == |Get(p, key).items|
      && Get(list.items[j], k) == Get(Get(p, key).items[j], k)
      && Get(list.items[j], field) == OptionalDate(Jsonify(c, Get(Get(p, key).items[j], field)))
  {
    JsonifyKeepsExportable(c, p);
    var item := Get(p, key).items[j];
    var written := Get(Jsonify(c, p), key);
    assert written == Jsonify(c, Get(p, key));
    WrittenItem(c, Get(p, key).items, j, k, field);
    var r := RestoreProject(Jsonify(c, p)).value;
    assert Success(Get(r, key)) == RestoreList(written, field);
    RestoredItem(written, field, j, k);
  }

  /** A written object item keeps its plain field and writes its date field. */
  lemma WrittenItem(c: Codec, items: seq<Value>, j: int, k: string, field: string)
    requires 0 <= j < |items| && items[j].Obj? && Plain(Get(items[j], k))
    ensures var w := Jsonify(c, Arr(items)).items[j];
      w.Obj? && Get(w, k) == Get(items[j], k) && Get(w, field) == Jsonify(c, Get(items[j], field))
  {
    PlainSurvivesJson(c, Get(items[j], k));
  }

  /** An item of a restored list keeps every field but the date field, which it rebuilds. */
  lemma RestoredItem(list: Value, field: string, j: int, k: string)
    requires list.Arr? && ListRestorable(list) && 0 <= j < |list.items| && list.items[j].Obj?
    ensures var r := RestoreList(list, field).value;
      && r.Arr? && |r.items| == |list.items|
      && (k != field ==> Get(r.items[j], k) == Get(list.items[j], k))
      && Get(r.items[j], field) == OptionalDate(Get(list.items[j], field))
  {
  }

  /** Reading a written list back gives each element written and revived. */
  lemma ReadBackAt(c: Codec, vs: seq<Value>, i: int)
    requires 0 <= i < |vs| && !vs[i].Undefined?
    ensures var back := Revive(Jsonify(c, Arr(vs)));
      back.Arr? && |back.items| == |vs| && back.items[i] == Revive(Jsonify(c, vs[i]))
  {
  }

  /** Reading a written object back gives each defined field written and revived. */
  lemma ReadBackGet(c: Codec, v: Value, k: string)
    requires v.Obj? && !Get(v, k).Undefined?
    ensures Get(Revive(Jsonify(c, v)), k) == Revive(Jsonify(c, Get(v, k)))
  {
  }

  /** What the whole cycle gives back for one stored project: the written and revived form of
      the project the import restored from it. */
  lemma ExportImportProject(items: map<string, string>, c: Codec, exportedAt: string,
                            target: map<string, string>, i: int)
    requires RoundTrips(c)
    requires GetProjects(items, c).Arr?
    requires forall j :: 0 <= j < |GetProjects(items, c).items| ==> Exportable(GetProjects(items, c).items[j])
    requires 0 <= i < |GetProjects(items, c).items|
    ensures var outcome := ImportPlan(c, ExportData(items, c, exportedAt));
      && outcome.Imported? && |outcome.projects| == |GetProjects(items, c).items|
      && RestoreProject(Jsonify(c, GetProjects(items, c).items[i])) == Success(outcome.projects[i])
      && var back := GetProjects(AfterImport(target, c, outcome.projects, outcome.selected), c);
      && back.Arr? && |back.items| == |GetProjects(items, c).items|
      && back.items[i] == Revive(Jsonify(c, outcome.projects[i]))
  {
    ExportThenImport(items, c, exportedAt);
    var outcome := ImportPlan(c, ExportData(items, c, exportedAt));
    ImportThenGetProjects(target, c, outcome.projects, outcome.selected);
    ReadBackAt(c, outcome.projects, i);
  }

  /**
   * The whole cycle: export, import into any store (a cleared one, say),
   * then `getProjects`. The same number of projects comes back, and every
   * field the import does not rebuild reads back as it was stored, as long
   * as it holds no date.
   */
  lemma ExportImportReadBack(items: map<string, string>, c: Codec, exportedAt: string,
                             target: map<string, string>, i: int, k: string)
    requires RoundTrips(c)
    requires GetProjects(items, c).Arr?
    requires forall j :: 0 <= j < |GetProjects(items, c).items| ==> Exportable(GetProjects(items, c).items[j])
    requires 0 <= i < |GetProjects(items, c).items|
    requires k !in RESTORED_FIELDS && Plain(Get(GetProjects(items, c).items[i], k))
    ensures var outcome := ImportPlan(c, ExportData(items, c, exportedAt));
      && outcome.Imported?
      && var back := GetProjects(AfterImport(target, c, outcome.projects, outcome.selected), c);
      && back.Arr? && |back.items| == |GetProjects(items, c).items|
      && Get(back.items[i], k) == Get(GetProjects(items, c).items[i], k)
  {
    var stored := GetProjects(items, c).items;
    ExportImportProject(items, c, exportedAt, target, i);
    var outcome := ImportPlan(c, ExportData(items, c, exportedAt));
    var back := GetProjects(AfterImport(target, c, outcome.projects, outcome.selected), c);
    var restored := outcome.projects[i];
    RestoreKeepsPlainField(c, stored[i], k);
    var v := Get(stored[i], k);
    assert Get(restored, k) == v;
    ReadBackGet(c, restored, k);
    PlainSurvivesJson(c, v);
    assert Get(back.items[i], k) == v;
  }

  /**
   * The whole cycle for the lists the import rebuilds: after export, import
   * and `getProjects`, a stored checklist or expense list comes back with
   * its length, and each field of each item other than its date reads back
   * as it was stored, as long as it holds no date (a task's `completed`
   * flag, say).
   */
  lemma ExportImportReadBackItems(items: map<string, string>, c: Codec, exportedAt: string,
                                  target: map<string, string>, i: int,
                                  key: string, field: string, j: int, k: string)
    requires RoundTrips(c)
    requires GetProjects(items, c).Arr?
    requires forall n :: 0 <= n < |GetProjects(items, c).items| ==> Exportable(GetProjects(items, c).items[n])
    requires 0 <= i < |GetProjects(items, c).items|
    requires (key, field) == ("checklist", "dueDate") || (key, field) == ("expenses", "date")
    requires Get(GetProjects(items, c).items[i], key).Arr?
    requires 0 <= j < |Get(GetProjects(items, c).items[i], key).items|
    requires k != field && Plain(Get(Get(GetProjects(items, c).items[i], key).items[j], k))
    ensures var outcome := ImportPlan(c, ExportData(items, c, exportedAt));
      && outcome.Imported?
      && var back := GetProjects(AfterImport(target, c, outcome.projects, outcome.selected), c);
      && back.Arr? && |back.items| == |GetProjects(items, c).items|
      && var list := Get(back.items[i], key);
      && list.Arr? && |list.items| == |Get(GetProjects(items, c).items[i], key).items|
      && Get(list.items[j], k) == Get(Get(GetProjects(items, c).items[i], key).items[j], k)
  {
    var stored := GetProjects(items, c).items[i];
    ExportImportProject(items, c, exportedAt, target, i);
    var outcome := ImportPlan(c, ExportData(items, c, exportedAt));
    var restored := outcome.projects[i];
    RestoreKeepsPlainItemField(c, stored, key, field, j, k);
    var list := Get(restored, key);
    ReadBackGet(c, restored, key);
    assert list.items[j].Obj?;
    ReadBackAt(c, list.items, j);
    ReadBackGet(c, list.items[j], k);
    PlainSurvivesJson(c, Get(list.items[j], k));
  }

  // ---------------------------------------------------------------------------
  // Clearing

  const STORAGE_KEYS: seq<string> := [PROJECTS_KEY, SELECTED_PROJECT_KEY]

  /** `clearAllData()`: removes each of the two keys in turn. */
  method ClearAllData(store: LocalStorage)
    modifies store
    ensures store.items == old(store.items) - {PROJECTS_KEY, SELECTED_PROJECT_KEY}
  {
    for i := 0 to |STORAGE_KEYS|
      invariant store.items == old(store.items) - set j | 0 <= j < i :: STORAGE_KEYS[j]
    {
      store.RemoveItem(STORAGE_KEYS[i]);
      assert (set j | 0 <= j < i + 1 :: STORAGE_KEYS[j]) == (set j | 0 <= j < i :: STORAGE_KEYS[j]) + {STORAGE_KEYS[i]};
    }
    assert (set j | 0 <= j < |STORAGE_KEYS| :: STORAGE_KEYS[j]) == {PROJECTS_KEY, SELECTED_PROJECT_KEY} by {
      assert STORAGE_KEYS[0] == PROJECTS_KEY && STORAGE_KEYS[1] == SELECTED_PROJECT_KEY;
    }
  }

  /** The store after `clearAllData`. */
  function Cleared(items: map<string, string>): (r: map<string, string>)
    ensures r.Keys == items.Keys - {PROJECTS_KEY, SELECTED_PROJECT_KEY}
    ensures forall k :: k in r ==> r[k] == items[k]
  {
    items - {PROJECTS_KEY, SELECTED_PROJECT_KEY}
  }

  /** Clearing twice is clearing once, and afterwards both readers fall back to defaults. */
  lemma ClearIdempotent(items: map<string, string>, c: Codec)
    ensures Cleared(Cleared(items)) == Cleared(items)
    ensures GetProjects(Cleared(items), c) == Arr([])
    ensures GetSelectedProjectId(Cleared(items), c) == Null
  {
  }

  // ---------------------------------------------------------------------------
  // Storage information

  function Pow(b: nat, e: nat): nat {
    if e == 0 then 1 else b * Pow(b, e - 1)
  }

  /** The unit index `Math.floor(Math.log(bytes) / Math.log(1024))`, computed exactly. */
  function UnitIndex(bytes: nat): (i: nat)
    requires bytes > 0
    ensures Pow(1024, i) <= bytes < Pow(1024, i + 1)
  {
    if bytes < 1024 then 0
    else
      var i := UnitIndex(bytes / 1024);
      assert Pow(1024, i + 1) == 1024 * Pow(1024, i);
      assert Pow(1024, i + 2) == 1024 * Pow(1024, i + 1);
      1 + i
  }

  /** `sizes[i]`, which is `undefined` past megabytes. */
  function UnitName(i: nat): string {
    if i < 3 then ["Bytes", "KB", "MB"][i] else "undefined"
  }

  /** `formatBytes(bytes)`; `scaled` renders `parseFloat((bytes / 1024 ** i).toFixed(2))`. */
  function FormatBytes(bytes: nat, scaled: (nat, nat) -> string): (r: string)
    ensures bytes == 0 ==> r == "0 Bytes"
    ensures 0 < bytes < 1024 ==> r == scaled(bytes, 0) + " Bytes"
    ensures 1024 <= bytes < 1024 * 1024 ==> r == scaled(bytes, 1) + " KB"
    ensures 1024 * 1024 <= bytes < 1024 * 1024 * 1024 ==> r == scaled(bytes, 2) + " MB"
    ensures 1024 * 1024 * 1024 <= bytes ==> r == scaled(bytes, UnitIndex(bytes)) + " undefined"
  {
    if bytes == 0 then "0 Bytes"
    else
      var i := UnitIndex(bytes);
      UnitIndexUnique(bytes, i);
      scaled(bytes, i) + " " + UnitName(i)
  }

  lemma UnitIndexUnique(bytes: nat, i: nat)
    requires Pow(1024, i) <= bytes < Pow(1024, i + 1)
    ensures bytes < 1024 ==> i == 0
    ensures 1024 <= bytes < 1024 * 1024 ==> i == 1
    ensures 1024 * 1024 <= bytes < 1024 * 1024 * 1024 ==> i == 2
    ensures 1024 * 1024 * 1024 <= bytes ==> i >= 3
  {
    PowMonotone(i);
    assert Pow(1024, 1) == 1024;
    assert Pow(1024, 2) == 1024 * 1024;
    assert Pow(1024, 3) == 1024 * 1024 * 1024;
    if i >= 3 { PowIncreasing(3, i); }
    if i >= 2 { PowIncreasing(2, i); }
    if i >= 1 { PowIncreasing(1, i); }
    if i <= 2 { PowIncreasing(i + 1, 3); }
    if i <= 1 { PowIncreasing(i + 1, 2); }
    if i == 0 { PowIncreasing(1, 1); }
  }

  lemma PowMonotone(i: nat)
    ensures Pow(1024, i) >= 1
  {
    if i > 0 { PowMonotone(i - 1); }
  }

  lemma {:induction false} PowIncreasing(i: nat, j: nat)
    requires i <= j
    ensures Pow(1024, i) <= Pow(1024, j)
    decreases j - i
  {
    if i < j {
      PowIncreasing(i + 1, j);
      PowMonotone(i);
    }
  }

  /** What `getStorageInfo()` returns. */
  datatype StorageInfo = StorageInfo(
    totalSize: nat, itemCount: nat, projectsSize: nat, selectedProjectSize: nat,
    formattedTotalSize: string, formattedProjectsSize: string)

  /** `getStorageInfo()`; `scaled` is the number rendering `FormatBytes` takes. */
  method GetStorageInfo(store: LocalStorage, scaled: (nat, nat) -> string) returns (info: StorageInfo)
    ensures info.totalSize == TotalSize(store.items)
    ensures info.itemCount == |store.items|
    ensures info.projectsSize == if PROJECTS_KEY in store.items then |store.items[PROJECTS_KEY]| else 0
    ensures info.selectedProjectSize ==
      if SELECTED_PROJECT_KEY in store.items then |store.items[SELECTED_PROJECT_KEY]| else 0
    ensures info.projectsSize <= info.totalSize && info.selectedProjectSize <= info.totalSize
    ensures info.formattedTotalSize == FormatBytes(info.totalSize, scaled)
    ensures info.formattedProjectsSize == FormatBytes(info.projectsSize, scaled)
  {
    var totalSize := 0;
    var itemCount := 0;
    var rest := store.items.Keys;
    assert Restrict(store.items, rest) == store.items;
    while rest != {}
      invariant rest <= store.items.Keys
      invariant totalSize + TotalSize(Restrict(store.items, rest)) == TotalSize(store.items)
      invariant itemCount + |rest| == |store.items|
      decreases |rest|
    {
      var key :| key in rest;
      TotalSizeRemove(Restrict(store.items, rest), key);
      assert Restrict(store.items, rest) - {key} == Restrict(store.items, rest - {key});
      totalSize := totalSize + EntrySize(key, store.items[key]);
      itemCount := itemCount + 1;
      rest := rest - {key};
    }
    assert Restrict(store.items, rest) == map[];
    var projectsSize := if PROJECTS_KEY in store.items then |store.items[PROJECTS_KEY]| else 0;
    var selectedSize := if SELECTED_PROJECT_KEY in store.items then |store.items[SELECTED_PROJECT_KEY]| else 0;
    if PROJECTS_KEY in store.items {
      TotalSizeAtLeast(store.items, PROJECTS_KEY);
    }
    if SELECTED_PROJECT_KEY in store.items {
      TotalSizeAtLeast(store.items, SELECTED_PROJECT_KEY);
    }
    info := StorageInfo(totalSize, itemCount, projectsSize, selectedSize,
      FormatBytes(totalSize, scaled), FormatBytes(projectsSize, scaled));
  }

  // ---------------------------------------------------------------------------
  // Migration

  /** `typeof item.dueDate === 'string'` over a checklist, stopping at the first hit. */
  function AnyStringDueDate(items: seq<Value>): (r: Result<bool, Fault>)
    ensures r == Success(true) ==> exists i :: 0 <= i < |items| && Get(items[i], "dueDate").Str?
    ensures r == Success(false) <==>
      forall i :: 0 <= i < |items| ==> !IsNullish(items[i]) && !Get(items[i], "dueDate").Str?
  {
    if items == [] then Success(false)
    else if IsNullish(items[0]) then Failure(NullAccess("dueDate"))
    else if Get(items[0], "dueDate").Str? then Success(true)
    else
      var r := AnyStringDueDate(items[1..]);
      assert r == Success(true) ==> Get(items[1..][0], "dueDate").Str? || exists i :: 1 <= i < |items| && Get(items[i], "dueDate").Str? by {
        if r == Success(true) {
          var j :| 0 <= j < |items[1..]| && Get(items[1..][j], "dueDate").Str?;
          assert Get(items[j + 1], "dueDate").Str?;
        }
      }
      r
  }

  /** The test one project gets in `needsMigration`. */
  function ProjectNeedsMigration(p: Value): (r: Result<bool, Fault>)
    ensures IsNullish(p) ==> r.Failure?
    ensures !IsNullish(p) && !Truthy(Get(p, "updatedAt")) ==> r == Success(true)
  {
    if IsNullish(p) then Failure(NullAccess("updatedAt"))
    else if !Truthy(Get(p, "updatedAt")) then Success(true)
    else
      var checklist := Get(p, "checklist");
      if !Truthy(checklist) then Success(false)
      else if !checklist.Arr? then Failure(NotAFunction("some"))
      else AnyStringDueDate(checklist.items)
  }

  /** A project that needs no migration: it has an `updatedAt` and no checklist due date is
      still text. */
  predicate UpToDateProject(p: Value) {
    !IsNullish(p) && Truthy(Get(p, "updatedAt"))
    && (Truthy(Get(p, "checklist")) ==>
          Get(p, "checklist").Arr?
          && forall i :: 0 <= i < |Get(p, "checklist").items| ==>
               !IsNullish(Get(p, "checklist").items[i]) && !Get(Get(p, "checklist").items[i], "dueDate").Str?)
  }

  lemma ProjectNeedsMigrationFalse(p: Value)
    ensures ProjectNeedsMigration(p) == Success(false) <==> UpToDateProject(p)
  {
  }

  /** `projects.some(...)`, stopping at the first project that needs migration. */
  function AnyNeedsMigration(projects: seq<Value>): (r: Result<bool, Fault>)
    ensures r == Success(false) <==> forall i :: 0 <= i < |projects| ==> UpToDateProject(projects[i])
  {
    if projects == [] then Success(false)
    else
      ProjectNeedsMigrationFalse(projects[0]);
      match ProjectNeedsMigration(projects[0])
      case Failure(f) => Failure(f)
      case Success(true) => Success(true)
      case Success(false) =>
        var r := AnyNeedsMigration(projects[1..]);
        assert forall i :: 1 <= i < |projects| ==> projects[i] == projects[1..][i - 1];
        r
  }

  /** `needsMigration`: calling `some` throws when the stored value is not an array. */
  function NeedsMigration(projects: Value): (r: Result<bool, Fault>)
    ensures r.Success? ==> projects.Arr?
    ensures r == Success(false) <==>
      projects.Arr? && forall i :: 0 <= i < |projects.items| ==> UpToDateProject(projects.items[i])
  {
    if IsNullish(projects) then Failure(NullAccess("some"))
    else if !projects.Arr? then Failure(NotAFunction("some"))
    else AnyNeedsMigration(projects.items)
  }

  /** `value && typeof value === 'string' ? new Date(value) : value`. */
  function DateFromText(v: Value): (r: Value)
    ensures Truthy(v) && v.Str? ==> r == Date(v)
    ensures !(Truthy(v) && v.Str?) ==> r == v
  {
    if Truthy(v) && v.Str? then Date(v) else v
  }

  /** The date fix-up of one list: `list.map(item => ({ ...item, [field]: DateFromText(item[field]) }))`. */
  function MigrateItems(items: seq<Value>, field: string): (r: Result<seq<Value>, Fault>)
    ensures r.Success? <==> forall i :: 0 <= i < |items| ==> !IsNullish(items[i])
    ensures r.Success? ==> |r.value| == |items| && forall i :: 0 <= i < |items| ==>
      r.value[i] == Obj(Spread(items[i])[field := DateFromText(Get(items[i], field))])
  {
    if items == [] then Success([])
    else if IsNullish(items[0]) then Failure(NullAccess(field))
    else match MigrateItems(items[1..], field)
      case Failure(f) => Failure(f)
      case Success(rest) => Success([Obj(Spread(items[0])[field := DateFromText(Get(items[0], field))])] + rest)
  }

  /**
   * The list under `key` can be migrated: it is absent or falsy, or an
   * array whose items are all objects or other non-nullish values.
   */
  predicate ListMigrates(fields: map<string, Value>, key: string, field: string) {
    var list := Get(Obj(fields), key);
    !Truthy(list) || (list.Arr? && MigrateItems(list.items, field).Success?)
  }

  /**
   * `if (migrated[key]) migrated[key] = migrated[key].map(...)`: a falsy
   * list is left alone, a non-array throws, and an array becomes its items
   * with their date field converted.
   */
  function MigrateList(fields: map<string, Value>, key: string, field: string): (r: Result<map<string, Value>, Fault>)
    ensures r.Success? <==> ListMigrates(fields, key, field)
    ensures r.Success? ==> r.value.Keys == fields.Keys
    ensures r.Success? ==> forall k :: k in fields && k != key ==> r.value[k] == fields[k]
    ensures !Truthy(Get(Obj(fields), key)) ==> r == Success(fields)
    ensures r.Success? && Truthy(Get(Obj(fields), key)) ==>
      Get(Obj(r.value), key).Arr?
      && MigrateItems(Get(Obj(fields), key).items, field) == Success(Get(Obj(r.value), key).items)
  {
    var list := Get(Obj(fields), key);
    if !Truthy(list) then Success(fields)
    else if !list.Arr? then Failure(NotAFunction("map"))
    else match MigrateItems(list.items, field)
      case Failure(f) => Failure(f)
      case Success(items) => Success(fields[key := Arr(items)])
  }

  /** One project of the migration map; `now` is `Date.now()`. */
  function MigrateProject(p: Value, now: TimeValue): (r: Result<Value, Fault>)
    ensures r.Success? ==> r.value.Obj? && Truthy(Get(r.value, "updatedAt"))
    ensures r.Success? && Truthy(Get(Obj(Spread(p)), "updatedAt")) ==>
      Get(r.value, "updatedAt") == Get(Obj(Spread(p)), "updatedAt")
    ensures r.Success? && !Truthy(Get(Obj(Spread(p)), "updatedAt")) && Truthy(Get(Obj(Spread(p)), "createdAt")) ==>
      Get(r.value, "updatedAt") == Get(Obj(Spread(p)), "createdAt")
    ensures r.Success? && !Truthy(Get(Obj(Spread(p)), "updatedAt")) && !Truthy(Get(Obj(Spread(p)), "createdAt")) ==>
      Get(r.value, "updatedAt") == Date(Num(TimeNumber(now)))
    ensures r.Success? ==> forall k :: k in Spread(p) && k !in {"updatedAt", "checklist", "expenses"} ==>
      Get(r.value, k) == Spread(p)[k]
    ensures r.Success? <==> ListMigrates(Spread(p), "checklist", "dueDate") && ListMigrates(Spread(p), "expenses", "date")
    ensures r.Success? && Truthy(Get(Obj(Spread(p)), "checklist")) ==>
      Get(r.value, "checklist").Arr?
      && MigrateItems(Get(Obj(Spread(p)), "checklist").items, "dueDate") == Success(Get(r.value, "checklist").items)
    ensures r.Success? && Truthy(Get(Obj(Spread(p)), "expenses")) ==>
      Get(r.value, "expenses").Arr?
      && MigrateItems(Get(Obj(Spread(p)), "expenses").items, "date") == Success(Get(r.value, "expenses").items)
    ensures r.Success? && !Truthy(Get(Obj(Spread(p)), "checklist")) ==>
      Get(r.value, "checklist") == Get(Obj(Spread(p)), "checklist")
    ensures r.Success? && !Truthy(Get(Obj(Spread(p)), "expenses")) ==>
      Get(r.value, "expenses") == Get(Obj(Spread(p)), "expenses")
  {
    var migrated := Spread(p);
    var stamped :=
      if Truthy(Get(Obj(migrated), "updatedAt")) then migrated
      else migrated["updatedAt" := if Truthy(Get(Obj(migrated), "createdAt")) then Get(Obj(migrated), "createdAt") else Date(Num(TimeNumber(now)))];
    assert Get(Obj(stamped), "checklist") == Get(Obj(migrated), "checklist");
    assert Get(Obj(stamped), "expenses") == Get(Obj(migrated), "expenses");
    match MigrateList(stamped, "checklist", "dueDate")
    case Failure(f) => Failure(f)
    case Success(withChecklist) =>
      assert Get(Obj(withChecklist), "expenses") == Get(Obj(migrated), "expenses");
      match MigrateList(withChecklist, "expenses", "date")
      case Failure(f) => Failure(f)
      case Success(withExpenses) =>
        assert Get(Obj(withExpenses), "checklist") == Get(Obj(withChecklist), "checklist");
        Success(Obj(withExpenses))
  }

  function MigrateAll(projects: seq<Value>, now: TimeValue): (r: Result<seq<Value>, Fault>)
    ensures r.Success? <==> forall i :: 0 <= i < |projects| ==> MigrateProject(projects[i], now).Success?
    ensures r.Success? ==> |r.value| == |projects| && forall i :: 0 <= i < |projects| ==>
      MigrateProject(projects[i], now) == Success(r.value[i])
  {
    if projects == [] then Success([])
    else match MigrateProject(projects[0], now)
      case Failure(f) => Failure(f)
      case Success(p) =>
        match MigrateAll(projects[1..], now)
        case Failure(f) => Failure(f)
        case Success(rest) => Success([p] + rest)
  }

  datatype MigrationOutcome = AlreadyCurrent | Migrated(projects: seq<Value>) | MigrationThrew(fault: Fault)

  /** `migrateData()` before it touches the store. */
  function MigrationPlan(projects: Value, now: TimeValue): (r: MigrationOutcome)
    ensures r.AlreadyCurrent? <==> NeedsMigration(projects) == Success(false)
    ensures r.Migrated? <==> NeedsMigration(projects) == Success(true) && MigrateAll(projects.items, now).Success?
    ensures r.Migrated? ==> projects.Arr? && |r.projects| == |projects.items|
    ensures r.Migrated? ==> MigrateAll(projects.items, now) == Success(r.projects)
    ensures r.Migrated? ==> forall i :: 0 <= i < |r.projects| ==> Truthy(Get(r.projects[i], "updatedAt"))
    ensures r.MigrationThrew? ==>
      (NeedsMigration(projects).Failure? && r.fault == NeedsMigration(projects).error)
      || (NeedsMigration(projects) == Success(true) && MigrateAll(projects.items, now) == Failure(r.fault))
  {
    match NeedsMigration(projects)
    case Failure(f) => MigrationThrew(f)
    case Success(false) => AlreadyCurrent
    case Success(true) =>
      match MigrateAll(projects.items, now)
      case Failure(f) => MigrationThrew(f)
      case Success(ps) => Migrated(ps)
  }

  function MigrationReport(c: Codec, outcome: MigrationOutcome): (r: Report)
    ensures r.success <==> !outcome.MigrationThrew?
  {
    match outcome
    case AlreadyCurrent => Report(true, "数据已是最新版本，无需迁移")
    case Migrated(ps) => Report(true, "数据迁移完成，共迁移 " + DecimalString(|ps|) + " 个项目")
    case MigrationThrew(f) => Report(false, "数据迁移失败：" + ErrorMessage(c, f))
  }

  /** `migrateData()`: rewrites the projects key only when some project needs it. */
  method MigrateData(store: LocalStorage, c: Codec, now: TimeValue) returns (report: Report)
    modifies store
    ensures var outcome := MigrationPlan(GetProjects(old(store.items), c), now);
      report == MigrationReport(c, outcome)
      && store.items == if outcome.Migrated? then old(store.items)[PROJECTS_KEY := c.stringify(Arr(outcome.projects))]
                        else old(store.items)
  {
    var outcome := MigrationPlan(GetProjects(store.items, c), now);
    if outcome.Migrated? {
      store.SetItem(PROJECTS_KEY, c.stringify(Arr(outcome.projects)));
    }
    report := MigrationReport(c, outcome);
  }

  /** When every stored project is current, migration reports so and writes nothing; when
      it migrates, the reported count is the number of stored projects. */
  lemma MigrationCount(items: map<string, string>, c: Codec, now: TimeValue)
    ensures var projects := GetProjects(items, c);
      var outcome := MigrationPlan(projects, now);
      (projects.Arr? && (forall i :: 0 <= i < |projects.items| ==> UpToDateProject(projects.items[i])) ==>
         outcome == AlreadyCurrent)
      && (outcome.Migrated? ==>
         MigrationReport(c, outcome).message == "数据迁移完成，共迁移 " + DecimalString(|projects.items|) + " 个项目")
  {
  }
}
