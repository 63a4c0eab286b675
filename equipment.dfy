/** The equipment manager: gear with type, condition and service dates, its lookups, search and maintenance status. */
module EquipmentManager {
  import opened Wrappers
  import opened Lists
  import opened Text
  import opened Model
  import opened Metrics
  import Inspiration

  /** The add-equipment form; every field may be unset. */
  datatype EquipmentDraft = EquipmentDraft(
    name: Option<string>,
    kind: Option<string>,
    isRequired: Option<bool>,
    brand: Option<string>,
    model: Option<string>,
    notes: Option<string>,
    serialNumber: Option<string>,
    purchaseDate: Option<int>,
    condition: Option<string>,
    specifications: Option<Specifications>,
    rentalInfo: Option<RentalInfo>,
    maintenance: Option<Maintenance>)

  /** An entry of `EQUIPMENT_TYPES`. */
  datatype TypeInfo = TypeInfo(value: string, caption: string, icon: string, color: string)

  /** An entry of `CONDITION_OPTIONS`. */
  datatype ConditionInfo = ConditionInfo(value: string, caption: string, color: string, bgColor: string)

  const EQUIPMENT_TYPES: seq<TypeInfo> := [
    TypeInfo("camera", "相机", "📷", "bg-blue-500"),
    TypeInfo("lens", "镜头", "🔍", "bg-green-500"),
    TypeInfo("lighting", "灯光", "💡", "bg-yellow-500"),
    TypeInfo("tripod", "三脚架", "📐", "bg-purple-500"),
    TypeInfo("filter", "滤镜", "🎨", "bg-pink-500"),
    TypeInfo("memory", "存储", "💾", "bg-gray-500"),
    TypeInfo("battery", "电池", "🔋", "bg-red-500"),
    TypeInfo("accessory", "配件", "📦", "bg-indigo-500")
  ]

  const CONDITION_OPTIONS: seq<ConditionInfo> := [
    ConditionInfo("excellent", "优秀", "text-green-400", "bg-green-900"),
    ConditionInfo("good", "良好", "text-blue-400", "bg-blue-900"),
    ConditionInfo("fair", "一般", "text-yellow-400", "bg-yellow-900"),
    ConditionInfo("poor", "较差", "text-red-400", "bg-red-900")
  ]

  function EquipmentId(e: Equipment): string { e.id }

  /** `x` is set and non-empty. */
  predicate Filled(x: Option<string>) {
    x.Some? && x.value != ""
  }

  /**
   * `handleAddEquipment`: refused without a name; otherwise appended with
   * type "camera", condition "good" and not required where the form leaves
   * them unset or empty, and every other field copied from the form.
   */
  function AddEquipment(p: Project, draft: EquipmentDraft, id: string): (r: Project)
    ensures !Filled(draft.name) ==> r == p
    ensures Filled(draft.name) ==>
      && r == p.(equipment := r.equipment)
      && |r.equipment| == |p.equipment| + 1
      && r.equipment[..|p.equipment|] == p.equipment
      && r.equipment[|p.equipment|].id == id
      && r.equipment[|p.equipment|].name == draft.name.value
      && r.equipment[|p.equipment|].kind == TextOr(draft.kind, "camera")
      && r.equipment[|p.equipment|].condition == Some(TextOr(draft.condition, "good"))
      && r.equipment[|p.equipment|].isRequired == draft.isRequired.GetOr(false)
      && r.equipment[|p.equipment|].brand == draft.brand
      && r.equipment[|p.equipment|].model == draft.model
      && r.equipment[|p.equipment|].notes == draft.notes
      && r.equipment[|p.equipment|].serialNumber == draft.serialNumber
      && r.equipment[|p.equipment|].purchaseDate == draft.purchaseDate
      && r.equipment[|p.equipment|].specifications == draft.specifications
      && r.equipment[|p.equipment|].rentalInfo == draft.rentalInfo
      && r.equipment[|p.equipment|].maintenance == draft.maintenance
  {
    if !Filled(draft.name) then p
    else
      var item := Equipment(id, draft.name.value, TextOr(draft.kind, "camera"), draft.isRequired.GetOr(false),
        draft.brand, draft.model, draft.notes, draft.serialNumber, draft.purchaseDate,
        Some(TextOr(draft.condition, "good")), draft.specifications, draft.rentalInfo, draft.maintenance);
      p.(equipment := p.equipment + [item])
  }

  /** `handleUpdateEquipment`: every item carrying the updated item's id is replaced by it. */
  function UpdateEquipment(p: Project, updated: Equipment): (r: Project)
    ensures r == p.(equipment := r.equipment)
    ensures |r.equipment| == |p.equipment|
    ensures forall i :: 0 <= i < |p.equipment| ==>
      r.equipment[i] == if p.equipment[i].id == updated.id then updated else p.equipment[i]
  {
    p.(equipment := ReplaceWhere(p.equipment, (e: Equipment) => e.id == updated.id, (_: Equipment) => updated))
  }

  /** Re-saving an item that is already stored changes nothing. */
  lemma UpdateWithStoredItem(p: Project, i: int)
    requires 0 <= i < |p.equipment|
    requires forall j :: 0 <= j < |p.equipment| && p.equipment[j].id == p.equipment[i].id ==> j == i
    ensures UpdateEquipment(p, p.equipment[i]) == p
  {
    var r := UpdateEquipment(p, p.equipment[i]);
    assert r.equipment == p.equipment;
  }

  /** `handleDeleteEquipment`: exactly the items carrying `id` disappear, the rest keep their order. */
  function DeleteEquipment(p: Project, id: string): (r: Project)
    ensures r == p.(equipment := r.equipment)
    ensures IsSubsequence(r.equipment, p.equipment)
    ensures forall e :: e in r.equipment <==> e in p.equipment && e.id != id
    ensures |r.equipment| == Count(p.equipment, OtherId(EquipmentId, id))
  {
    p.(equipment := RemoveById(p.equipment, EquipmentId, id))
  }

  /** The first type entry for `kind`, if any (`EQUIPMENT_TYPES.find(...)`). */
  function FindType(types: seq<TypeInfo>, kind: string): (r: Option<TypeInfo>)
    ensures r.Some? ==> r.value in types && r.value.value == kind
    ensures r.None? ==> forall t :: t in types ==> t.value != kind
  {
    if types == [] then None
    else if types[0].value == kind then Some(types[0])
    else FindType(types[1..], kind)
  }

  /** `getEquipmentIcon`: the type's icon, "📦" for a type not in the table. */
  function EquipmentIcon(kind: string): (r: string)
    ensures forall i :: 0 <= i < |EQUIPMENT_TYPES| && EQUIPMENT_TYPES[i].value == kind ==> r == EQUIPMENT_TYPES[i].icon
    ensures (forall t :: t in EQUIPMENT_TYPES ==> t.value != kind) ==> r == "📦"
  {
    var found := FindType(EQUIPMENT_TYPES, kind);
    TypeIconsFound();
    if found.Some? && found.value.icon != "" then found.value.icon else "📦"
  }

  /** In a table whose earlier entries carry other types, the search stops at the entry for `types[i].value`. */
  lemma {:induction false} FindTypeAt(types: seq<TypeInfo>, i: int)
    requires 0 <= i < |types|
    requires forall j :: 0 <= j < i ==> types[j].value != types[i].value
    ensures FindType(types, types[i].value) == Some(types[i])
  {
    if i > 0 {
      FindTypeAt(types[1..], i - 1);
    }
  }

  /** Each type of the table is found at its own entry. */
  lemma TypeIconsFound()
    ensures forall i :: 0 <= i < |EQUIPMENT_TYPES| ==> FindType(EQUIPMENT_TYPES, EQUIPMENT_TYPES[i].value) == Some(EQUIPMENT_TYPES[i])
  {
    assert forall i, j :: 0 <= j < i < |EQUIPMENT_TYPES| ==> EQUIPMENT_TYPES[j].value != EQUIPMENT_TYPES[i].value;
    forall i | 0 <= i < |EQUIPMENT_TYPES| ensures FindType(EQUIPMENT_TYPES, EQUIPMENT_TYPES[i].value) == Some(EQUIPMENT_TYPES[i]) {
      FindTypeAt(EQUIPMENT_TYPES, i);
    }
  }

  /** The icons of the seven types before "accessory", by name. */
  lemma ListedTypeIcons()
    ensures EquipmentIcon("camera") == "📷" && EquipmentIcon("lens") == "🔍"
    ensures EquipmentIcon("lighting") == "💡" && EquipmentIcon("tripod") == "📐"
    ensures EquipmentIcon("filter") == "🎨" && EquipmentIcon("memory") == "💾"
    ensures EquipmentIcon("battery") == "🔋"
  {
    assert EQUIPMENT_TYPES[0].value == "camera" && EQUIPMENT_TYPES[1].value == "lens";
    assert EQUIPMENT_TYPES[2].value == "lighting" && EQUIPMENT_TYPES[3].value == "tripod";
    assert EQUIPMENT_TYPES[4].value == "filter" && EQUIPMENT_TYPES[5].value == "memory";
    assert EQUIPMENT_TYPES[6].value == "battery";
  }

  /** The first condition entry for `condition`, if any. */
  function FindCondition(options: seq<ConditionInfo>, condition: Option<string>): (r: Option<ConditionInfo>)
    ensures r.Some? ==> r.value in options && condition == Some(r.value.value)
    ensures r.None? ==> forall c :: c in options ==> condition != Some(c.value)
  {
    if options == [] then None
    else if condition == Some(options[0].value) then Some(options[0])
    else FindCondition(options[1..], condition)
  }

  /** `getConditionInfo`: the condition's entry, the "good" entry for anything else. */
  function ConditionEntry(condition: Option<string>): (r: ConditionInfo)
    ensures r in CONDITION_OPTIONS
    ensures condition.Some? && (exists c :: c in CONDITION_OPTIONS && c.value == condition.value) ==> r.value == condition.value
    ensures (forall c :: c in CONDITION_OPTIONS ==> condition != Some(c.value)) ==> r == CONDITION_OPTIONS[1] && r.value == "good"
  {
    var found := FindCondition(CONDITION_OPTIONS, condition);
    if found.Some? then found.value else CONDITION_OPTIONS[1]
  }

  /** `field?.toLowerCase().includes(term)`: an unset field matches nothing. */
  predicate OptionalMentions(field: Option<string>, term: string) {
    field.Some? && Inspiration.Mentions(field.value, term)
  }

  predicate MatchesSearch(e: Equipment, term: string) {
    Inspiration.Mentions(e.name, term) || OptionalMentions(e.brand, term) || OptionalMentions(e.model, term)
  }

  predicate Shown(e: Equipment, term: string, kind: Choice<string>, condition: Choice<string>) {
    MatchesSearch(e, term) && kind.Admits(e.kind) && (condition.All? || e.condition == Some(condition.value))
  }

  /** `filteredEquipment`: the items the search, the type filter and the condition filter admit, in order. */
  function FilteredEquipment(items: seq<Equipment>, term: string, kind: Choice<string>, condition: Choice<string>)
    : (r: seq<Equipment>)
    ensures IsSubsequence(r, items)
    ensures forall e :: e in r <==> e in items && Shown(e, term, kind, condition)
    ensures |r| == Count(items, ShownBy(term, kind, condition))
  {
    Filter(items, ShownBy(term, kind, condition))
  }

  /** The search and the two filters as the test `filter` applies. */
  function ShownBy(term: string, kind: Choice<string>, condition: Choice<string>): Equipment -> bool {
    e => Shown(e, term, kind, condition)
  }

  /** An empty search with both filters on "all" shows every item. */
  lemma EmptySearchShowsAll(items: seq<Equipment>)
    ensures FilteredEquipment(items, "", All, All) == items
  {
    forall e | e in items ensures Shown(e, "", All, All) {
      IncludesEmpty(ToLower(e.name));
    }
    FilterKeepsAll(items, e => Shown(e, "", All, All));
  }

  datatype MaintenanceStatus = Unknown | Overdue | DueSoon | Good

  /**
   * `getMaintenanceStatus`: unknown without a next service date; otherwise,
   * by whole days until the service rounded up, overdue below 0, due soon
   * up to 30, good beyond. In milliseconds: overdue when the date lies a
   * whole day or more in the past, good when it lies more than 30 days ahead.
   */
  function MaintenanceStatusAt(e: Equipment, now: int): (r: MaintenanceStatus)
    ensures r == Unknown <==> e.maintenance.None? || e.maintenance.value.nextService.None?
    ensures r == Overdue <==> r != Unknown && e.maintenance.value.nextService.value - now <= -DAY
    ensures r == DueSoon <==> r != Unknown && -DAY < e.maintenance.value.nextService.value - now <= 30 * DAY
    ensures r == Good <==> r != Unknown && e.maintenance.value.nextService.value - now > 30 * DAY
  {
    if e.maintenance.None? || e.maintenance.value.nextService.None? then Unknown
    else
      var days := DaysUntil(e.maintenance.value.nextService.value, now);
      if days < 0 then Overdue
      else if days <= 30 then DueSoon
      else Good
  }
}
