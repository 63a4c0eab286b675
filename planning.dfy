/**
 * The planning tab, in its basic and its enhanced form: quick equipment,
 * props, wardrobe, the shooting settings with their special requirements,
 * the golden-hour hint and the icon and colour tables.
 */
module Planning {
  import opened Wrappers
  import opened Lists
  import opened Text
  import opened Model
  import opened Metrics
  import opened Calendar
  import EquipmentManager

  /** Which of the two planning tabs performs an operation. */
  datatype Tab = BasicTab | EnhancedTab

  /**
   * `addEquipment`: a blank name is refused; otherwise a required camera
   * named exactly as typed is appended. The enhanced tab also marks it in
   * "good" condition; nothing else is set.
   */
  function AddEquipment(p: Project, tab: Tab, name: string, id: string): (r: Project)
    ensures IsBlank(name) ==> r == p
    ensures !IsBlank(name) ==>
      && r == p.(equipment := r.equipment)
      && |r.equipment| == |p.equipment| + 1
      && r.equipment[..|p.equipment|] == p.equipment
      && r.equipment[|p.equipment|].id == id
      && r.equipment[|p.equipment|].name == name
      && r.equipment[|p.equipment|].kind == "camera"
      && r.equipment[|p.equipment|].isRequired
      && r.equipment[|p.equipment|].condition == (if tab == EnhancedTab then Some("good") else None)
      && r.equipment[|p.equipment|].brand.None? && r.equipment[|p.equipment|].model.None?
      && r.equipment[|p.equipment|].notes.None? && r.equipment[|p.equipment|].serialNumber.None?
      && r.equipment[|p.equipment|].purchaseDate.None? && r.equipment[|p.equipment|].specifications.None?
      && r.equipment[|p.equipment|].rentalInfo.None? && r.equipment[|p.equipment|].maintenance.None?
  {
    if IsBlank(name) then p
    else
      var item := Equipment(id, name, "camera", true, None, None, None, None, None,
        if tab == EnhancedTab then Some("good") else None, None, None, None);
      p.(equipment := p.equipment + [item])
  }

  /** `removeEquipment`: exactly the items carrying `id` disappear, the rest keep their order. */
  function RemoveEquipment(p: Project, id: string): (r: Project)
    ensures r == p.(equipment := r.equipment)
    ensures IsSubsequence(r.equipment, p.equipment)
    ensures forall e :: e in r.equipment <==> e in p.equipment && e.id != id
    ensures |r.equipment| == Count(p.equipment, OtherId(EquipmentManager.EquipmentId, id))
  {
    p.(equipment := RemoveById(p.equipment, EquipmentManager.EquipmentId, id))
  }

  /** Equipment added under a fresh id is removed again by that id. */
  lemma AddThenRemoveEquipment(p: Project, tab: Tab, name: string, id: string)
    requires forall e :: e in p.equipment ==> e.id != id
    ensures RemoveEquipment(AddEquipment(p, tab, name, id), id) == p
  {
    if !IsBlank(name) {
      var added := AddEquipment(p, tab, name, id).equipment;
      assert added == p.equipment + [added[|p.equipment|]];
      RemoveByIdLast(p.equipment, added[|p.equipment|], EquipmentManager.EquipmentId, id);
    }
    RemoveByIdAbsent(p.equipment, EquipmentManager.EquipmentId, id);
  }

  /** The add guard shared by props, wardrobe and special requirements: a blank entry is refused, any other is appended as typed. */
  function AppendEntry(list: seq<string>, entry: string): (r: seq<string>)
    ensures IsBlank(entry) ==> r == list
    ensures !IsBlank(entry) ==> r == list + [entry]
  {
    if IsBlank(entry) then list else list + [entry]
  }

  /** Removing the entry just appended, by its index, restores the list. */
  lemma AppendThenRemoveIndex(list: seq<string>, entry: string)
    ensures RemoveIndex(AppendEntry(list, entry), |list|) == list
  {
    if !IsBlank(entry) {
      assert (list + [entry])[..|list|] == list;
    }
  }

  /** `addProp`: a non-blank prop is appended as typed. */
  function AddProp(p: Project, prop: string): (r: Project)
    ensures r == p.(props := r.props)
    ensures IsBlank(prop) ==> r.props == p.props
    ensures !IsBlank(prop) ==> |r.props| == |p.props| + 1 && r.props[..|p.props|] == p.props && r.props[|p.props|] == prop
  {
    p.(props := AppendEntry(p.props, prop))
  }

  /** `removeProp`: the prop at `index` goes; an index outside the list removes nothing. */
  function RemoveProp(p: Project, index: int): (r: Project)
    ensures r == p.(props := r.props)
    ensures RemovedAt(r.props, p.props, index)
  {
    p.(props := RemoveIndex(p.props, index))
  }

  /** Removing the last prop added restores the project. */
  lemma AddThenRemoveProp(p: Project, prop: string)
    ensures RemoveProp(AddProp(p, prop), |p.props|) == p
  {
    AppendThenRemoveIndex(p.props, prop);
  }

  /** `addWardrobeItem`: a non-blank item is appended as typed. */
  function AddWardrobeItem(p: Project, item: string): (r: Project)
    ensures r == p.(wardrobe := r.wardrobe)
    ensures IsBlank(item) ==> r.wardrobe == p.wardrobe
    ensures !IsBlank(item) ==> |r.wardrobe| == |p.wardrobe| + 1 && r.wardrobe[..|p.wardrobe|] == p.wardrobe && r.wardrobe[|p.wardrobe|] == item
  {
    p.(wardrobe := AppendEntry(p.wardrobe, item))
  }

  /** `removeWardrobeItem`: the item at `index` goes; an index outside the list removes nothing. */
  function RemoveWardrobeItem(p: Project, index: int): (r: Project)
    ensures r == p.(wardrobe := r.wardrobe)
    ensures RemovedAt(r.wardrobe, p.wardrobe, index)
  {
    p.(wardrobe := RemoveIndex(p.wardrobe, index))
  }

  /** Removing the last wardrobe item added restores the project. */
  lemma AddThenRemoveWardrobeItem(p: Project, item: string)
    ensures RemoveWardrobeItem(AddWardrobeItem(p, item), |p.wardrobe|) == p
  {
    AppendThenRemoveIndex(p.wardrobe, item);
  }

  /** `handleSaveSettings`: the edited settings replace the project's; nothing else changes. */
  function SaveSettings(p: Project, settings: ShootingSettings): (r: Project)
    ensures r.shootingSettings == settings
    ensures r.(shootingSettings := p.shootingSettings) == p
  {
    p.(shootingSettings := settings)
  }

  /** Saving the settings the editor was opened with changes nothing; saving twice keeps the second. */
  lemma SaveSettingsLaws(p: Project, s1: ShootingSettings, s2: ShootingSettings)
    ensures SaveSettings(p, p.shootingSettings) == p
    ensures SaveSettings(SaveSettings(p, s1), s2) == SaveSettings(p, s2)
  {
  }

  /** `addSpecialRequirement` on the settings being edited: a non-blank requirement is appended as typed. */
  function AddSpecialRequirement(settings: ShootingSettings, requirement: string): (r: ShootingSettings)
    ensures r == settings.(specialRequirements := r.specialRequirements)
    ensures IsBlank(requirement) ==> r == settings
    ensures !IsBlank(requirement) ==> r.specialRequirements == settings.specialRequirements + [requirement]
  {
    settings.(specialRequirements := AppendEntry(settings.specialRequirements, requirement))
  }

  /** `removeSpecialRequirement`: the requirement at `index` goes. */
  function RemoveSpecialRequirement(settings: ShootingSettings, index: int): (r: ShootingSettings)
    ensures r == settings.(specialRequirements := r.specialRequirements)
    ensures RemovedAt(r.specialRequirements, settings.specialRequirements, index)
  {
    settings.(specialRequirements := RemoveIndex(settings.specialRequirements, index))
  }

  /** Removing the requirement just added restores the settings. */
  lemma AddThenRemoveRequirement(settings: ShootingSettings, requirement: string)
    ensures RemoveSpecialRequirement(AddSpecialRequirement(settings, requirement), |settings.specialRequirements|) == settings
  {
    AppendThenRemoveIndex(settings.specialRequirements, requirement);
  }

  datatype GoldenKind = Morning | Evening | NoGoldenHour

  /** The golden-hour hint: whether, which light, and the advice shown. */
  datatype GoldenHour = GoldenHour(isGoldenHour: bool, kind: GoldenKind, recommendation: string)

  /**
   * `calculateGoldenHour`: by the local hour of the moment, 6 to 8 o'clock
   * is morning light, 17 to 19 o'clock evening light, anything else none.
   * In milliseconds since local midnight: morning is [6 h, 9 h), evening
   * is [17 h, 20 h).
   */
  function GoldenHourAt(t: int, offsetMinutes: int): (r: GoldenHour)
    ensures r.isGoldenHour <==> r.kind != NoGoldenHour
    ensures r.kind == Morning <==> 6 * HOUR <= (t - offsetMinutes * MINUTE) % DAY < 9 * HOUR
    ensures r.kind == Evening <==> 17 * HOUR <= (t - offsetMinutes * MINUTE) % DAY < 20 * HOUR
    ensures r.recommendation == match r.kind
      case Morning => "晨光拍摄"
      case Evening => "夕阳拍摄"
      case NoGoldenHour => "建议调整时间到黄金时段"
  {
    var hour := LocalHour(t, offsetMinutes);
    var morning := 6 <= hour <= 8;
    var evening := 17 <= hour <= 19;
    GoldenHour(morning || evening,
      if morning then Morning else if evening then Evening else NoGoldenHour,
      if morning then "晨光拍摄" else if evening then "夕阳拍摄" else "建议调整时间到黄金时段")
  }

  /**
   * The weather card's moment: the shoot date when there is one, otherwise
   * the present (`project.shootDate || new Date()`).
   */
  function WeatherGoldenHour(p: Project, now: int, offsetMinutes: int): (r: GoldenHour)
    ensures p.shootDate.Some? ==> r == GoldenHourAt(p.shootDate.value, offsetMinutes)
    ensures p.shootDate.None? ==> r == GoldenHourAt(now, offsetMinutes)
  {
    GoldenHourAt(p.shootDate.GetOr(now), offsetMinutes)
  }

  /** A date built from its parts, `new Date(y, m, d)`, is local midnight and never golden hour. */
  lemma MidnightIsNotGolden(year: int, monthIndex: int, day: int, offsetMinutes: int)
    requires 0 <= monthIndex <= 11
    ensures !GoldenHourAt(LocalMidnight(year, monthIndex, day, offsetMinutes), offsetMinutes).isGoldenHour
  {
    LocalMidnightHour(year, monthIndex, day, offsetMinutes);
  }

  /**
   * A date typed into the project forms, `new Date("YYYY-MM-DD")`, is UTC
   * midnight. In a zone eight hours ahead of UTC (`getTimezoneOffset()` of
   * -480) that is 8 o'clock local time, so such a shoot date gets the
   * morning-light hint.
   */
  lemma FormDateEightHoursAheadIsMorning(year: int, monthIndex: int, day: int)
    requires 0 <= monthIndex <= 11
    ensures GoldenHourAt(DaysFromCivil(year, monthIndex + 1, day) * DAY, -480).kind == Morning
  {
    var days := DaysFromCivil(year, monthIndex + 1, day);
    assert days * DAY - (-480) * MINUTE == days * DAY + 8 * HOUR;
    assert (days * DAY + 8 * HOUR) % DAY == 8 * HOUR;
  }

  /** `getEquipmentTypeIcon` of the enhanced tab: a fixed icon per type, "📦" for any other. */
  function EquipmentTypeIcon(kind: string): (r: string)
    ensures kind !in ["camera", "lens", "lighting", "tripod", "filter", "memory", "battery"] ==> r == "📦"
  {
    match kind
    case "camera" => "📷"
    case "lens" => "🔍"
    case "lighting" => "💡"
    case "tripod" => "📐"
    case "filter" => "🎨"
    case "memory" => "💾"
    case "battery" => "🔋"
    case _ => "📦"
  }

  /** For each type the switch lists, its icon is the one in the equipment manager's type table. */
  lemma ListedIconsAgree()
    ensures EquipmentTypeIcon("camera") == EquipmentManager.EquipmentIcon("camera")
    ensures EquipmentTypeIcon("lens") == EquipmentManager.EquipmentIcon("lens")
    ensures EquipmentTypeIcon("lighting") == EquipmentManager.EquipmentIcon("lighting")
    ensures EquipmentTypeIcon("tripod") == EquipmentManager.EquipmentIcon("tripod")
    ensures EquipmentTypeIcon("filter") == EquipmentManager.EquipmentIcon("filter")
    ensures EquipmentTypeIcon("memory") == EquipmentManager.EquipmentIcon("memory")
    ensures EquipmentTypeIcon("battery") == EquipmentManager.EquipmentIcon("battery")
  {
    SwitchIcons();
    EquipmentManager.ListedTypeIcons();
  }

  lemma SwitchIcons()
    ensures EquipmentTypeIcon("camera") == "📷" && EquipmentTypeIcon("lens") == "🔍"
    ensures EquipmentTypeIcon("lighting") == "💡" && EquipmentTypeIcon("tripod") == "📐"
    ensures EquipmentTypeIcon("filter") == "🎨" && EquipmentTypeIcon("memory") == "💾"
    ensures EquipmentTypeIcon("battery") == "🔋"
  {
  }

  /** Every other type, "accessory" and unknown ones alike, gets "📦" from both. */
  lemma UnlistedIconsAgree(kind: string)
    requires kind !in ["camera", "lens", "lighting", "tripod", "filter", "memory", "battery"]
    ensures EquipmentTypeIcon(kind) == EquipmentManager.EquipmentIcon(kind) == "📦"
  {
    var found := EquipmentManager.FindType(EquipmentManager.EQUIPMENT_TYPES, kind);
    if found.Some? {
      assert found.value in EquipmentManager.EQUIPMENT_TYPES;
    }
  }

  /** `getConditionColor` of the enhanced tab: a colour per condition, grey for none or any other. */
  function ConditionColor(condition: Option<string>): (r: string)
    ensures condition.None? ==> r == "text-gray-400"
  {
    match condition
    case Some("excellent") => "text-green-400"
    case Some("good") => "text-blue-400"
    case Some("fair") => "text-yellow-400"
    case Some("poor") => "text-red-400"
    case _ => "text-gray-400"
  }

  /**
   * The planning tab's condition colours agree with the equipment manager's
   * condition table for the four listed conditions; for anything else the
   * planning tab shows grey while the equipment manager shows "good"'s blue.
   */
  lemma ConditionColorsAgree(condition: Option<string>)
    ensures (exists c :: c in EquipmentManager.CONDITION_OPTIONS && condition == Some(c.value)) ==>
      ConditionColor(condition) == EquipmentManager.ConditionEntry(condition).color
    ensures (forall c :: c in EquipmentManager.CONDITION_OPTIONS ==> condition != Some(c.value)) ==>
      ConditionColor(condition) == "text-gray-400" && EquipmentManager.ConditionEntry(condition).color == "text-blue-400"
  {
    var options := EquipmentManager.CONDITION_OPTIONS;
    var r := EquipmentManager.ConditionEntry(condition);
    if exists c :: c in options && condition == Some(c.value) {
      ListedConditionColors(r);
      assert condition == Some(r.value);
    } else {
      assert options[0] in options && options[1] in options && options[2] in options && options[3] in options;
    }
  }

  /** Each listed condition has the planning tab's colour for its value. */
  lemma ListedConditionColors(c: EquipmentManager.ConditionInfo)
    requires c in EquipmentManager.CONDITION_OPTIONS
    ensures ConditionColor(Some(c.value)) == c.color
  {
    var options := EquipmentManager.CONDITION_OPTIONS;
    assert c == options[0] || c == options[1] || c == options[2] || c == options[3];
  }
}
