/**
 * The project aggregate, in the shape the planner's components read and
 * build it. Dates are integer milliseconds since the epoch; money and
 * durations are `real`. A text field the components always treat as a
 * string (possibly empty) is a `string`; a field they test for presence
 * is an `Option`.
 */
module Model {
  import opened Wrappers
  import opened Lists
  import opened Text

  datatype ProjectType = Portrait | Landscape | Product | Wedding | Event | Commercial | Other
  datatype Status = Planning | Scheduled | InProgress | Completed
  datatype Priority = Low | Medium | High
  datatype ExpenseStatus = Planned | Confirmed | Paid
  datatype PaymentStatus = PaymentPending | PaymentPaid | NotApplicable

  datatype ChecklistItem = ChecklistItem(
    id: string,
    task: string,
    completed: bool,
    dueDate: Option<int>,
    assignedTo: Option<string>,
    priority: Priority,
    category: string)

  datatype Expense = Expense(
    id: string,
    description: string,
    amount: real,
    category: string,
    status: ExpenseStatus,
    date: int)

  datatype TeamMember = TeamMember(
    id: string,
    name: string,
    role: string,
    contact: string,
    confirmed: bool,
    rate: Option<real>,
    paymentStatus: Option<PaymentStatus>)

  datatype InspirationImage = InspirationImage(
    id: string,
    url: string,
    title: string,
    description: string,
    tags: seq<string>,
    category: string)

  datatype Specifications = Specifications(
    focalLength: string,
    aperture: string,
    sensorSize: string,
    megapixels: real,
    isoRange: string,
    weight: real,
    dimensions: string)

  datatype RentalInfo = RentalInfo(
    isRental: bool,
    rentalCompany: string,
    rentalCost: real,
    rentalPeriod: string,
    returnDate: int)

  datatype Maintenance = Maintenance(
    lastService: Option<int>,
    nextService: Option<int>,
    serviceNotes: string)

  /** A piece of gear; `kind` is the source's free-form `type` string. */
  datatype Equipment = Equipment(
    id: string,
    name: string,
    kind: string,
    isRequired: bool,
    brand: Option<string>,
    model: Option<string>,
    notes: Option<string>,
    serialNumber: Option<string>,
    purchaseDate: Option<int>,
    condition: Option<string>,
    specifications: Option<Specifications>,
    rentalInfo: Option<RentalInfo>,
    maintenance: Option<Maintenance>)

  datatype ShootingSettings = ShootingSettings(
    duration: real,
    specialRequirements: seq<string>,
    startTime: Option<string>,
    endTime: Option<string>,
    weatherRequirement: Option<string>,
    backupPlan: Option<string>)

  datatype CameraSettings = CameraSettings(
    camera: string,
    lens: string,
    aperture: string,
    shutterSpeed: string,
    iso: int,
    focalLength: string)

  datatype ImageCounts = ImageCounts(total: int, keepers: int, favorites: int)

  datatype ShootingLog = ShootingLog(
    id: string,
    date: int,
    session: string,
    location: string,
    weather: string,
    equipment: seq<string>,
    settings: CameraSettings,
    notes: string,
    challenges: seq<string>,
    solutions: seq<string>,
    lessonsLearned: seq<string>,
    images: ImageCounts)

  datatype Workflow = Workflow(software: seq<string>, steps: seq<string>, estimatedTime: int)

  datatype Deliverables = Deliverables(
    format: seq<string>,
    resolution: seq<string>,
    colorSpace: string,
    compression: string)

  datatype Timeline = Timeline(culling: int, editing: int, colorGrading: int, retouching: int, delivery: int)

  datatype PostProductionPlan = PostProductionPlan(
    id: string,
    workflow: Workflow,
    deliverables: Deliverables,
    timeline: Timeline,
    notes: string)

  datatype ClientInfo = ClientInfo(
    name: string,
    contact: string,
    company: string,
    requirements: string,
    deliveryFormat: seq<string>,
    deliveryDate: Option<int>)

  datatype Project = Project(
    id: string,
    title: string,
    description: string,
    projectType: ProjectType,
    status: Status,
    location: string,
    concept: string,
    mood: string,
    coverImage: string,
    equipment: seq<Equipment>,
    props: seq<string>,
    wardrobe: seq<string>,
    team: seq<TeamMember>,
    inspirationImages: seq<InspirationImage>,
    checklist: seq<ChecklistItem>,
    budget: Option<real>,
    expenses: seq<Expense>,
    notes: string,
    shootDate: Option<int>,
    shootingSettings: ShootingSettings,
    client: Option<ClientInfo>,
    shootingLogs: Option<seq<ShootingLog>>,
    postProduction: Option<PostProductionPlan>,
    templates: Option<seq<string>>,
    createdAt: int,
    updatedAt: int)

  /** `value || fallback` on an optional text field: absent and empty both fall back. */
  function TextOr(value: Option<string>, fallback: string): (r: string)
    ensures value.Some? && value.value != "" ==> r == value.value
    ensures value.None? || value.value == "" ==> r == fallback
  {
    if value.Some? && value.value != "" then value.value else fallback
  }

  /**
   * `list.filter(x => x.id !== id)`: every element carrying `id` is gone,
   * every other element stays, in order.
   */
  function RemoveById<T(==,!new)>(s: seq<T>, idOf: T -> string, id: string): (r: seq<T>)
    ensures IsSubsequence(r, s)
    ensures forall x :: x in r <==> x in s && idOf(x) != id
    ensures |r| == Count(s, OtherId(idOf, id))
  {
    Filter(s, OtherId(idOf, id))
  }

  /** The test `x => x.id !== id` the removals filter with. */
  function OtherId<T>(idOf: T -> string, id: string): T -> bool {
    x => idOf(x) != id
  }

  /** Removing an id no element carries leaves the list as it was. */
  lemma RemoveByIdAbsent<T(!new)>(s: seq<T>, idOf: T -> string, id: string)
    requires forall x :: x in s ==> idOf(x) != id
    ensures RemoveById(s, idOf, id) == s
  {
    FilterKeepsAll(s, x => idOf(x) != id);
  }

  /** An element carrying the id at the front of the list is dropped. */
  lemma RemoveByIdHead<T(!new)>(x: T, s: seq<T>, idOf: T -> string, id: string)
    requires idOf(x) == id
    ensures RemoveById([x] + s, idOf, id) == RemoveById(s, idOf, id)
  {
    assert ([x] + s)[1..] == s;
  }

  /** An element carrying the id at the end of the list is dropped. */
  lemma {:induction false} RemoveByIdLast<T(!new)>(s: seq<T>, x: T, idOf: T -> string, id: string)
    requires idOf(x) == id
    ensures RemoveById(s + [x], idOf, id) == RemoveById(s, idOf, id)
  {
    if s == [] {
      assert [x] == [x] + [];
      RemoveByIdHead(x, [], idOf, id);
    } else {
      assert (s + [x])[1..] == s[1..] + [x];
      RemoveByIdLast(s[1..], x, idOf, id);
    }
  }

  /**
   * `r` is `s` with the entry at `index` taken out, the entries after it
   * moving up by one; an index outside `s` takes nothing out.
   */
  predicate RemovedAt(r: seq<string>, s: seq<string>, index: int) {
    && |r| == (if 0 <= index < |s| then |s| - 1 else |s|)
    && forall i :: 0 <= i < |r| ==> r[i] == if 0 <= index <= i then s[i + 1] else s[i]
  }

  /** `list.filter((_, i) => i !== index)` on a list of texts. */
  function RemoveIndex(s: seq<string>, index: int): (r: seq<string>)
    ensures RemovedAt(r, s, index)
    ensures !(0 <= index < |s|) ==> r == s
  {
    RemoveAt(s, index)
  }

  /** `list.filter(x => x !== value)`: every occurrence of `value` goes, the rest stays in order. */
  function RemoveValue(s: seq<string>, value: string): (r: seq<string>)
    ensures IsSubsequence(r, s)
    ensures value !in r
    ensures forall x :: x in s && x != value ==> x in r
    ensures |r| == Count(s, OtherValue(value))
  {
    Filter(s, OtherValue(value))
  }

  /** The test `x => x !== value` the removals by value filter with. */
  function OtherValue(value: string): string -> bool {
    x => x != value
  }

  /** Removing a value the list does not hold changes nothing. */
  lemma RemoveValueAbsent(s: seq<string>, value: string)
    requires value !in s
    ensures RemoveValue(s, value) == s
  {
    FilterKeepsAll(s, x => x != value);
  }

  /** A value appended to a list that lacked it is removed again by value, restoring the list. */
  lemma {:induction false} RemoveValueAppended(s: seq<string>, value: string)
    requires value !in s
    ensures RemoveValue(s + [value], value) == s
  {
    if s == [] {
      assert [value][1..] == [];
    } else {
      assert (s + [value])[1..] == s[1..] + [value];
      RemoveValueAppended(s[1..], value);
    }
  }

  /** `if (item.trim()) list = [...list, item.trim()]`: a non-blank entry is appended trimmed. */
  function AppendTrimmed(list: seq<string>, item: string): (r: seq<string>)
    ensures IsBlank(item) ==> r == list
    ensures !IsBlank(item) ==> r == list + [Trim(item)] && Trim(r[|list|]) == r[|list|] != ""
  {
    TrimIdempotent(item);
    if IsBlank(item) then list else list + [Trim(item)]
  }

  /** Entries added by `AppendTrimmed` are non-empty and trimmed, so a clean list stays clean. */
  lemma AppendTrimmedKeepsClean(list: seq<string>, item: string)
    requires forall i :: 0 <= i < |list| ==> list[i] != "" && Trim(list[i]) == list[i]
    ensures var r := AppendTrimmed(list, item);
            forall i :: 0 <= i < |r| ==> r[i] != "" && Trim(r[i]) == r[i]
  {
    var r := AppendTrimmed(list, item);
    forall i | 0 <= i < |r| ensures r[i] != "" && Trim(r[i]) == r[i] {
      if i < |list| {
        assert r[i] == list[i];
      }
    }
  }

  /** Removing, by its index, the entry `AppendTrimmed` just added restores the list. */
  lemma AppendTrimmedThenRemove(list: seq<string>, item: string)
    ensures RemoveIndex(AppendTrimmed(list, item), |list|) == list
  {
    if !IsBlank(item) {
      assert (list + [Trim(item)])[..|list|] == list;
    }
  }
}
