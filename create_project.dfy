/** The new-project form: what a submitted form becomes, and the cover images offered per project type. */
module ProjectCreation {
  import opened Wrappers
  import opened Model
  import App
  import Checklist

  /** The form's fields, all text except the project type. */
  datatype ProjectForm = ProjectForm(
    title: string,
    description: string,
    projectType: ProjectType,
    location: string,
    concept: string,
    mood: string,
    shootDate: string,
    budget: string,
    notes: string,
    coverImage: string)

  /** The form as it opens: everything empty, the type on portrait. */
  const INITIAL_FORM: ProjectForm := ProjectForm("", "", Portrait, "", "", "", "", "", "", "")

  datatype CoverOption = CoverOption(url: string, title: string)

  /** Every cover photo is an Unsplash photo, cropped to 400x300. */
  const UNSPLASH: string := "https://images.unsplash.com/photo-"
  const CROP: string := "?w=400&h=300&fit=crop"

  /** The stock photo with the given id, cropped to 400x300, centred on the face for portraits. */
  function Photo(id: string, face: bool): (r: string)
    ensures |r| > 0
  {
    UNSPLASH + id + CROP + (if face then "&crop=face" else "")
  }

  /** `getDefaultCoverImage`: one stock photo per project type. */
  function DefaultCoverImage(t: ProjectType): (r: string)
    ensures r != ""
  {
    match t
    case Portrait => Photo("1544005313-94ddf0286df2", true)
    case Landscape => Photo("1506905925346-21bda4d32df4", false)
    case Product => Photo("1560472354-b33ff0c44a43", false)
    case Wedding => Photo("1519741497674-611481863552", false)
    case Event => Photo("1492684223066-81342ee5ff30", false)
    case Commercial => Photo("1560179707-f14e90ef3623", false)
    case Other => Photo("1452587925148-ce544e77e70d", false)
  }

  /**
   * `getCoverImageOptions`: four titled stock photos per type. The source
   * falls back to the `other` list for a type it does not know; every
   * `ProjectType` here has its own list, so the fallback is never taken.
   */
  function CoverImageOptions(t: ProjectType): (r: seq<CoverOption>)
    ensures |r| == 4
  {
    match t
    case Portrait => [
      CoverOption(Photo("1544005313-94ddf0286df2", true), "经典人像"),
      CoverOption(Photo("1531746020798-e6953c6e8e04", true), "女性肖像"),
      CoverOption(Photo("1507003211169-0a1dd7228f2d", true), "男性肖像"),
      CoverOption(Photo("1494790108755-2616c10b46c5", true), "时尚人像")]
    case Landscape => [
      CoverOption(Photo("1506905925346-21bda4d32df4", false), "山景风光"),
      CoverOption(Photo("1470071459604-3b5ec3a7fe05", false), "森林景观"),
      CoverOption(Photo("1506197603052-3cc9c3a201bd", false), "海洋风光"),
      CoverOption(Photo("1500534314209-a25ddb2bd429", false), "城市风光")]
    case Product => [
      CoverOption(Photo("1560472354-b33ff0c44a43", false), "时尚产品"),
      CoverOption(Photo("1523275335684-37898b6baf30", false), "手表产品"),
      CoverOption(Photo("1505740420928-5e560c06d30e", false), "耳机产品"),
      CoverOption(Photo("1526170375885-4d8ecf77b99f", false), "办公用品")]
    case Wedding => [
      CoverOption(Photo("1519741497674-611481863552", false), "婚礼仪式"),
      CoverOption(Photo("1511285560929-80b456fea0bc", false), "婚纱照"),
      CoverOption(Photo("1583939003579-730e3918a45a", false), "婚戒特写"),
      CoverOption(Photo("1606216794074-735e91aa2c92", false), "户外婚礼")]
    case Event => [
      CoverOption(Photo("1492684223066-81342ee5ff30", false), "活动现场"),
      CoverOption(Photo("1540575467063-178a50c2df87", false), "音乐会"),
      CoverOption(Photo("1506157786151-b8491531f063", false), "会议活动"),
      CoverOption(Photo("1511578314322-379afb476865", false), "展览活动")]
    case Commercial => [
      CoverOption(Photo("1560179707-f14e90ef3623", false), "商业摄影"),
      CoverOption(Photo("1486406146926-c627a92ad1ab", false), "建筑商业"),
      CoverOption(Photo("1497366216548-37526070297c", false), "办公环境"),
      CoverOption(Photo("1556742049-0cfed4f6a45d", false), "商业肖像")]
    case Other => [
      CoverOption(Photo("1452587925148-ce544e77e70d", false), "创意摄影"),
      CoverOption(Photo("1513475382585-d06e58bcb0e0", false), "艺术创作"),
      CoverOption(Photo("1606983340126-99ab4feaa64a", false), "实验摄影"),
      CoverOption(Photo("1481349518771-20055b2a7b24", false), "抽象艺术")]
  }

  /** The default cover of every type is the first photo offered for it. */
  lemma DefaultCoverIsFirstOption(t: ProjectType)
    ensures DefaultCoverImage(t) == CoverImageOptions(t)[0].url
  {
  }

  /** `formData.x ? parse(formData.x) : undefined`: an empty field gives no value. */
  function Parsed<T>(text: string, parse: string -> T): (r: Option<T>)
    ensures text == "" <==> r.None?
    ensures text != "" ==> r == Some(parse(text))
  {
    if text == "" then None else Some(parse(text))
  }

  /**
   * `handleSubmit`: the project the form describes, still without id and
   * timestamps (placeholders here, filled in when the project is created).
   * It is in planning, every collection is empty, an empty budget or date
   * field leaves the value out, an empty cover falls back to the type's
   * default, and the shooting settings are two hours with no requirements.
   * `parseNumber` and `parseDate` stand for `parseFloat` and `new Date`.
   */
  function Submit(form: ProjectForm, parseNumber: string -> real, parseDate: string -> int): (r: Project)
    ensures r.status == Planning
    ensures r.equipment == [] && r.props == [] && r.wardrobe == [] && r.team == []
         && r.inspirationImages == [] && r.checklist == [] && r.expenses == []
    ensures r.title == form.title && r.description == form.description && r.projectType == form.projectType
         && r.location == form.location && r.concept == form.concept && r.mood == form.mood && r.notes == form.notes
    ensures r.budget.None? <==> form.budget == ""
    ensures r.budget.Some? ==> r.budget.value == parseNumber(form.budget)
    ensures r.shootDate.None? <==> form.shootDate == ""
    ensures r.shootDate.Some? ==> r.shootDate.value == parseDate(form.shootDate)
    ensures form.coverImage != "" ==> r.coverImage == form.coverImage
    ensures form.coverImage == "" ==> r.coverImage == DefaultCoverImage(form.projectType)
    ensures r.shootingSettings == ShootingSettings(2.0, [], None, None, None, None)
    ensures r.client.None? && r.shootingLogs.None? && r.postProduction.None? && r.templates.None?
  {
    Project("", form.title, form.description, form.projectType, Planning, form.location,
      form.concept, form.mood, if form.coverImage != "" then form.coverImage else DefaultCoverImage(form.projectType),
      [], [], [], [], [], [],
      Parsed(form.budget, parseNumber), [], form.notes, Parsed(form.shootDate, parseDate),
      ShootingSettings(2.0, [], None, None, None, None),
      None, None, None, None, 0, 0)
  }

  /** Every submitted project has a cover image, and from the start it is one of the offered photos when none was given. */
  lemma SubmittedCover(form: ProjectForm, parseNumber: string -> real, parseDate: string -> int)
    ensures Submit(form, parseNumber, parseDate).coverImage != ""
    ensures form.coverImage == "" ==>
      exists i :: 0 <= i < |CoverImageOptions(form.projectType)|
        && CoverImageOptions(form.projectType)[i].url == Submit(form, parseNumber, parseDate).coverImage
  {
    DefaultCoverIsFirstOption(form.projectType);
  }

  /**
   * Submitting the form and creating the project puts a planning project
   * with no tasks at the head of the list, selected, carrying the new id.
   */
  lemma SubmitThenCreate(s: App.AppState, form: ProjectForm, parseNumber: string -> real,
                         parseDate: string -> int, id: string, now: int)
    ensures var r := App.CreateProject(s, Submit(form, parseNumber, parseDate), id, now);
            && r.projects[0].id == id && r.projects[0].status == Planning
            && r.projects[0].title == form.title
            && Checklist.CompletionRate(r.projects[0].checklist) == 0
            && r.selected == Some(r.projects[0])
            && r.projects[1..] == s.projects
  {
  }
}
