/** The edit-project form: how it is filled from a project and what saving it writes back. */
module ProjectEditing {
  import opened Wrappers
  import opened Text
  import opened Model
  import ProjectCreation

  /** The form's fields, all text. */
  datatype EditForm = EditForm(
    title: string,
    description: string,
    location: string,
    concept: string,
    mood: string,
    notes: string,
    budget: string,
    shootDate: string,
    coverImage: string)

  /**
   * `toISOString().split('T')[0]`: the date part of a timestamp's ISO text;
   * `isoString` stands for `toISOString`.
   */
  function DateField(t: int, isoString: int -> string): string {
    Split(isoString(t), 'T')[0]
  }

  /** For an ISO text `<day>T<time>`, the field holds exactly the `<day>` part. */
  lemma DateFieldIsDayPart(t: int, isoString: int -> string, day: string, time: string)
    requires 'T' !in day
    requires isoString(t) == day + "T" + time
    ensures DateField(t, isoString) == day
  {
    SplitPrefix(day, time, 'T');
  }

  /**
   * The form as it opens: the project's texts, the budget as text or `''`
   * without one, the shoot date as its ISO day or `''` without one, and the
   * cover image. `numberText` stands for `toString`.
   */
  function InitialForm(p: Project, numberText: real -> string, isoString: int -> string): (r: EditForm)
    ensures r.title == p.title && r.description == p.description && r.location == p.location
         && r.concept == p.concept && r.mood == p.mood && r.notes == p.notes && r.coverImage == p.coverImage
    ensures p.budget.None? ==> r.budget == ""
    ensures p.budget.Some? && numberText(p.budget.value) != "" ==> r.budget == numberText(p.budget.value)
    ensures p.shootDate.None? ==> r.shootDate == ""
    ensures p.shootDate.Some? && DateField(p.shootDate.value, isoString) != "" ==>
      r.shootDate == DateField(p.shootDate.value, isoString)
  {
    EditForm(p.title, p.description, p.location, p.concept, p.mood, p.notes,
      if p.budget.Some? then numberText(p.budget.value) else "",
      if p.shootDate.Some? then DateField(p.shootDate.value, isoString) else "",
      p.coverImage)
  }

  /** `handleImageUrlChange`: only the cover image changes. */
  function ChangeImageUrl(form: EditForm, url: string): (r: EditForm)
    ensures r.coverImage == url
    ensures r.(coverImage := form.coverImage) == form
  {
    form.(coverImage := url)
  }

  /**
   * `handleSubmit`: the project keeps everything but the nine edited fields,
   * which take the form's values; an empty budget or date field clears the
   * value, and the cover image is stored as typed, even empty.
   */
  function Save(p: Project, form: EditForm, parseNumber: string -> real, parseDate: string -> int): (r: Project)
    ensures r == p.(title := form.title, description := form.description, location := form.location,
                    concept := form.concept, mood := form.mood, notes := form.notes,
                    budget := r.budget, shootDate := r.shootDate, coverImage := form.coverImage)
    ensures r.budget.None? <==> form.budget == ""
    ensures r.budget.Some? ==> r.budget.value == parseNumber(form.budget)
    ensures r.shootDate.None? <==> form.shootDate == ""
    ensures r.shootDate.Some? ==> r.shootDate.value == parseDate(form.shootDate)
  {
    p.(title := form.title, description := form.description, location := form.location,
       concept := form.concept, mood := form.mood, notes := form.notes,
       budget := ProjectCreation.Parsed(form.budget, parseNumber),
       shootDate := ProjectCreation.Parsed(form.shootDate, parseDate),
       coverImage := form.coverImage)
  }

  /**
   * Opening the form and saving it untouched gives the project back, as long
   * as the number and date texts read back to the values they were made
   * from: `parseFloat(x.toString()) == x`, and the project's date is
   * the midnight its ISO day parses to.
   */
  lemma SaveUnchanged(p: Project, numberText: real -> string, isoString: int -> string,
                      parseNumber: string -> real, parseDate: string -> int)
    requires p.budget.Some? ==> numberText(p.budget.value) != "" && parseNumber(numberText(p.budget.value)) == p.budget.value
    requires p.shootDate.Some? ==>
      DateField(p.shootDate.value, isoString) != ""
      && parseDate(DateField(p.shootDate.value, isoString)) == p.shootDate.value
    ensures Save(p, InitialForm(p, numberText, isoString), parseNumber, parseDate) == p
  {
  }

  /** Changing the url and saving changes the project's cover and nothing else the form holds. */
  lemma UrlChangeOnlyTouchesCover(p: Project, form: EditForm, url: string,
                                  parseNumber: string -> real, parseDate: string -> int)
    ensures Save(p, ChangeImageUrl(form, url), parseNumber, parseDate)
         == Save(p, form, parseNumber, parseDate).(coverImage := url)
  {
  }
}
