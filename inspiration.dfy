/** The inspiration board: adding reference images with tags, removing them, and searching. */
module Inspiration {
  import opened Wrappers
  import opened Lists
  import opened Text
  import opened Model

  /** The add-image form; `tags` is the comma-separated text typed in. */
  datatype ImageForm = ImageForm(url: string, title: string, description: string, tags: string, category: string)

  const EMPTY_FORM: ImageForm := ImageForm("", "", "", "", "other")

  /** `categories`: the six image categories. */
  const IMAGE_CATEGORIES: seq<string> := ["pose", "lighting", "composition", "color", "mood", "other"]

  function ImageId(img: InspirationImage): string { img.id }

  /**
   * `handleAddImage`: refused while the url or the title is empty;
   * otherwise the image is appended with its tags parsed from the
   * comma-separated text: trimmed, empty pieces dropped, order kept.
   */
  function AddImage(p: Project, form: ImageForm, id: string): (r: Project)
    ensures form.url == "" || form.title == "" ==> r == p
    ensures form.url != "" && form.title != "" ==>
      && r == p.(inspirationImages := r.inspirationImages)
      && |r.inspirationImages| == |p.inspirationImages| + 1
      && r.inspirationImages[..|p.inspirationImages|] == p.inspirationImages
      && r.inspirationImages[|p.inspirationImages|]
         == InspirationImage(id, form.url, form.title, form.description, ParseCommaList(form.tags), form.category)
      && (forall t :: t in r.inspirationImages[|p.inspirationImages|].tags ==> t != "" && Trim(t) == t)
  {
    if form.url == "" || form.title == "" then p
    else
      var tags := ParseCommaList(form.tags);
      assert forall t :: t in tags ==> t != "" && Trim(t) == t;
      p.(inspirationImages := p.inspirationImages
           + [InspirationImage(id, form.url, form.title, form.description, tags, form.category)])
  }

  /** `handleRemoveImage`: exactly the images carrying `id` disappear, the rest keep their order. */
  function RemoveImage(p: Project, id: string): (r: Project)
    ensures r == p.(inspirationImages := r.inspirationImages)
    ensures IsSubsequence(r.inspirationImages, p.inspirationImages)
    ensures forall img :: img in r.inspirationImages <==> img in p.inspirationImages && img.id != id
    ensures |r.inspirationImages| == Count(p.inspirationImages, OtherId(ImageId, id))
  {
    p.(inspirationImages := RemoveById(p.inspirationImages, ImageId, id))
  }

  /** An image added under a fresh id is removed again by that id. */
  lemma AddThenRemove(p: Project, form: ImageForm, id: string)
    requires forall img :: img in p.inspirationImages ==> img.id != id
    ensures RemoveImage(AddImage(p, form, id), id) == p
  {
    if form.url != "" && form.title != "" {
      var added := AddImage(p, form, id).inspirationImages;
      assert added == p.inspirationImages + [added[|p.inspirationImages|]];
      RemoveByIdLast(p.inspirationImages, added[|p.inspirationImages|], ImageId, id);
    }
    RemoveByIdAbsent(p.inspirationImages, ImageId, id);
  }

  /** Case-insensitive containment: `text.toLowerCase().includes(term.toLowerCase())`. */
  predicate Mentions(text: string, term: string) {
    Includes(ToLower(text), ToLower(term))
  }

  /** `tags.some(tag => ...)`: some tag mentions the term. */
  function AnyTagMentions(tags: seq<string>, term: string): (r: bool)
    ensures r <==> exists i :: 0 <= i < |tags| && Mentions(tags[i], term)
  {
    if tags == [] then false
    else if Mentions(tags[0], term) then true
    else
      var rest := AnyTagMentions(tags[1..], term);
      assert forall i :: 1 <= i < |tags| ==> tags[i] == tags[1..][i - 1];
      rest
  }

  /** The search box: the title, the description or a tag mentions the term. */
  predicate MatchesSearch(img: InspirationImage, term: string) {
    Mentions(img.title, term) || Mentions(img.description, term) || AnyTagMentions(img.tags, term)
  }

  predicate Shown(img: InspirationImage, term: string, category: Choice<string>) {
    MatchesSearch(img, term) && category.Admits(img.category)
  }

  /** `filteredImages`: the images the search term and the category admit, in board order. */
  function FilteredImages(images: seq<InspirationImage>, term: string, category: Choice<string>)
    : (r: seq<InspirationImage>)
    ensures IsSubsequence(r, images)
    ensures forall img :: img in r <==> img in images && Shown(img, term, category)
    ensures category.Only? ==> forall img :: img in r ==> img.category == category.value
    ensures |r| == Count(images, ShownBy(term, category))
  {
    Filter(images, ShownBy(term, category))
  }

  /** The search and the category as the test `filter` applies. */
  function ShownBy(term: string, category: Choice<string>): InspirationImage -> bool {
    img => Shown(img, term, category)
  }

  /** An empty search under "all" categories shows the whole board. */
  lemma EmptySearchShowsAll(images: seq<InspirationImage>)
    ensures FilteredImages(images, "", All) == images
  {
    forall img | img in images ensures Shown(img, "", All) {
      IncludesEmpty(ToLower(img.title));
    }
    FilterKeepsAll(images, img => Shown(img, "", All));
  }

  /** A sample reference: url, title and category. */
  datatype SampleImage = SampleImage(url: string, title: string, category: string)

  /** `sampleImages`: the three sample references offered on an empty board. */
  const SAMPLE_IMAGES: seq<SampleImage> := [
    SampleImage("https://images.pexels.com/photos/1391498/pexels-photo-1391498.jpeg", "人像示例 1", "pose"),
    SampleImage("https://images.pexels.com/photos/1545590/pexels-photo-1545590.jpeg", "风景示例", "composition"),
    SampleImage("https://images.pexels.com/photos/1382731/pexels-photo-1382731.jpeg", "产品示例", "lighting")
  ]

  /** `addSampleImage`: appended with the fixed description and the single tag "示例". */
  function AddSampleImage(p: Project, sample: SampleImage, id: string): (r: Project)
    ensures r == p.(inspirationImages := r.inspirationImages)
    ensures |r.inspirationImages| == |p.inspirationImages| + 1
    ensures r.inspirationImages[..|p.inspirationImages|] == p.inspirationImages
    ensures r.inspirationImages[|p.inspirationImages|]
         == InspirationImage(id, sample.url, sample.title, "示例参考图片", ["示例"], sample.category)
  {
    p.(inspirationImages := p.inspirationImages
         + [InspirationImage(id, sample.url, sample.title, "示例参考图片", ["示例"], sample.category)])
  }

  /** A sample image is found by searching for its tag. */
  lemma SampleImageFoundByTag(p: Project, sample: SampleImage, id: string)
    ensures var added := AddSampleImage(p, sample, id).inspirationImages[|p.inspirationImages|];
            MatchesSearch(added, "示例")
  {
    var added := AddSampleImage(p, sample, id).inspirationImages[|p.inspirationImages|];
    assert ToLower("示例") == "示例";
    assert OccursAt(ToLower("示例"), ToLower("示例"), 0);
    assert Mentions(added.tags[0], "示例");
  }
}
