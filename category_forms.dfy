/** The category add page and the sub-category add page. The two components share their
    handlers line for line and differ in three places: the sub-category page takes its
    parent from the `parent` query parameter, requires it, and returns to that parent's
    list. `Level` says which page a form is. */
module CategoryForms {
  import opened Text
  import opened FormFields
  import Slug
  import ImageUploader

  datatype Level = TopLevel | SubLevel

  const NAME: string := "name"
  const SLUG: string := "slug"
  const DESCRIPTION: string := "description"
  const PARENT_CATEGORY: string := "parentCategory"
  const SEO_TITLE: string := "seoTitle"
  const SEO_DESCRIPTION: string := "seoDescription"
  const IMAGE: string := "image"

  const SEO_DESCRIPTION_MAX: nat := 160
  const MAX_IMAGES: nat := 1

  const MSG_SLUG_REQUIRED: string := "Slug is required"
  const MSG_DESCRIPTION_REQUIRED: string := "Description is required"
  const MSG_PARENT_REQUIRED: string := "Parent category is required"
  const MSG_SEO_TITLE_REQUIRED: string := "SEO title is required"
  const MSG_SEO_DESCRIPTION_REQUIRED: string := "SEO description is required"
  const MSG_IMAGE_REQUIRED: string := "Category image is required"
  const MSG_SLUG_FORMAT: string := "Slug can only contain lowercase letters, numbers, and hyphens"
  const MSG_SEO_DESCRIPTION_LONG: string := "SEO description should be max 160 characters"

  const SUB_LIST_PREFIX: string := "/categories/sub-list?parent="

  function NameRequired(level: Level): string
  {
    match level
    case TopLevel => "Category name is required"
    case SubLevel => "Sub-category name is required"
  }

  /** `parentId || ''`: the `parent` query parameter, or '' when it is absent or empty. */
  function ParentFromQuery(parent: Option<string>): (p: string)
    ensures parent.Some? ==> p == parent.value
    ensures parent.None? ==> p == ""
  {
    if parent.Some? then parent.value else ""
  }

  /** The initial `formData`. */
  function InitialForm(level: Level, parent: Option<string>): (form: map<string, FieldValue>)
    ensures NAME in form && SLUG in form && PARENT_CATEGORY in form
    ensures form[NAME] == TextValue("") && form[SLUG] == TextValue("")
    ensures form[PARENT_CATEGORY] == TextValue(if level == SubLevel then ParentFromQuery(parent) else "")
  {
    map[NAME := TextValue(""), SLUG := TextValue(""), DESCRIPTION := TextValue(""),
        PARENT_CATEGORY := TextValue(if level == SubLevel then ParentFromQuery(parent) else ""),
        "icon" := TextValue(""), "order" := TextValue(""), SEO_TITLE := TextValue(""),
        SEO_DESCRIPTION := TextValue(""), "seoKeywords" := TextValue(""),
        "metaRobots" := TextValue("index,follow"), "featured" := FlagValue(false),
        "showInMenu" := FlagValue(true), "status" := TextValue("active")]
  }

  /** `handleChange` on the form: the field is set, and a non-empty new name also
      regenerates the slug. */
  function ChangeForm(form: map<string, FieldValue>, e: InputEvent): (r: map<string, FieldValue>)
    ensures e.name == NAME && e.value != "" ==> SLUG in r && r[SLUG] == TextValue(Slug.Slugify(e.value))
    ensures !(e.name == NAME && e.value != "") ==> r == SetField(form, e)
    ensures e.name != SLUG ==> e.name in r && r[e.name] == NewValue(e)
    ensures forall k :: k != e.name && k != SLUG ==> (k in r <==> k in form) && (k in form ==> r[k] == form[k])
  {
    var r := SetField(form, e);
    if e.name == NAME && e.value != "" then r[SLUG := TextValue(Slug.Slugify(e.value))] else r
  }

  /** The error `validate` leaves on each field. Checks that run later overwrite earlier
      ones, so a bad slug shows the format error and an over-long SEO description the
      length error. */
  function FieldError(level: Level, form: map<string, FieldValue>, imageCount: nat, field: string): Option<string>
  {
    if field == NAME then
      if !Present(form, NAME) then Some(NameRequired(level)) else None
    else if field == SLUG then
      if Present(form, SLUG) && !Slug.SlugFormat(TextOf(form, SLUG)) then Some(MSG_SLUG_FORMAT)
      else if !Present(form, SLUG) then Some(MSG_SLUG_REQUIRED)
      else None
    else if field == DESCRIPTION then
      if !Present(form, DESCRIPTION) then Some(MSG_DESCRIPTION_REQUIRED) else None
    else if field == PARENT_CATEGORY then
      if level == SubLevel && !Present(form, PARENT_CATEGORY) then Some(MSG_PARENT_REQUIRED) else None
    else if field == SEO_TITLE then
      if !Present(form, SEO_TITLE) then Some(MSG_SEO_TITLE_REQUIRED) else None
    else if field == SEO_DESCRIPTION then
      if Present(form, SEO_DESCRIPTION) && LongerThan(form, SEO_DESCRIPTION, SEO_DESCRIPTION_MAX) then
        Some(MSG_SEO_DESCRIPTION_LONG)
      else if !Present(form, SEO_DESCRIPTION) then Some(MSG_SEO_DESCRIPTION_REQUIRED)
      else None
    else if field == IMAGE then
      if imageCount == 0 then Some(MSG_IMAGE_REQUIRED) else None
    else None
  }

  /** `m` holds at `f` exactly the error `FieldError` gives. */
  ghost predicate AgreesAt(m: map<string, string>, level: Level, form: map<string, FieldValue>, imageCount: nat, f: string)
  {
    (f in m <==> FieldError(level, form, imageCount, f).Some?)
    && (f in m ==> m[f] == FieldError(level, form, imageCount, f).value)
  }

  /** `m` holds exactly the errors `FieldError` gives. */
  ghost predicate IsErrorsOf(m: map<string, string>, level: Level, form: map<string, FieldValue>, imageCount: nat)
  {
    forall f :: AgreesAt(m, level, form, imageCount, f)
  }

  /** `validate`'s checks in the page's order, each a `Put` on the errors so far. */
  function ErrorsInOrder(level: Level, form: map<string, FieldValue>, imageCount: nat): map<string, string>
  {
    var m1 := Put(map[], NAME, !Present(form, NAME), NameRequired(level));
    var m2 := Put(m1, SLUG, !Present(form, SLUG), MSG_SLUG_REQUIRED);
    var m3 := Put(m2, DESCRIPTION, !Present(form, DESCRIPTION), MSG_DESCRIPTION_REQUIRED);
    var m4 := Put(m3, PARENT_CATEGORY, level == SubLevel && !Present(form, PARENT_CATEGORY), MSG_PARENT_REQUIRED);
    var m5 := Put(m4, SEO_TITLE, !Present(form, SEO_TITLE), MSG_SEO_TITLE_REQUIRED);
    var m6 := Put(m5, SEO_DESCRIPTION, !Present(form, SEO_DESCRIPTION), MSG_SEO_DESCRIPTION_REQUIRED);
    var m7 := Put(m6, IMAGE, imageCount == 0, MSG_IMAGE_REQUIRED);
    var m8 := Put(m7, SLUG, Present(form, SLUG) && !Slug.SlugFormat(TextOf(form, SLUG)), MSG_SLUG_FORMAT);
    Put(m8, SEO_DESCRIPTION, Present(form, SEO_DESCRIPTION) && LongerThan(form, SEO_DESCRIPTION, SEO_DESCRIPTION_MAX),
        MSG_SEO_DESCRIPTION_LONG)
  }


  /** Running the checks in order leaves on every field exactly the error `FieldError`
      gives it: the later slug and SEO description checks win over the required checks. */
  lemma ErrorsInOrderAreFieldErrors(level: Level, form: map<string, FieldValue>, imageCount: nat)
    ensures IsErrorsOf(ErrorsInOrder(level, form, imageCount), level, form, imageCount)
  {
    AgreesAtName(level, form, imageCount);
    AgreesAtSlug(level, form, imageCount);
    AgreesAtDescription(level, form, imageCount);
    AgreesAtParent(level, form, imageCount);
    AgreesAtSeoTitle(level, form, imageCount);
    AgreesAtSeoDescription(level, form, imageCount);
    AgreesAtImage(level, form, imageCount);
    forall f | f !in {NAME, SLUG, DESCRIPTION, PARENT_CATEGORY, SEO_TITLE, SEO_DESCRIPTION, IMAGE}
      ensures AgreesAt(ErrorsInOrder(level, form, imageCount), level, form, imageCount, f)
    {
      AgreesElsewhere(level, form, imageCount, f);
    }
    AgreeEverywhere(ErrorsInOrder(level, form, imageCount), level, form, imageCount);
  }

  lemma AgreeEverywhere(m: map<string, string>, level: Level, form: map<string, FieldValue>, imageCount: nat)
    requires AgreesAt(m, level, form, imageCount, NAME) && AgreesAt(m, level, form, imageCount, SLUG)
    requires AgreesAt(m, level, form, imageCount, DESCRIPTION) && AgreesAt(m, level, form, imageCount, PARENT_CATEGORY)
    requires AgreesAt(m, level, form, imageCount, SEO_TITLE) && AgreesAt(m, level, form, imageCount, SEO_DESCRIPTION)
    requires AgreesAt(m, level, form, imageCount, IMAGE)
    requires forall f | f !in {NAME, SLUG, DESCRIPTION, PARENT_CATEGORY, SEO_TITLE, SEO_DESCRIPTION, IMAGE} ::
               AgreesAt(m, level, form, imageCount, f)
    ensures IsErrorsOf(m, level, form, imageCount)
  {
    forall f
      ensures AgreesAt(m, level, form, imageCount, f)
    {
      if f in {NAME, SLUG, DESCRIPTION, PARENT_CATEGORY, SEO_TITLE, SEO_DESCRIPTION, IMAGE} {
      }
    }
  }

  lemma AgreesAtName(level: Level, form: map<string, FieldValue>, imageCount: nat)
    ensures AgreesAt(ErrorsInOrder(level, form, imageCount), level, form, imageCount, NAME)
  {
  }

  lemma AgreesAtSlug(level: Level, form: map<string, FieldValue>, imageCount: nat)
    ensures AgreesAt(ErrorsInOrder(level, form, imageCount), level, form, imageCount, SLUG)
  {
  }

  lemma AgreesAtDescription(level: Level, form: map<string, FieldValue>, imageCount: nat)
    ensures AgreesAt(ErrorsInOrder(level, form, imageCount), level, form, imageCount, DESCRIPTION)
  {
  }

  lemma AgreesAtParent(level: Level, form: map<string, FieldValue>, imageCount: nat)
    ensures AgreesAt(ErrorsInOrder(level, form, imageCount), level, form, imageCount, PARENT_CATEGORY)
  {
  }

  lemma AgreesAtSeoTitle(level: Level, form: map<string, FieldValue>, imageCount: nat)
    ensures AgreesAt(ErrorsInOrder(level, form, imageCount), level, form, imageCount, SEO_TITLE)
  {
  }

  lemma AgreesAtSeoDescription(level: Level, form: map<string, FieldValue>, imageCount: nat)
    ensures AgreesAt(ErrorsInOrder(level, form, imageCount), level, form, imageCount, SEO_DESCRIPTION)
  {
  }

  lemma AgreesAtImage(level: Level, form: map<string, FieldValue>, imageCount: nat)
    ensures AgreesAt(ErrorsInOrder(level, form, imageCount), level, form, imageCount, IMAGE)
  {
  }

  lemma AgreesElsewhere(level: Level, form: map<string, FieldValue>, imageCount: nat, f: string)
    requires f !in {NAME, SLUG, DESCRIPTION, PARENT_CATEGORY, SEO_TITLE, SEO_DESCRIPTION, IMAGE}
    ensures AgreesAt(ErrorsInOrder(level, form, imageCount), level, form, imageCount, f)
  {
  }

  /** A name whose slug is not empty leaves the slug without error; a name with no letter
      or digit leaves an empty slug, which is reported as missing. */
  lemma GeneratedSlugIsAccepted(level: Level, form: map<string, FieldValue>, imageCount: nat, e: InputEvent)
    requires e.name == NAME && e.value != ""
    ensures var r := ChangeForm(form, e);
            FieldError(level, r, imageCount, SLUG) ==
              if Slug.Slugify(e.value) == "" then Some(MSG_SLUG_REQUIRED) else None
  {
    var r := ChangeForm(form, e);
    if Slug.Slugify(e.value) != "" {
      Slug.NonEmptySlugPassesFormat(e.value);
      assert TextOf(r, SLUG) == Slug.Slugify(e.value);
    }
  }

  /** Clearing the name keeps whatever slug was there. */
  lemma ClearingNameKeepsSlug(form: map<string, FieldValue>, e: InputEvent)
    requires e.name == NAME && e.value == "" && SLUG in form
    ensures ChangeForm(form, e)[SLUG] == form[SLUG]
  {
  }

  /** An SEO description of exactly 160 characters is accepted; one more is refused. */
  lemma SeoDescriptionBoundary(level: Level, form: map<string, FieldValue>, imageCount: nat, s: string)
    requires form[SEO_DESCRIPTION := TextValue(s)] == form
    ensures |s| == SEO_DESCRIPTION_MAX ==> FieldError(level, form, imageCount, SEO_DESCRIPTION).None?
    ensures |s| == SEO_DESCRIPTION_MAX + 1 ==> FieldError(level, form, imageCount, SEO_DESCRIPTION) == Some(MSG_SEO_DESCRIPTION_LONG)
  {
    assert SEO_DESCRIPTION in form && form[SEO_DESCRIPTION] == TextValue(s) by {
      assert SEO_DESCRIPTION in form[SEO_DESCRIPTION := TextValue(s)];
    }
  }

  /** The parent is required only on the sub-category page. */
  lemma ParentRequiredOnlyOnSubPage(form: map<string, FieldValue>, imageCount: nat)
    ensures FieldError(TopLevel, form, imageCount, PARENT_CATEGORY).None?
    ensures FieldError(SubLevel, form, imageCount, PARENT_CATEGORY).Some? <==> !Present(form, PARENT_CATEGORY)
  {
  }

  class CategoryForm {
    const level: Level
    var formData: map<string, FieldValue>
    var errors: map<string, string>
    var images: seq<Image>
    var loading: bool
    var progress: nat
    /** The navigation the 2.5-second timeout of a submission will make. */
    var pendingNavigation: Option<string>
    var navigations: seq<string>

    constructor (level: Level, parent: Option<string>)
      ensures this.level == level
      ensures formData == InitialForm(level, parent)
      ensures errors == map[] && images == [] && !loading && progress == 0
      ensures pendingNavigation == None && navigations == []
    {
      this.level := level;
      formData := InitialForm(level, parent);
      errors := map[];
      images := [];
      loading := false;
      progress := 0;
      pendingNavigation := None;
      navigations := [];
    }

    /** `handleChange`. */
    method HandleChange(e: InputEvent)
      modifies this`formData, this`errors
      ensures formData == ChangeForm(old(formData), e)
      ensures errors == ClearError(old(errors), e.name)
    {
      formData := SetField(formData, e);
      if e.name == NAME && e.value != "" {
        formData := formData[SLUG := TextValue(Slug.Slugify(e.value))];
      }
      errors := ClearError(errors, e.name);
    }

    /** `handleImageUpload`: the first selected file becomes the only image. */
    method HandleImageUpload(files: seq<File>)
      modifies this`images, this`errors
      ensures |files| > 0 ==> images == [ImageOf(files[0])] && errors == ClearError(old(errors), IMAGE)
      ensures |files| == 0 ==> images == old(images) && errors == old(errors)
    {
      if |files| > 0 {
        images := [ImageOf(files[0])];
        errors := ClearError(errors, IMAGE);
      }
    }

    /** A file selection through the page's `ImageUploader` (one image at most). */
    method SelectFiles(files: seq<File>) returns (alert: Option<string>)
      modifies this`images, this`errors
      ensures var s := ImageUploader.HandleFileChange(files, |old(images)|, Some(MAX_IMAGES));
              if s.Alerted? then alert == Some(s.message) && images == old(images) && errors == old(errors)
              else alert == None && (|files| > 0 ==> images == [ImageOf(files[0])])
      ensures |images| <= MAX_IMAGES || images == old(images)
    {
      var s := ImageUploader.HandleFileChange(files, |images|, Some(MAX_IMAGES));
      if s.Alerted? {
        return Some(s.message);
      }
      HandleImageUpload(s.files);
      return None;
    }

    /** `handleRemoveImage`: whatever index the button passes, the image list empties. */
    method HandleRemoveImage(index: nat)
      modifies this`images
      ensures images == []
    {
      images := [];
    }

    /** `validate`, check by check in the page's order; each `Put` is one
        `if (failed) newErrors.field = message`. */
    method Validate() returns (newErrors: map<string, string>)
      ensures newErrors == ErrorsInOrder(level, formData, |images|)
      ensures IsErrorsOf(newErrors, level, formData, |images|)
    {
      newErrors := map[];
      newErrors := Put(newErrors, NAME, !Present(formData, NAME), NameRequired(level));
      newErrors := Put(newErrors, SLUG, !Present(formData, SLUG), MSG_SLUG_REQUIRED);
      newErrors := Put(newErrors, DESCRIPTION, !Present(formData, DESCRIPTION), MSG_DESCRIPTION_REQUIRED);
      if level == SubLevel {
        newErrors := Put(newErrors, PARENT_CATEGORY, !Present(formData, PARENT_CATEGORY), MSG_PARENT_REQUIRED);
      }
      newErrors := Put(newErrors, SEO_TITLE, !Present(formData, SEO_TITLE), MSG_SEO_TITLE_REQUIRED);
      newErrors := Put(newErrors, SEO_DESCRIPTION, !Present(formData, SEO_DESCRIPTION), MSG_SEO_DESCRIPTION_REQUIRED);
      newErrors := Put(newErrors, IMAGE, |images| == 0, MSG_IMAGE_REQUIRED);
      newErrors := Put(newErrors, SLUG, Present(formData, SLUG) && !Slug.SlugFormat(TextOf(formData, SLUG)),
                       MSG_SLUG_FORMAT);
      newErrors := Put(newErrors, SEO_DESCRIPTION,
                       Present(formData, SEO_DESCRIPTION) && LongerThan(formData, SEO_DESCRIPTION, SEO_DESCRIPTION_MAX),
                       MSG_SEO_DESCRIPTION_LONG);
      ErrorsInOrderAreFieldErrors(level, formData, |images|);
    }

    /** Where a successful submission goes: the category list, or the parent's
        sub-category list. */
    function SubmitTarget(): (target: string)
      reads this
      ensures level == TopLevel ==> target == "/categories"
      ensures level == SubLevel ==> target == SUB_LIST_PREFIX + TextOf(formData, PARENT_CATEGORY)
    {
      if level == TopLevel then "/categories" else SUB_LIST_PREFIX + TextOf(formData, PARENT_CATEGORY)
    }

    /** `handleSubmit`: any error only replaces the shown errors; a clean form starts the
        simulated upload. */
    method HandleSubmit() returns (submitted: bool)
      modifies this`errors, this`loading, this`pendingNavigation
      ensures submitted <==> forall f :: FieldError(level, formData, |images|, f).None?
      ensures !submitted ==> IsErrorsOf(errors, level, formData, |images|)
                             && loading == old(loading) && pendingNavigation == old(pendingNavigation)
      ensures submitted ==> errors == old(errors) && loading && pendingNavigation == Some(SubmitTarget())
      ensures submitted && level == SubLevel ==> Present(formData, PARENT_CATEGORY)
    {
      var newErrors := Validate();
      EmptyErrors(newErrors);
      if |newErrors| > 0 {
        var k :| k in newErrors;
        errors := newErrors;
        assert AgreesAt(newErrors, level, formData, |images|, k);
        assert FieldError(level, formData, |images|, k).Some?;
        return false;
      }
      forall f
        ensures FieldError(level, formData, |images|, f).None?
      {
        assert AgreesAt(newErrors, level, formData, |images|, f);
      }
      assert FieldError(level, formData, |images|, PARENT_CATEGORY).None?;
      loading := true;
      pendingNavigation := Some(SubmitTarget());
      return true;
    }

    /** One 200 ms interval callback of the simulated upload. */
    method ProgressTick()
      modifies this`progress
      ensures progress == ProgressStep(old(progress))
    {
      progress := ProgressStep(progress);
    }

    /** The 2.5-second timeout of a submission. */
    method FinishUpload()
      modifies this`loading, this`progress, this`pendingNavigation, this`navigations
      ensures old(pendingNavigation).Some? ==>
                !loading && progress == 0 && pendingNavigation == None
                && navigations == old(navigations) + [old(pendingNavigation).value]
      ensures old(pendingNavigation).None? ==>
                loading == old(loading) && progress == old(progress) && navigations == old(navigations)
                && pendingNavigation == None
    {
      if pendingNavigation.Some? {
        loading := false;
        progress := 0;
        navigations := navigations + [pendingNavigation.value];
        pendingNavigation := None;
      }
    }
  }
}
