/** The home-banner add page: required fields, the date-order check, the link-prefix
    check, the single banner image and its preview. */
module BannerForm {
  import opened Text
  import opened FormFields
  import ImageUploader

  const TITLE: string := "title"
  const SUBTITLE: string := "subtitle"
  const DESCRIPTION: string := "description"
  const LINK: string := "link"
  const POSITION: string := "position"
  const START_DATE: string := "startDate"
  const END_DATE: string := "endDate"
  const IMAGE: string := "image"

  const MAX_IMAGES: nat := 1

  const MSG_TITLE_REQUIRED: string := "Title is required"
  const MSG_SUBTITLE_REQUIRED: string := "Subtitle is required"
  const MSG_DESCRIPTION_REQUIRED: string := "Description is required"
  const MSG_LINK_REQUIRED: string := "Link URL is required"
  const MSG_POSITION_REQUIRED: string := "Position is required"
  const MSG_START_REQUIRED: string := "Start date is required"
  const MSG_END_REQUIRED: string := "End date is required"
  const MSG_IMAGE_REQUIRED: string := "Banner image is required"
  const MSG_DATE_ORDER: string := "End date must be after start date"
  const MSG_LINK_FORMAT: string := "Link must start with / or http"

  const BANNER_LIST: string := "/home-banners"

  /** The initial `formData`. */
  function InitialForm(): (form: map<string, FieldValue>)
    ensures forall k :: k in {TITLE, SUBTITLE, DESCRIPTION, LINK, POSITION, START_DATE, END_DATE} ==>
                          k in form && form[k] == TextValue("")
  {
    map[TITLE := TextValue(""), SUBTITLE := TextValue(""), DESCRIPTION := TextValue(""), LINK := TextValue(""),
        "buttonText" := TextValue("Shop Now"), "buttonColor" := TextValue("#3B82F6"),
        "textColor" := TextValue("#FFFFFF"), "backgroundColor" := TextValue(""), POSITION := TextValue(""),
        START_DATE := TextValue(""), END_DATE := TextValue(""), "status" := TextValue("draft"),
        "showButton" := FlagValue(true), "openInNewTab" := FlagValue(false), "fullWidth" := FlagValue(true)]
  }

  /** String order, the model of `new Date(a) < new Date(b)` for ISO dates 'YYYY-MM-DD',
      whose string order is their calendar order. */
  predicate Earlier(a: string, b: string)
    decreases |a|
  {
    if a == [] then b != []
    else if b == [] then false
    else if a[0] != b[0] then a[0] < b[0]
    else Earlier(a[1..], b[1..])
  }

  /** A day is not earlier than itself, so a one-day banner is accepted. */
  lemma {:induction false} SameDayIsNotEarlier(a: string)
    ensures !Earlier(a, a)
    decreases |a|
  {
    if a != [] {
      SameDayIsNotEarlier(a[1..]);
    }
  }

  /** Of two different days exactly one is earlier. */
  lemma {:induction false} EarlierIsTotal(a: string, b: string)
    ensures a != b ==> (Earlier(a, b) <==> !Earlier(b, a))
    decreases |a|
  {
    if a != [] && b != [] && a[0] == b[0] {
      EarlierIsTotal(a[1..], b[1..]);
      if a != b {
        assert a == [a[0]] + a[1..] && b == [b[0]] + b[1..];
      }
    }
  }

  predicate EndBeforeStart(form: map<string, FieldValue>)
  {
    Present(form, START_DATE) && Present(form, END_DATE) && Earlier(TextOf(form, END_DATE), TextOf(form, START_DATE))
  }

  /** `!link.startsWith('/') && !link.startsWith('http')`. */
  predicate BadLink(form: map<string, FieldValue>)
  {
    var link := TextOf(form, LINK);
    !IsPrefix("/", link) && !IsPrefix("http", link)
  }

  /** The error `validate` leaves on each field. The date-order check and the link check
      run after the required checks and overwrite them. */
  function FieldError(form: map<string, FieldValue>, imageCount: nat, field: string): Option<string>
  {
    if field == TITLE then
      if !Present(form, TITLE) then Some(MSG_TITLE_REQUIRED) else None
    else if field == SUBTITLE then
      if !Present(form, SUBTITLE) then Some(MSG_SUBTITLE_REQUIRED) else None
    else if field == DESCRIPTION then
      if !Present(form, DESCRIPTION) then Some(MSG_DESCRIPTION_REQUIRED) else None
    else if field == LINK then
      if Present(form, LINK) && BadLink(form) then Some(MSG_LINK_FORMAT)
      else if !Present(form, LINK) then Some(MSG_LINK_REQUIRED)
      else None
    else if field == POSITION then
      if !Present(form, POSITION) then Some(MSG_POSITION_REQUIRED) else None
    else if field == START_DATE then
      if !Present(form, START_DATE) then Some(MSG_START_REQUIRED) else None
    else if field == END_DATE then
      if EndBeforeStart(form) then Some(MSG_DATE_ORDER)
      else if !Present(form, END_DATE) then Some(MSG_END_REQUIRED)
      else None
    else if field == IMAGE then
      if imageCount == 0 then Some(MSG_IMAGE_REQUIRED) else None
    else None
  }

  /** `validate`'s required checks in the page's order. */
  function RequiredErrors(form: map<string, FieldValue>, imageCount: nat): map<string, string>
  {
    var m1 := Put(map[], TITLE, !Present(form, TITLE), MSG_TITLE_REQUIRED);
    var m2 := Put(m1, SUBTITLE, !Present(form, SUBTITLE), MSG_SUBTITLE_REQUIRED);
    var m3 := Put(m2, DESCRIPTION, !Present(form, DESCRIPTION), MSG_DESCRIPTION_REQUIRED);
    var m4 := Put(m3, LINK, !Present(form, LINK), MSG_LINK_REQUIRED);
    var m5 := Put(m4, POSITION, !Present(form, POSITION), MSG_POSITION_REQUIRED);
    var m6 := Put(m5, START_DATE, !Present(form, START_DATE), MSG_START_REQUIRED);
    var m7 := Put(m6, END_DATE, !Present(form, END_DATE), MSG_END_REQUIRED);
    Put(m7, IMAGE, imageCount == 0, MSG_IMAGE_REQUIRED)
  }

  /** `validate`'s checks in the page's order: the required checks, then the date order,
      then the link format. */
  function ErrorsInOrder(form: map<string, FieldValue>, imageCount: nat): map<string, string>
  {
    var m9 := Put(RequiredErrors(form, imageCount), END_DATE, EndBeforeStart(form), MSG_DATE_ORDER);
    Put(m9, LINK, Present(form, LINK) && BadLink(form), MSG_LINK_FORMAT)
  }

  ghost predicate AgreesAt(m: map<string, string>, form: map<string, FieldValue>, imageCount: nat, f: string)
  {
    (f in m <==> FieldError(form, imageCount, f).Some?)
    && (f in m ==> m[f] == FieldError(form, imageCount, f).value)
  }

  /** `m` holds exactly the errors `FieldError` gives. */
  ghost predicate IsErrorsOf(m: map<string, string>, form: map<string, FieldValue>, imageCount: nat)
  {
    forall f :: AgreesAt(m, form, imageCount, f)
  }

  /** Running the checks in order leaves on every field exactly the error `FieldError`
      gives it, at most one per field. */
  lemma ErrorsInOrderAreFieldErrors(form: map<string, FieldValue>, imageCount: nat)
    ensures IsErrorsOf(ErrorsInOrder(form, imageCount), form, imageCount)
  {
    var m := ErrorsInOrder(form, imageCount);
    AgreesAtTitle(form, imageCount);
    AgreesAtSubtitle(form, imageCount);
    AgreesAtDescription(form, imageCount);
    AgreesAtLink(form, imageCount);
    AgreesAtPosition(form, imageCount);
    AgreesAtStartDate(form, imageCount);
    AgreesAtEndDate(form, imageCount);
    AgreesAtImage(form, imageCount);
    forall f | f !in {TITLE, SUBTITLE, DESCRIPTION, LINK, POSITION, START_DATE, END_DATE, IMAGE}
      ensures AgreesAt(m, form, imageCount, f)
    {
      AgreesElsewhere(form, imageCount, f);
    }
    AgreeEverywhere(m, form, imageCount);
  }

  lemma AgreeEverywhere(m: map<string, string>, form: map<string, FieldValue>, imageCount: nat)
    requires AgreesAt(m, form, imageCount, TITLE) && AgreesAt(m, form, imageCount, SUBTITLE)
    requires AgreesAt(m, form, imageCount, DESCRIPTION) && AgreesAt(m, form, imageCount, LINK)
    requires AgreesAt(m, form, imageCount, POSITION) && AgreesAt(m, form, imageCount, START_DATE)
    requires AgreesAt(m, form, imageCount, END_DATE) && AgreesAt(m, form, imageCount, IMAGE)
    requires forall f | f !in {TITLE, SUBTITLE, DESCRIPTION, LINK, POSITION, START_DATE, END_DATE, IMAGE} ::
               AgreesAt(m, form, imageCount, f)
    ensures IsErrorsOf(m, form, imageCount)
  {
    forall f
      ensures AgreesAt(m, form, imageCount, f)
    {
      if f in {TITLE, SUBTITLE, DESCRIPTION, LINK, POSITION, START_DATE, END_DATE, IMAGE} {
      }
    }
  }

  lemma AgreesAtTitle(form: map<string, FieldValue>, imageCount: nat)
    ensures AgreesAt(ErrorsInOrder(form, imageCount), form, imageCount, TITLE)
  {
  }

  lemma AgreesAtSubtitle(form: map<string, FieldValue>, imageCount: nat)
    ensures AgreesAt(ErrorsInOrder(form, imageCount), form, imageCount, SUBTITLE)
  {
  }

  lemma AgreesAtDescription(form: map<string, FieldValue>, imageCount: nat)
    ensures AgreesAt(ErrorsInOrder(form, imageCount), form, imageCount, DESCRIPTION)
  {
  }

  lemma AgreesAtLink(form: map<string, FieldValue>, imageCount: nat)
    ensures AgreesAt(ErrorsInOrder(form, imageCount), form, imageCount, LINK)
  {
  }

  lemma AgreesAtPosition(form: map<string, FieldValue>, imageCount: nat)
    ensures AgreesAt(ErrorsInOrder(form, imageCount), form, imageCount, POSITION)
  {
  }

  lemma AgreesAtStartDate(form: map<string, FieldValue>, imageCount: nat)
    ensures AgreesAt(ErrorsInOrder(form, imageCount), form, imageCount, START_DATE)
  {
  }

  lemma AgreesAtEndDate(form: map<string, FieldValue>, imageCount: nat)
    ensures AgreesAt(ErrorsInOrder(form, imageCount), form, imageCount, END_DATE)
  {
  }

  lemma AgreesAtImage(form: map<string, FieldValue>, imageCount: nat)
    ensures AgreesAt(ErrorsInOrder(form, imageCount), form, imageCount, IMAGE)
  {
  }

  lemma AgreesElsewhere(form: map<string, FieldValue>, imageCount: nat, f: string)
    requires f !in {TITLE, SUBTITLE, DESCRIPTION, LINK, POSITION, START_DATE, END_DATE, IMAGE}
    ensures AgreesAt(ErrorsInOrder(form, imageCount), form, imageCount, f)
  {
  }

  /** The date-order check needs both dates; a banner ending on its start day passes it. */
  lemma DateOrderNeedsBothDates(form: map<string, FieldValue>, imageCount: nat)
    ensures FieldError(form, imageCount, END_DATE) == Some(MSG_DATE_ORDER) ==>
              Present(form, START_DATE) && Present(form, END_DATE)
    ensures Present(form, END_DATE) && TextOf(form, END_DATE) == TextOf(form, START_DATE) ==>
              FieldError(form, imageCount, END_DATE).None?
  {
    SameDayIsNotEarlier(TextOf(form, END_DATE));
  }

  /** The link test is a literal prefix test: "/sale" and "https://x" pass, "www.x" and
      "ftp://x" do not. */
  lemma LinkPrefixes(form: map<string, FieldValue>, imageCount: nat, rest: string)
    ensures form[LINK := TextValue("/" + rest)] == form ==> FieldError(form, imageCount, LINK).None?
    ensures form[LINK := TextValue("http" + rest)] == form ==> FieldError(form, imageCount, LINK).None?
  {
    if form[LINK := TextValue("/" + rest)] == form {
      assert LINK in form[LINK := TextValue("/" + rest)];
      assert TextOf(form, LINK)[..1] == "/";
    }
    if form[LINK := TextValue("http" + rest)] == form {
      assert LINK in form[LINK := TextValue("http" + rest)];
      assert TextOf(form, LINK)[..4] == "http";
    }
  }

  class BannerFormPage {
    var formData: map<string, FieldValue>
    var errors: map<string, string>
    var images: seq<Image>
    var showPreview: bool
    var loading: bool
    var progress: nat
    var pendingNavigation: Option<string>
    var navigations: seq<string>

    constructor ()
      ensures formData == InitialForm() && errors == map[] && images == [] && !showPreview
      ensures !loading && progress == 0 && pendingNavigation == None && navigations == []
    {
      formData := InitialForm();
      errors := map[];
      images := [];
      showPreview := false;
      loading := false;
      progress := 0;
      pendingNavigation := None;
      navigations := [];
    }

    /** `handleChange`: set the field and blank its shown error. */
    method HandleChange(e: InputEvent)
      modifies this`formData, this`errors
      ensures formData == SetField(old(formData), e)
      ensures errors == ClearError(old(errors), e.name)
    {
      formData := SetField(formData, e);
      errors := ClearError(errors, e.name);
    }

    /** `handleImageUpload`: only the first selected file is kept. */
    method HandleImageUpload(files: seq<File>)
      modifies this`images, this`errors
      ensures |files| > 0 ==> images == [ImageOf(files[0])] && errors == ClearError(old(errors), IMAGE)
      ensures |files| == 0 ==> images == old(images) && errors == old(errors)
    {
      if |files| > 0 {
        images := [ImageOf(files[0])];
        errors := ClearError(errors, IMAGE);
      }
    }

    /** A file selection through the page's `ImageUploader` (one image at most). */
    method SelectFiles(files: seq<File>) returns (alert: Option<string>)
      modifies this`images, this`errors
      ensures var s := ImageUploader.HandleFileChange(files, |old(images)|, Some(MAX_IMAGES));
              if s.Alerted? then alert == Some(s.message) && images == old(images) && errors == old(errors)
              else alert == None && (|files| > 0 ==> images == [ImageOf(files[0])])
    {
      var s := ImageUploader.HandleFileChange(files, |images|, Some(MAX_IMAGES));
      if s.Alerted? {
        return Some(s.message);
      }
      HandleImageUpload(s.files);
      return None;
    }

    method HandleRemoveImage(index: nat)
      modifies this`images
      ensures images == []
    {
      images := [];
    }

    /** The preview button is enabled only with an image. */
    function PreviewEnabled(): (b: bool)
      reads this
      ensures b <==> |images| > 0
    {
      |images| > 0
    }

    /** The modal shows only while the preview is on and there is an image to show. */
    function PreviewVisible(): (b: bool)
      reads this
      ensures b ==> PreviewEnabled()
      ensures b <==> showPreview && |images| > 0
    {
      showPreview && |images| > 0
    }

    /** `togglePreview`, reachable through the button, which is disabled without an image,
        and through the modal, which is only shown with one. */
    method TogglePreview()
      modifies this`showPreview
      ensures PreviewEnabled() ==> showPreview == !old(showPreview)
      ensures !PreviewEnabled() ==> showPreview == old(showPreview)
    {
      if |images| > 0 {
        showPreview := !showPreview;
      }
    }

    /** `validate`, check by check in the page's order; each `Put` is one
        `if (failed) newErrors.field = message`. */
    method Validate() returns (newErrors: map<string, string>)
      ensures newErrors == ErrorsInOrder(formData, |images|)
      ensures IsErrorsOf(newErrors, formData, |images|)
    {
      newErrors := map[];
      newErrors := Put(newErrors, TITLE, !Present(formData, TITLE), MSG_TITLE_REQUIRED);
      newErrors := Put(newErrors, SUBTITLE, !Present(formData, SUBTITLE), MSG_SUBTITLE_REQUIRED);
      newErrors := Put(newErrors, DESCRIPTION, !Present(formData, DESCRIPTION), MSG_DESCRIPTION_REQUIRED);
      newErrors := Put(newErrors, LINK, !Present(formData, LINK), MSG_LINK_REQUIRED);
      newErrors := Put(newErrors, POSITION, !Present(formData, POSITION), MSG_POSITION_REQUIRED);
      newErrors := Put(newErrors, START_DATE, !Present(formData, START_DATE), MSG_START_REQUIRED);
      newErrors := Put(newErrors, END_DATE, !Present(formData, END_DATE), MSG_END_REQUIRED);
      newErrors := Put(newErrors, IMAGE, |images| == 0, MSG_IMAGE_REQUIRED);
      var bothDates := Present(formData, START_DATE) && Present(formData, END_DATE);
      newErrors := Put(newErrors, END_DATE,
                       bothDates && Earlier(TextOf(formData, END_DATE), TextOf(formData, START_DATE)), MSG_DATE_ORDER);
      var link := TextOf(formData, LINK);
      newErrors := Put(newErrors, LINK,
                       Present(formData, LINK) && !IsPrefix("/", link) && !IsPrefix("http", link), MSG_LINK_FORMAT);
      ErrorsInOrderAreFieldErrors(formData, |images|);
    }

    /** `handleSubmit`: any error blocks the submission and only replaces the shown
        errors; a clean form starts the simulated upload. */
    method HandleSubmit() returns (submitted: bool)
      modifies this`errors, this`loading, this`pendingNavigation
      ensures submitted <==> forall f :: FieldError(formData, |images|, f).None?
      ensures !submitted ==> IsErrorsOf(errors, formData, |images|)
                             && loading == old(loading) && pendingNavigation == old(pendingNavigation)
      ensures submitted ==> errors == old(errors) && loading && pendingNavigation == Some(BANNER_LIST)
    {
      var newErrors := Validate();
      EmptyErrors(newErrors);
      if |newErrors| > 0 {
        var k :| k in newErrors;
        errors := newErrors;
        assert AgreesAt(newErrors, formData, |images|, k);
        assert FieldError(formData, |images|, k).Some?;
        return false;
      }
      forall f
        ensures FieldError(formData, |images|, f).None?
      {
        assert AgreesAt(newErrors, formData, |images|, f);
      }
      loading := true;
      pendingNavigation := Some(BANNER_LIST);
      return true;
    }

    method ProgressTick()
      modifies this`progress
      ensures progress == ProgressStep(old(progress))
    {
      progress := ProgressStep(progress);
    }

    /** The 2.5-second timeout of a submission. */
    method FinishUpload()
      modifies this`loading, this`progress, this`pendingNavigation, this`navigations
      ensures old(pendingNavigation).Some? ==>
                !loading && progress == 0 && pendingNavigation == None
                && navigations == old(navigations) + [old(pendingNavigation).value]
      ensures old(pendingNavigation).None? ==>
                loading == old(loading) && progress == old(progress) && navigations == old(navigations)
                && pendingNavigation == None
    {
      if pendingNavigation.Some? {
        loading := false;
        progress := 0;
        navigations := navigations + [pendingNavigation.value];
        pendingNavigation := None;
      }
    }
  }
}
