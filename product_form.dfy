/** The product upload page: the category and sub-category selects, the colour and size
    toggles, the product images (up to five, removable by index), `validate` and the
    simulated upload. */
module ProductForm {
  import opened Text
  import opened FormFields
  import SeqOps
  import ImageUploader

  const NAME: string := "name"
  const DESCRIPTION: string := "description"
  const CATEGORY: string := "category"
  const SUB_CATEGORY: string := "subCategory"
  const BRAND: string := "brand"
  const PRICE: string := "price"
  const STOCK: string := "stock"
  const SKU: string := "sku"
  const IMAGES: string := "images"

  const MAX_IMAGES: nat := 5

  const MSG_NAME_REQUIRED: string := "Product name is required"
  const MSG_DESCRIPTION_REQUIRED: string := "Description is required"
  const MSG_CATEGORY_REQUIRED: string := "Category is required"
  const MSG_SUB_CATEGORY_REQUIRED: string := "Sub category is required"
  const MSG_BRAND_REQUIRED: string := "Brand is required"
  const MSG_PRICE_REQUIRED: string := "Price is required"
  const MSG_STOCK_REQUIRED: string := "Stock quantity is required"
  const MSG_SKU_REQUIRED: string := "SKU is required"
  const MSG_IMAGES_REQUIRED: string := "At least one image is required"

  const PRODUCT_LIST: string := "/products"

  /** The `categories` object, and its keys in their written order (`categoryOptions`). */
  const CATEGORY_NAMES: seq<string> := ["Electronics", "Accessories", "Fashion", "Home", "Sports"]
  const CATEGORIES: map<string, seq<string>> :=
    map["Electronics" := ["Audio", "Cameras", "Computers", "Mobile", "Wearables", "Gaming", "Peripherals", "Displays"],
        "Accessories" := ["Phone", "Laptop", "Bags", "Cables", "Office", "Chargers"],
        "Fashion" := ["Men", "Women", "Kids", "Shoes", "Jewelry"],
        "Home" := ["Kitchen", "Bedroom", "Living Room", "Bathroom", "Garden"],
        "Sports" := ["Fitness", "Outdoor", "Team Sports", "Water Sports"]]

  const AVAILABLE_COLORS: seq<string> := ["Black", "White", "Red", "Blue", "Green", "Yellow", "Purple", "Pink", "Orange", "Gray"]
  const AVAILABLE_SIZES: seq<string> := ["XS", "S", "M", "L", "XL", "XXL"]

  /** The text and checkbox entries of the initial `formData`; its `colors` and `sizes`
      arrays are the page's `colors` and `sizes` fields. */
  function InitialForm(): (form: map<string, FieldValue>)
    ensures forall k :: k in {NAME, DESCRIPTION, CATEGORY, SUB_CATEGORY, BRAND, PRICE, STOCK, SKU} ==>
                          k in form && form[k] == TextValue("")
    ensures "featured" in form && form["featured"] == FlagValue(false)
    ensures "status" in form && form["status"] == TextValue("draft")
  {
    map[NAME := TextValue(""), DESCRIPTION := TextValue(""), CATEGORY := TextValue(""), SUB_CATEGORY := TextValue(""),
        BRAND := TextValue(""), PRICE := TextValue(""), "oldPrice" := TextValue(""), STOCK := TextValue(""),
        SKU := TextValue(""), "weight" := TextValue(""), "dimensions" := TextValue(""), "tags" := TextValue(""),
        "featured" := FlagValue(false), "status" := TextValue("draft")]
  }

  /** Every listed category has its entry in `categories`, and every entry is listed. */
  lemma CategoryNamesAreTheKeys()
    ensures forall c :: c in CATEGORY_NAMES <==> c in CATEGORIES
    ensures SeqOps.NoDuplicates(CATEGORY_NAMES)
    ensures forall c :: c in CATEGORIES ==> |CATEGORIES[c]| > 0
  {
  }

  /** `subCategoryOptions`: no options without a category, the category's own list
      otherwise; `None` is a category with no entry in `categories`, for which the page's
      `categories[formData.category].map` throws. */
  function SubCategoryOptions(form: map<string, FieldValue>): (r: Option<seq<string>>)
    ensures !Present(form, CATEGORY) ==> r == Some([])
    ensures Present(form, CATEGORY) ==> (r.Some? <==> TextOf(form, CATEGORY) in CATEGORIES)
    ensures Present(form, CATEGORY) && r.Some? ==> r.value == CATEGORIES[TextOf(form, CATEGORY)] && |r.value| > 0
  {
    if !Present(form, CATEGORY) then Some([])
    else if TextOf(form, CATEGORY) in CATEGORIES then Some(CATEGORIES[TextOf(form, CATEGORY)])
    else None
  }

  /** `handleCategoryChange`'s update: the category is set and the sub-category emptied. */
  function CategoryChange(form: map<string, FieldValue>, category: string): (r: map<string, FieldValue>)
    ensures CATEGORY in r && r[CATEGORY] == TextValue(category)
    ensures SUB_CATEGORY in r && r[SUB_CATEGORY] == TextValue("")
    ensures forall k :: k != CATEGORY && k != SUB_CATEGORY ==> (k in r <==> k in form) && (k in form ==> r[k] == form[k])
  {
    form[CATEGORY := TextValue(category)][SUB_CATEGORY := TextValue("")]
  }

  /** Choosing any offered category shows exactly that category's sub-categories, never
      the throwing lookup. */
  lemma OfferedCategoryHasOptions(form: map<string, FieldValue>, category: string)
    requires category in CATEGORY_NAMES
    ensures SubCategoryOptions(CategoryChange(form, category)) == Some(CATEGORIES[category])
  {
    CategoryNamesAreTheKeys();
  }

  /** The error `validate` leaves on each field: every required entry that is empty, and
      the image list when it is empty. */
  function FieldError(form: map<string, FieldValue>, imageCount: nat, field: string): Option<string>
  {
    if field == NAME then (if !Present(form, NAME) then Some(MSG_NAME_REQUIRED) else None)
    else if field == DESCRIPTION then (if !Present(form, DESCRIPTION) then Some(MSG_DESCRIPTION_REQUIRED) else None)
    else if field == CATEGORY then (if !Present(form, CATEGORY) then Some(MSG_CATEGORY_REQUIRED) else None)
    else if field == SUB_CATEGORY then (if !Present(form, SUB_CATEGORY) then Some(MSG_SUB_CATEGORY_REQUIRED) else None)
    else if field == BRAND then (if !Present(form, BRAND) then Some(MSG_BRAND_REQUIRED) else None)
    else if field == PRICE then (if !Present(form, PRICE) then Some(MSG_PRICE_REQUIRED) else None)
    else if field == STOCK then (if !Present(form, STOCK) then Some(MSG_STOCK_REQUIRED) else None)
    else if field == SKU then (if !Present(form, SKU) then Some(MSG_SKU_REQUIRED) else None)
    else if field == IMAGES then (if imageCount == 0 then Some(MSG_IMAGES_REQUIRED) else None)
    else None
  }

  /** `validate`'s checks in the page's order. */
  function ErrorsInOrder(form: map<string, FieldValue>, imageCount: nat): map<string, string>
  {
    var m1 := Put(map[], NAME, !Present(form, NAME), MSG_NAME_REQUIRED);
    var m2 := Put(m1, DESCRIPTION, !Present(form, DESCRIPTION), MSG_DESCRIPTION_REQUIRED);
    var m3 := Put(m2, CATEGORY, !Present(form, CATEGORY), MSG_CATEGORY_REQUIRED);
    var m4 := Put(m3, SUB_CATEGORY, !Present(form, SUB_CATEGORY), MSG_SUB_CATEGORY_REQUIRED);
    var m5 := Put(m4, BRAND, !Present(form, BRAND), MSG_BRAND_REQUIRED);
    var m6 := Put(m5, PRICE, !Present(form, PRICE), MSG_PRICE_REQUIRED);
    var m7 := Put(m6, STOCK, !Present(form, STOCK), MSG_STOCK_REQUIRED);
    var m8 := Put(m7, SKU, !Present(form, SKU), MSG_SKU_REQUIRED);
    Put(m8, IMAGES, imageCount == 0, MSG_IMAGES_REQUIRED)
  }

  ghost predicate AgreesAt(m: map<string, string>, form: map<string, FieldValue>, imageCount: nat, f: string)
  {
    (f in m <==> FieldError(form, imageCount, f).Some?)
    && (f in m ==> m[f] == FieldError(form, imageCount, f).value)
  }

  /** `m` holds exactly the errors `FieldError` gives. */
  ghost predicate IsErrorsOf(m: map<string, string>, form: map<string, FieldValue>, imageCount: nat)
  {
    forall f :: AgreesAt(m, form, imageCount, f)
  }

  /** Running the checks in order leaves on every field exactly the error `FieldError`
      gives it. */
  lemma ErrorsInOrderAreFieldErrors(form: map<string, FieldValue>, imageCount: nat)
    ensures IsErrorsOf(ErrorsInOrder(form, imageCount), form, imageCount)
  {
    var m := ErrorsInOrder(form, imageCount);
    AgreesAtName(form, imageCount);
    AgreesAtDescription(form, imageCount);
    AgreesAtCategory(form, imageCount);
    AgreesAtSubCategory(form, imageCount);
    AgreesAtBrand(form, imageCount);
    AgreesAtPrice(form, imageCount);
    AgreesAtStock(form, imageCount);
    AgreesAtSku(form, imageCount);
    AgreesAtImages(form, imageCount);
    forall f | f !in {NAME, DESCRIPTION, CATEGORY, SUB_CATEGORY, BRAND, PRICE, STOCK, SKU, IMAGES}
      ensures AgreesAt(m, form, imageCount, f)
    {
      AgreesElsewhere(form, imageCount, f);
    }
    AgreeEverywhere(m, form, imageCount);
  }

  lemma AgreeEverywhere(m: map<string, string>, form: map<string, FieldValue>, imageCount: nat)
    requires AgreesAt(m, form, imageCount, NAME) && AgreesAt(m, form, imageCount, DESCRIPTION)
    requires AgreesAt(m, form, imageCount, CATEGORY) && AgreesAt(m, form, imageCount, SUB_CATEGORY)
    requires AgreesAt(m, form, imageCount, BRAND) && AgreesAt(m, form, imageCount, PRICE)
    requires AgreesAt(m, form, imageCount, STOCK) && AgreesAt(m, form, imageCount, SKU)
    requires AgreesAt(m, form, imageCount, IMAGES)
    requires forall f | f !in {NAME, DESCRIPTION, CATEGORY, SUB_CATEGORY, BRAND, PRICE, STOCK, SKU, IMAGES} ::
               AgreesAt(m, form, imageCount, f)
    ensures IsErrorsOf(m, form, imageCount)
  {
    forall f
      ensures AgreesAt(m, form, imageCount, f)
    {
      if f in {NAME, DESCRIPTION, CATEGORY, SUB_CATEGORY, BRAND, PRICE, STOCK, SKU, IMAGES} {
      }
    }
  }

  lemma AgreesAtName(form: map<string, FieldValue>, imageCount: nat)
    ensures AgreesAt(ErrorsInOrder(form, imageCount), form, imageCount, NAME)
  {
  }

  lemma AgreesAtDescription(form: map<string, FieldValue>, imageCount: nat)
    ensures AgreesAt(ErrorsInOrder(form, imageCount), form, imageCount, DESCRIPTION)
  {
  }

  lemma AgreesAtCategory(form: map<string, FieldValue>, imageCount: nat)
    ensures AgreesAt(ErrorsInOrder(form, imageCount), form, imageCount, CATEGORY)
  {
  }

  lemma AgreesAtSubCategory(form: map<string, FieldValue>, imageCount: nat)
    ensures AgreesAt(ErrorsInOrder(form, imageCount), form, imageCount, SUB_CATEGORY)
  {
  }

  lemma AgreesAtBrand(form: map<string, FieldValue>, imageCount: nat)
    ensures AgreesAt(ErrorsInOrder(form, imageCount), form, imageCount, BRAND)
  {
  }

  lemma AgreesAtPrice(form: map<string, FieldValue>, imageCount: nat)
    ensures AgreesAt(ErrorsInOrder(form, imageCount), form, imageCount, PRICE)
  {
  }

  lemma AgreesAtStock(form: map<string, FieldValue>, imageCount: nat)
    ensures AgreesAt(ErrorsInOrder(form, imageCount), form, imageCount, STOCK)
  {
  }

  lemma AgreesAtSku(form: map<string, FieldValue>, imageCount: nat)
    ensures AgreesAt(ErrorsInOrder(form, imageCount), form, imageCount, SKU)
  {
  }

  lemma AgreesAtImages(form: map<string, FieldValue>, imageCount: nat)
    ensures AgreesAt(ErrorsInOrder(form, imageCount), form, imageCount, IMAGES)
  {
  }

  lemma AgreesElsewhere(form: map<string, FieldValue>, imageCount: nat, f: string)
    requires f !in {NAME, DESCRIPTION, CATEGORY, SUB_CATEGORY, BRAND, PRICE, STOCK, SKU, IMAGES}
    ensures AgreesAt(ErrorsInOrder(form, imageCount), form, imageCount, f)
  {
  }

  /** A new category always asks for a new sub-category: the emptied sub-category is an
      error until one is picked, and the category's own error depends on the new value
      only. */
  lemma CategoryChangeRequiresSubCategory(form: map<string, FieldValue>, imageCount: nat, category: string)
    ensures FieldError(CategoryChange(form, category), imageCount, SUB_CATEGORY) == Some(MSG_SUB_CATEGORY_REQUIRED)
    ensures FieldError(CategoryChange(form, category), imageCount, CATEGORY).Some? <==> category == ""
  {
  }

  /** The previews the readers add for `files`, in selection order. */
  function ImagesOf(files: seq<File>): (r: seq<Image>)
    ensures |r| == |files|
    ensures forall j :: 0 <= j < |files| ==> r[j] == ImageOf(files[j])
    decreases |files|
  {
    if files == [] then [] else ImagesOf(files[..|files| - 1]) + [ImageOf(files[|files| - 1])]
  }

  class ProductFormPage {
    var formData: map<string, FieldValue>
    var colors: seq<string>
    var sizes: seq<string>
    var errors: map<string, string>
    var images: seq<Image>
    var loading: bool
    var progress: nat
    var pendingNavigation: Option<string>
    var navigations: seq<string>

    /** The colour and size selections never hold a value twice. */
    predicate Valid()
      reads this
    {
      SeqOps.NoDuplicates(colors) && SeqOps.NoDuplicates(sizes)
    }

    constructor ()
      ensures Valid()
      ensures formData == InitialForm() && colors == [] && sizes == [] && errors == map[] && images == []
      ensures !loading && progress == 0 && pendingNavigation == None && navigations == []
    {
      formData := InitialForm();
      colors := [];
      sizes := [];
      errors := map[];
      images := [];
      loading := false;
      progress := 0;
      pendingNavigation := None;
      navigations := [];
    }

    /** The sub-category select's options for the current category. */
    function SubCategorySelect(): (r: Option<seq<string>>)
      reads this
      ensures r == SubCategoryOptions(formData)
    {
      SubCategoryOptions(formData)
    }

    /** `handleChange`: set the field and blank its shown error. */
    method HandleChange(e: InputEvent)
      modifies this`formData, this`errors
      ensures formData == SetField(old(formData), e)
      ensures errors == ClearError(old(errors), e.name)
    {
      formData := SetField(formData, e);
      errors := ClearError(errors, e.name);
    }

    /** `handleCategoryChange`: the shown errors are left as they are. */
    method HandleCategoryChange(category: string)
      modifies this`formData
      ensures formData == CategoryChange(old(formData), category)
    {
      formData := CategoryChange(formData, category);
    }

    method HandleColorToggle(color: string)
      requires Valid()
      modifies this`colors
      ensures Valid()
      ensures colors == SeqOps.Toggle(old(colors), color)
    {
      SeqOps.ToggleKeepsNoDuplicates(colors, color);
      colors := SeqOps.Toggle(colors, color);
    }

    method HandleSizeToggle(size: string)
      requires Valid()
      modifies this`sizes
      ensures Valid()
      ensures sizes == SeqOps.Toggle(old(sizes), size)
    {
      SeqOps.ToggleKeepsNoDuplicates(sizes, size);
      sizes := SeqOps.Toggle(sizes, size);
    }

    /** `handleImageUpload`: one preview appended per selected file, in selection order;
        the shown image error is left as it is. */
    method HandleImageUpload(files: seq<File>)
      modifies this`images
      ensures images == old(images) + ImagesOf(files)
    {
      var i := 0;
      while i < |files|
        invariant 0 <= i <= |files|
        invariant images == old(images) + ImagesOf(files[..i])
      {
        assert files[..i + 1][..i] == files[..i];
        images := images + [ImageOf(files[i])];
        i := i + 1;
      }
      assert files[..|files|] == files;
    }

    /** A file selection through the page's `ImageUploader` (five images at most). */
    method SelectFiles(files: seq<File>) returns (alert: Option<string>)
      modifies this`images
      ensures var s := ImageUploader.HandleFileChange(files, |old(images)|, Some(MAX_IMAGES));
              if s.Alerted? then alert == Some(s.message) && images == old(images)
              else alert == None && images == old(images) + ImagesOf(files)
      ensures |images| <= MAX_IMAGES || images == old(images)
    {
      var s := ImageUploader.HandleFileChange(files, |images|, Some(MAX_IMAGES));
      if s.Alerted? {
        return Some(s.message);
      }
      HandleImageUpload(s.files);
      return None;
    }

    /** `handleRemoveImage`, called by a preview's remove button with its index. */
    method HandleRemoveImage(index: nat)
      modifies this`images
      ensures images == SeqOps.RemoveAt(old(images), index)
    {
      images := SeqOps.RemoveAt(images, index);
    }

    /** `validate`, check by check in the page's order; each `Put` is one
        `if (failed) newErrors.field = message`. */
    method Validate() returns (newErrors: map<string, string>)
      ensures newErrors == ErrorsInOrder(formData, |images|)
      ensures IsErrorsOf(newErrors, formData, |images|)
    {
      newErrors := map[];
      newErrors := Put(newErrors, NAME, !Present(formData, NAME), MSG_NAME_REQUIRED);
      newErrors := Put(newErrors, DESCRIPTION, !Present(formData, DESCRIPTION), MSG_DESCRIPTION_REQUIRED);
      newErrors := Put(newErrors, CATEGORY, !Present(formData, CATEGORY), MSG_CATEGORY_REQUIRED);
      newErrors := Put(newErrors, SUB_CATEGORY, !Present(formData, SUB_CATEGORY), MSG_SUB_CATEGORY_REQUIRED);
      newErrors := Put(newErrors, BRAND, !Present(formData, BRAND), MSG_BRAND_REQUIRED);
      newErrors := Put(newErrors, PRICE, !Present(formData, PRICE), MSG_PRICE_REQUIRED);
      newErrors := Put(newErrors, STOCK, !Present(formData, STOCK), MSG_STOCK_REQUIRED);
      newErrors := Put(newErrors, SKU, !Present(formData, SKU), MSG_SKU_REQUIRED);
      newErrors := Put(newErrors, IMAGES, |images| == 0, MSG_IMAGES_REQUIRED);
      ErrorsInOrderAreFieldErrors(formData, |images|);
    }

    /** `handleSubmit`: any error blocks the submission and only replaces the shown
        errors; a clean form starts the simulated upload. */
    method HandleSubmit() returns (submitted: bool)
      modifies this`errors, this`loading, this`pendingNavigation
      ensures submitted <==> forall f :: FieldError(formData, |images|, f).None?
      ensures !submitted ==> IsErrorsOf(errors, formData, |images|)
                             && loading == old(loading) && pendingNavigation == old(pendingNavigation)
      ensures submitted ==> errors == old(errors) && loading && pendingNavigation == Some(PRODUCT_LIST)
    {
      var newErrors := Validate();
      EmptyErrors(newErrors);
      if |newErrors| > 0 {
        var k :| k in newErrors;
        errors := newErrors;
        assert AgreesAt(newErrors, formData, |images|, k);
        assert FieldError(formData, |images|, k).Some?;
        return false;
      }
      forall f
        ensures FieldError(formData, |images|, f).None?
      {
        assert AgreesAt(newErrors, formData, |images|, f);
      }
      loading := true;
      pendingNavigation := Some(PRODUCT_LIST);
      return true;
    }

    method ProgressTick()
      modifies this`progress
      ensures progress == ProgressStep(old(progress))
    {
      progress := ProgressStep(progress);
    }

    /** The 2.5-second timeout of a submission. */
    method FinishUpload()
      modifies this`loading, this`progress, this`pendingNavigation, this`navigations
      ensures old(pendingNavigation).Some? ==>
                !loading && progress == 0 && pendingNavigation == None
                && navigations == old(navigations) + [old(pendingNavigation).value]
      ensures old(pendingNavigation).None? ==>
                loading == old(loading) && progress == old(progress) && navigations == old(navigations)
                && pendingNavigation == None
    {
      if pendingNavigation.Some? {
        loading := false;
        progress := 0;
        navigations := navigations + [pendingNavigation.value];
        pendingNavigation := None;
      }
    }

    /** The Cancel button. */
    method Cancel()
      modifies this`navigations
      ensures navigations == old(navigations) + [PRODUCT_LIST]
    {
      navigations := navigations + [PRODUCT_LIST];
    }
  }
}
