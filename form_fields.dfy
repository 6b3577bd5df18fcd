/** What the catalogue add pages share: a form object whose entries are text or checkbox
    values, the generic `handleChange` update, the per-field error clearing, the image
    entry a file upload produces, and the simulated upload progress. */
module FormFields {
  import opened Text

  datatype FieldValue = TextValue(text: string) | FlagValue(flag: bool)

  /** `e.target` of a change event. */
  datatype InputEvent = InputEvent(name: string, value: string, isCheckbox: bool, checked: bool)

  /** A selected file and the data URL the file reader makes of it. */
  datatype File = File(name: string, dataUrl: string)

  /** `{ file, preview: reader.result, name: file.name }`. */
  datatype Image = Image(file: File, preview: string, name: string)

  /** JavaScript truthiness of a form entry: the empty string, `false` and a missing key
      are falsy. */
  predicate Present(form: map<string, FieldValue>, key: string)
  {
    key in form && match form[key] {
      case TextValue(s) => s != ""
      case FlagValue(b) => b
    }
  }

  /** `String(formData[key])`, as a regular expression test or a template literal sees it. */
  function TextOf(form: map<string, FieldValue>, key: string): (s: string)
    ensures key in form && form[key].TextValue? ==> s == form[key].text
  {
    if key !in form then "undefined"
    else match form[key] {
      case TextValue(s) => s
      case FlagValue(b) => if b then "true" else "false"
    }
  }

  /** `formData[key].length > bound`: a checkbox value has no length, and `undefined` is
      never greater than a number. */
  predicate LongerThan(form: map<string, FieldValue>, key: string, bound: nat)
  {
    key in form && form[key].TextValue? && |form[key].text| > bound
  }

  /** `type === 'checkbox' ? checked : value`. */
  function NewValue(e: InputEvent): (v: FieldValue)
    ensures e.isCheckbox ==> v == FlagValue(e.checked)
    ensures !e.isCheckbox ==> v == TextValue(e.value)
  {
    if e.isCheckbox then FlagValue(e.checked) else TextValue(e.value)
  }

  /** `{ ...prev, [name]: newValue }`: the named entry changes and no other. */
  function SetField(form: map<string, FieldValue>, e: InputEvent): (r: map<string, FieldValue>)
    ensures e.name in r && r[e.name] == NewValue(e)
    ensures forall k :: k != e.name ==> (k in r <==> k in form) && (k in form ==> r[k] == form[k])
  {
    form[e.name := NewValue(e)]
  }

  /** `if (errors[name]) setErrors(prev => ({ ...prev, [name]: '' }))`: a shown error of
      that field is blanked, and every other entry is kept. */
  function ClearError(errors: map<string, string>, name: string): (r: map<string, string>)
    ensures r.Keys == errors.Keys
    ensures forall k :: k in errors && k != name ==> r[k] == errors[k]
    ensures name in r ==> r[name] == ""
  {
    if name in errors && errors[name] != "" then errors[name := ""] else errors
  }

  /** One `if (failed) newErrors[field] = message` of a `validate`. */
  function Put(m: map<string, string>, field: string, failed: bool, message: string): map<string, string>
  {
    if failed then m[field := message] else m
  }

  /** A map with no keys has no entries: `Object.keys(newErrors).length > 0` holds exactly
      when some field has an error. */
  lemma EmptyErrors(m: map<string, string>)
    ensures |m| == 0 <==> forall k :: k !in m
  {
    if |m| != 0 {
      var k :| k in m.Keys;
    } else {
      assert m == map[];
    }
  }

  function ImageOf(f: File): (img: Image)
    ensures img.file == f && img.name == f.name && img.preview == f.dataUrl
  {
    Image(f, f.dataUrl, f.name)
  }

  const PROGRESS_STEP: nat := 10
  const PROGRESS_MAX: nat := 100

  /** One interval callback of the simulated upload. */
  function ProgressStep(p: nat): (q: nat)
    ensures p >= PROGRESS_MAX ==> q == PROGRESS_MAX
    ensures p < PROGRESS_MAX ==> q == p + PROGRESS_STEP
  {
    if p >= PROGRESS_MAX then PROGRESS_MAX else p + PROGRESS_STEP
  }

  /** The progress after `n` callbacks from 0. */
  function ProgressAfter(n: nat): nat
    decreases n
  {
    if n == 0 then 0 else ProgressStep(ProgressAfter(n - 1))
  }

  /** From 0 the progress moves in steps of 10 and stops at 100. */
  lemma {:induction false} ProgressFromZero(n: nat)
    ensures ProgressAfter(n) == if n * PROGRESS_STEP <= PROGRESS_MAX then n * PROGRESS_STEP else PROGRESS_MAX
    ensures ProgressAfter(n) <= PROGRESS_MAX
    ensures ProgressAfter(n) % PROGRESS_STEP == 0
    decreases n
  {
    if n > 0 {
      ProgressFromZero(n - 1);
    }
  }
}
