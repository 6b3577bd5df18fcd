/** `ImageUploader`: the file input's guard on the number of images, and the remove
    buttons of the preview grid. */
module ImageUploader {
  import opened Text

  const DEFAULT_MAX_IMAGES: nat := 5

  /** What a file selection leads to: an alert, or `onUpload` with the selected files. */
  datatype Selection<F> = Alerted(message: string) | Uploaded(files: seq<F>)

  /** `maxImages = 5`. */
  function MaxImages(maxImages: Option<nat>): (n: nat)
    ensures maxImages.None? ==> n == DEFAULT_MAX_IMAGES
    ensures maxImages.Some? ==> n == maxImages.value
  {
    if maxImages.Some? then maxImages.value else DEFAULT_MAX_IMAGES
  }

  function TooManyMessage(max: nat): string
  {
    "You can only upload maximum " + NatToString(max) + " images"
  }

  /** `handleFileChange`: the whole selection is refused when it would take the images past
      the limit; otherwise every selected file goes to `onUpload`, in order. */
  function HandleFileChange<F>(files: seq<F>, imageCount: nat, maxImages: Option<nat>): (s: Selection<F>)
    ensures s.Alerted? <==> |files| + imageCount > MaxImages(maxImages)
    ensures s.Alerted? ==> s.message == TooManyMessage(MaxImages(maxImages))
    ensures s.Uploaded? ==> s.files == files
  {
    var max := MaxImages(maxImages);
    if |files| + imageCount > max then Alerted(TooManyMessage(max)) else Uploaded(files)
  }

  /** The comparison is strict: filling the last free slot is allowed, one more is not. */
  lemma ExactlyFullIsAllowed<F>(files: seq<F>, imageCount: nat, maxImages: Option<nat>, extra: F)
    requires |files| + imageCount == MaxImages(maxImages)
    ensures HandleFileChange(files, imageCount, maxImages).Uploaded?
    ensures HandleFileChange(files + [extra], imageCount, maxImages).Alerted?
  {
  }

  /** With one slot (the category and banner pages) a file reaches the page only while no
      image is shown, and then only alone. */
  lemma SingleSlot<F>(files: seq<F>, imageCount: nat)
    requires |files| > 0
    ensures HandleFileChange(files, imageCount, Some(1)).Uploaded? <==> imageCount == 0 && |files| == 1
  {
  }

  /** The index each preview's remove button passes to `onRemove`. */
  function RemoveButtons<I>(images: seq<I>): (indices: seq<nat>)
    ensures |indices| == |images|
    ensures forall i :: 0 <= i < |images| ==> indices[i] == i
  {
    seq(|images|, i => i)
  }
}
