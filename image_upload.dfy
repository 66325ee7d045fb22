/**
 * The single-image uploader (components/ImageUpload.tsx): a preview, an
 * `uploading` flag, and `onChange` calls recorded as the URLs they were
 * passed. The upload itself is an abstract outcome.
 */
module ImageUpload {
  import opened Wrappers

  const FailurePrefix: string := "Lỗi upload ảnh: "
  const UnknownError: string := "Không xác định"

  datatype UploadResult = Uploaded(url: string) | Failed(message: string)

  /** `value || null`. */
  function PreviewOf(value: string): (p: Option<string>)
    ensures p.None? <==> value == ""
    ensures p.Some? ==> p.value == value
  {
    if value == "" then None else Some(value)
  }

  /** `"Lỗi upload ảnh: " + (error.message || "Không xác định")`. */
  function FailureAlert(message: string): string {
    FailurePrefix + (if message != "" then message else UnknownError)
  }

  class SingleUpload {
    /** The `value` prop: the parent's current image URL, "" for none. */
    var value: string
    var preview: Option<string>
    var uploading: bool
    var changes: seq<string>
    var alerts: seq<string>

    constructor(value: string)
      ensures this.value == value && preview == PreviewOf(value)
      ensures !uploading && changes == [] && alerts == []
    {
      this.value := value;
      preview := PreviewOf(value);
      uploading := false;
      changes := [];
      alerts := [];
    }

    /**
     * `handleFileChange`: `selection` is the object URL made for the chosen
     * file (`None` when nothing was chosen), `result` how its upload ends.
     */
    method HandleFileChange(selection: Option<string>, result: UploadResult)
      modifies this`preview, this`uploading, this`changes, this`alerts
      ensures selection.None? ==>
        preview == old(preview) && uploading == old(uploading)
        && changes == old(changes) && alerts == old(alerts)
      ensures selection.Some? ==> !uploading
      ensures selection.Some? && result.Uploaded? ==>
        changes == old(changes) + [result.url] && preview == Some(result.url) && alerts == old(alerts)
      ensures selection.Some? && result.Failed? ==>
        changes == old(changes) && preview == PreviewOf(value)
        && alerts == old(alerts) + [FailureAlert(result.message)]
    {
      if selection.None? {
        return;
      }
      preview := selection;
      uploading := true;
      match result {
        case Uploaded(url) =>
          changes := changes + [url];
          preview := Some(url);
        case Failed(message) =>
          alerts := alerts + [FailureAlert(message)];
          preview := PreviewOf(value);
      }
      uploading := false;
    }

    /** The remove button, shown while `value` is non-empty. */
    method Remove()
      modifies this`preview, this`changes
      ensures changes == old(changes) + [""] && preview.None?
    {
      changes := changes + [""];
      preview := None;
    }

    /** The parent re-renders with a new `value`; the preview is state and keeps its value. */
    method ReceiveValue(v: string)
      modifies this`value
      ensures value == v
    {
      value := v;
    }
  }
}
