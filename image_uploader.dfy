/** The photo field of components/image-uploader.tsx: the type and size guard
    on a chosen file, the upload that starts straight after it, what a failed
    upload resets, and the remove handler. The file's bytes, the data-URL
    preview reader and the progress bar are not modelled; the upload's
    settlement arrives as a value. */
module ImageUploader {
  import opened Shared
  import opened Text

  /** The largest accepted file, in bytes: five mebibytes. */
  const MaxBytes: nat := 5 * 1024 * 1024

  /** What the uploader reads of a chosen file. */
  datatype SelectedFile = SelectedFile(mimeType: string, size: nat)

  /** The guard on a chosen file: None when it may be uploaded, else the
      message it shows. */
  function FileError(f: SelectedFile): (msg: Option<string>)
    ensures msg.None? <==> StartsWith(f.mimeType, "image/") && f.size <= MaxBytes
    ensures !StartsWith(f.mimeType, "image/") ==> msg == Some("Please select an image file")
    ensures StartsWith(f.mimeType, "image/") && f.size > MaxBytes ==> msg == Some("File size should be less than 5MB")
  {
    if !StartsWith(f.mimeType, "image/") then Some("Please select an image file")
    else if f.size > MaxBytes then Some("File size should be less than 5MB")
    else None
  }

  /** The size bound is inclusive: a file of exactly five mebibytes passes,
      one byte more does not. */
  lemma SizeBoundIsInclusive(mimeType: string)
    requires StartsWith(mimeType, "image/")
    ensures FileError(SelectedFile(mimeType, 5242880)).None?
    ensures FileError(SelectedFile(mimeType, 5242881)) == Some("File size should be less than 5MB")
  {
  }

  /** The response body as `JSON.parse` sees it: unparsable, or parsed with
      the `url` field it may lack. */
  datatype ResponseBody = Unparsable | Parsed(url: Option<string>)

  /** How the upload request ended: the network failed, or a response came
      with its status, its status text and its body. */
  datatype XhrEnd = NetworkError | Response(status: int, statusText: string, body: ResponseBody)

  /** How `uploadFile`'s `try` ends: with the `url` of the parsed body
      (None when the body has no such field, which reaches the parent as
      undefined), or with the message of the error it throws. */
  datatype Settlement = Uploaded(url: Option<string>) | Failed(message: string)

  /** The `try` block of `uploadFile`: a missing token fails first; a 2xx
      response whose body parses resolves with the body's URL, whatever
      the body holds; a 2xx whose body does not parse, a network error and
      any other status fail with their messages. */
  function Settle(token: Option<string>, end: XhrEnd): (s: Settlement)
    ensures !Truthy(token) ==> s == Failed("Authentication required. Please sign in again.")
    ensures s.Uploaded? <==> (Truthy(token) && end.Response? && 200 <= end.status < 300 && end.body.Parsed?)
    ensures s.Uploaded? ==> s.url == end.body.url
    ensures Truthy(token) && end.NetworkError? ==> s == Failed("Network error")
    ensures Truthy(token) && end.Response? && 200 <= end.status < 300 && end.body.Unparsable?
            ==> s == Failed("Invalid server response")
    ensures Truthy(token) && end.Response? && !(200 <= end.status < 300)
            ==> s == Failed(OrElse(Some(end.statusText), "Upload failed"))
  {
    if !Truthy(token) then Failed("Authentication required. Please sign in again.")
    else match end
      case NetworkError => Failed("Network error")
      case Response(status, statusText, body) =>
        if 200 <= status < 300 then
          match body
          case Unparsable => Failed("Invalid server response")
          case Parsed(url) => Uploaded(url)
        else Failed(if statusText != "" then statusText else "Upload failed")
  }

  /** Every error `uploadFile` can throw carries a message, so the catch
      block shows that message and its "Upload failed. Please try again."
      default never shows. */
  lemma FailureAlwaysHasMessage(token: Option<string>, end: XhrEnd)
    ensures var s := Settle(token, end);
      s.Failed? ==> s.message != ""
                    && OrElse(Some(s.message), "Upload failed. Please try again.") == s.message
  {
  }

  /** What the drop zone shows: the spinner, the preview, or the empty
      prompt. */
  datatype View = Uploading | Preview(src: string) | Prompt

  /** Every field of the component's state. `inputCleared` says the file
      input's value was reset to "". */
  datatype UploaderState = UploaderState(file: Option<SelectedFile>, preview: Option<string>,
                                         loading: bool, error: Option<string>, inputCleared: bool)

  class Uploader {
    var file: Option<SelectedFile>
    var preview: Option<string>
    var loading: bool
    var error: Option<string>
    var inputCleared: bool
    const initialImageUrl: string
    const disabled: bool

    function State(): UploaderState
      reads this
    {
      UploaderState(file, preview, loading, error, inputCleared)
    }

    /** The spinner while uploading, else the preview when there is one. */
    function Shown(): (v: View)
      reads this
      ensures loading ==> v == Uploading
      ensures !loading && Truthy(preview) ==> v == Preview(preview.value)
      ensures !loading && !Truthy(preview) ==> v == Prompt
    {
      if loading then Uploading
      else if preview.Some? && preview.value != "" then Preview(preview.value)
      else Prompt
    }

    /** The initial state; the two props default to "" and false. */
    constructor (initialImageUrl: Option<string>, disabled: Option<bool>)
      ensures this.initialImageUrl == OrElse(initialImageUrl, "")
      ensures this.disabled == (disabled == Some(true))
      ensures State() == UploaderState(None, None, false, None, false)
    {
      this.initialImageUrl := OrElse(initialImageUrl, "");
      this.disabled := disabled == Some(true);
      file := None;
      preview := None;
      loading := false;
      error := None;
      inputCleared := false;
    }

    /** The initial-image effect: a non-empty initial image becomes the
        preview and is reported to the parent as the uploaded URL. */
    method ShowInitialImage() returns (reported: Option<string>)
      modifies this
      ensures initialImageUrl != "" ==> reported == Some(initialImageUrl)
                                        && State() == old(State()).(preview := Some(initialImageUrl))
      ensures initialImageUrl == "" ==> reported.None? && State() == old(State())
    {
      if initialImageUrl != "" {
        preview := Some(initialImageUrl);
        return Some(initialImageUrl);
      }
      return None;
    }

    /** `handleFileChange` with the synchronous start of `uploadFile`: nothing
        happens when disabled or when no file was chosen; a rejected file
        only sets its message; an accepted one clears the error, is
        recorded, and goes out for upload with loading on. */
    method FileChanged(chosen: Option<SelectedFile>) returns (upload: Option<SelectedFile>)
      modifies this
      ensures disabled || chosen.None? ==> upload.None? && State() == old(State())
      ensures !disabled && chosen.Some? && FileError(chosen.value).Some? ==>
                upload.None? && State() == old(State()).(error := FileError(chosen.value))
      ensures upload.Some? <==> !disabled && chosen.Some? && FileError(chosen.value).None?
      ensures upload.Some? ==> upload == chosen
                               && State() == old(State()).(file := chosen, error := None, loading := true)
      ensures upload.Some? ==> Shown() == Uploading
    {
      if disabled || chosen.None? {
        return None;
      }
      var selected := chosen.value;
      if !StartsWith(selected.mimeType, "image/") {
        error := Some("Please select an image file");
        return None;
      }
      if selected.size > 5 * 1024 * 1024 {
        error := Some("File size should be less than 5MB");
        return None;
      }
      error := None;
      file := Some(selected);
      loading := true;
      return Some(selected);
    }

    /** The preview reader's `onloadend`: the data URL becomes the preview. */
    method PreviewRead(dataUrl: string)
      modifies this
      ensures State() == old(State()).(preview := Some(dataUrl))
    {
      preview := Some(dataUrl);
    }

    /** The end of `uploadFile`: success hands the body's URL to the
        parent's `onUploaded`; a failure shows its message (or the default),
        drops the preview and the file and clears the input, so the prompt
        shows again. Loading stops either way. `reported` is None when
        `onUploaded` is not called, else the argument it gets. */
    method UploadSettled(s: Settlement) returns (reported: Option<Option<string>>)
      modifies this
      ensures s.Uploaded? ==> reported == Some(s.url) && State() == old(State()).(loading := false)
      ensures s.Failed? ==> reported.None? && State() == old(State()).(loading := false,
                error := Some(OrElse(Some(s.message), "Upload failed. Please try again.")),
                preview := None, file := None, inputCleared := true)
      ensures s.Failed? ==> Shown() == Prompt
    {
      match s {
        case Uploaded(url) =>
          reported := Some(url);
        case Failed(message) =>
          error := Some(if message != "" then message else "Upload failed. Please try again.");
          preview := None;
          file := None;
          inputCleared := true;
          reported := None;
      }
      loading := false;
    }

    /** `handleRemove`: the file goes, the preview falls back to the initial
        image, the error clears, and "" is reported only when there is no
        initial image to fall back to. The component defines this handler
        but binds it to no element, so no user action reaches it. */
    method Remove() returns (reported: Option<string>)
      modifies this
      ensures State() == old(State()).(file := None, error := None, inputCleared := true,
                preview := if initialImageUrl != "" then Some(initialImageUrl) else None)
      ensures reported == if initialImageUrl == "" then Some("") else None
      ensures initialImageUrl != "" ==> Shown() == if loading then Uploading else Preview(initialImageUrl)
    {
      file := None;
      preview := if initialImageUrl != "" then Some(initialImageUrl) else None;
      error := None;
      inputCleared := true;
      if initialImageUrl == "" {
        return Some("");
      }
      return None;
    }
  }
}
