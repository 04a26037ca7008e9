/** The audio upload form (app/components/dashboard/UploadFiles.tsx): a file
    picked by browsing or by drag and drop, an upload to the storage
    service, and the success or error panel that follows. The upload
    service is a parameter. */
module UploadFiles {
  import opened Results

  /** The parts of a browser `File` the form looks at. */
  datatype FileInfo = FileInfo(name: string, mimeType: string, size: nat)

  /** What the storage service answers on success. */
  datatype SuccessResponse = SuccessResponse(filename: string, url: string, message: string)

  /** `file.type.startsWith('audio/')`. */
  predicate IsAudio(f: FileInfo)
  {
    "audio/" <= f.mimeType
  }

  const SelectError: string := "Please select a valid audio file."
  const DropError: string := "Please drop a valid audio file."
  const UploadFailed: string := "Upload failed"
  const NetworkErrorPrefix: string := "Network error: "
  const UnknownError: string := "Unknown error occurred"

  /** The error an upload outcome leaves behind: none on success; the
      response's `detail`, or "Upload failed" when it is missing or empty,
      on an error status; "Network error: " and the exception's message (or
      "Unknown error occurred" for a thrown non-Error) on an exception. */
  function UploadError(outcome: Outcome<SuccessResponse>): (e: Option<string>)
    ensures e.None? <==> outcome.Ok?
    ensures outcome.NotOk? ==> e.value == if TruthyText(outcome.detail) then outcome.detail.value else UploadFailed
    ensures outcome.Threw? ==> NetworkErrorPrefix <= e.value
    ensures outcome.Threw? ==> e.value[|NetworkErrorPrefix|..] == if outcome.message.Some? then outcome.message.value else UnknownError
    ensures e.Some? ==> e.value != ""
  {
    match outcome
    case Ok(_) => None
    case NotOk(detail) => Some(if TruthyText(detail) then detail.value else UploadFailed)
    case Threw(message) =>
      var text := if message.Some? then message.value else UnknownError;
      assert (NetworkErrorPrefix + text)[|NetworkErrorPrefix|..] == text;
      Some(NetworkErrorPrefix + text)
  }

  class AudioUpload {
    var file: Option<FileInfo>
    var uploading: bool
    var response: Option<SuccessResponse>
    var error: Option<string>

    /** A success panel is only ever shown together with its file and
        without an error. */
    ghost predicate Valid()
      reads this
    {
      response.Some? ==> file.Some? && error.None?
    }

    constructor ()
      ensures Valid()
      ensures file.None? && !uploading && response.None? && error.None?
    {
      file := None;
      uploading := false;
      response := None;
      error := None;
    }

    /** `handleFileChange`: no file picked changes nothing; an audio file
        becomes the file and clears the error and the response; any other
        file is refused with an error and clears the file. The file input
        is only on screen while there is no file. */
    method HandleFileChange(selected: Option<FileInfo>)
      modifies this`file, this`error, this`response
      ensures selected.None? ==> file == old(file) && error == old(error) && response == old(response)
      ensures selected.Some? && IsAudio(selected.value) ==> file == selected && error.None? && response.None?
      ensures (selected.Some? && !IsAudio(selected.value))
              ==> file.None? && error == Some(SelectError) && response == old(response)
      ensures old(Valid()) && old(file).None? ==> Valid()
    {
      if selected.Some? {
        if IsAudio(selected.value) {
          file := selected;
          error := None;
          response := None;
        } else {
          error := Some(SelectError);
          file := None;
        }
      }
    }

    /** `handleDrop`: a dropped audio file becomes the file and clears the
        error and the response; a missing or non-audio drop only sets an
        error and keeps the current file (unlike browsing). The drop zone
        is only on screen while there is no file. */
    method HandleDrop(dropped: Option<FileInfo>)
      modifies this`file, this`error, this`response
      ensures dropped.Some? && IsAudio(dropped.value) ==> file == dropped && error.None? && response.None?
      ensures (dropped.None? || !IsAudio(dropped.value))
              ==> file == old(file) && error == Some(DropError) && response == old(response)
      ensures old(Valid()) && old(file).None? ==> Valid()
    {
      if dropped.Some? && IsAudio(dropped.value) {
        file := dropped;
        error := None;
        response := None;
      } else {
        error := Some(DropError);
      }
    }

    /** First half of `uploadFile`: without a file nothing happens;
        otherwise uploading starts with the error and the response cleared,
        and the file is sent. */
    method BeginUpload() returns (sent: Option<FileInfo>)
      modifies this`uploading, this`error, this`response
      ensures sent == file
      ensures sent.None? ==> uploading == old(uploading) && error == old(error) && response == old(response)
      ensures sent.Some? ==> uploading && error.None? && response.None?
      ensures old(Valid()) ==> Valid()
    {
      if file.None? {
        return None;
      }
      uploading := true;
      error := None;
      response := None;
      sent := file;
    }

    /** Second half of `uploadFile`: success shows the response, any other
        outcome shows its error; uploading stops on every path. */
    method CompleteUpload(outcome: Outcome<SuccessResponse>)
      modifies this`uploading, this`error, this`response
      ensures !uploading
      ensures outcome.Ok? ==> response == Some(outcome.data) && error == old(error)
      ensures !outcome.Ok? ==> response == old(response) && error == UploadError(outcome)
    {
      if outcome.Ok? {
        response := Some(outcome.data);
      } else {
        error := UploadError(outcome);
      }
      uploading := false;
    }

    /** `uploadFile`, with the storage service as a parameter. */
    method UploadFile(service: FileInfo -> Outcome<SuccessResponse>)
      modifies this`uploading, this`error, this`response
      ensures file == old(file)
      ensures file.None? ==> uploading == old(uploading) && error == old(error) && response == old(response)
      ensures file.Some? ==> !uploading
      ensures file.Some? ==> var outcome := service(file.value);
                             response == (if outcome.Ok? then Some(outcome.data) else None)
                             && error == UploadError(outcome)
      ensures old(Valid()) ==> Valid()
    {
      var sent := BeginUpload();
      if sent.Some? {
        CompleteUpload(service(sent.value));
      }
    }

    /** `resetUpload`: file, response and error cleared; an upload in
        flight is not stopped. */
    method ResetUpload()
      modifies this`file, this`response, this`error
      ensures file.None? && response.None? && error.None?
      ensures Valid()
    {
      file := None;
      response := None;
      error := None;
    }

    /** "Try Again" on the error panel: the error is dismissed. */
    method DismissError()
      modifies this`error
      ensures error.None?
      ensures old(Valid()) ==> Valid()
    {
      error := None;
    }
  }
}
