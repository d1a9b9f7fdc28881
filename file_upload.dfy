/** The upload state of lib/hooks/useFileUpload.ts: file validation and
    the state changes of selecting, dropping and removing a file.  The
    parsing request itself is not modelled: its answer is a parameter, and
    the files sent to it are recorded in `parseRequests`. */
module FileUpload {
  import opened Wrappers
  import opened Text
  import opened CvTypes

  /** 10 MB. */
  const MaxFileSize: nat := 10 * 1024 * 1024

  const PdfType := "application/pdf"

  const AllowedTypes: seq<String> := [
    PdfType,
    "text/plain",
    "application/msword",
    "application/vnd.openxmlformats-officedocument.wordprocessingml.document"
  ]

  const SizeMessage := "Le fichier ne doit pas dépasser 10MB"
  const TypeMessage := "Seuls les fichiers PDF, TXT et DOC sont acceptés"

  datatype File = File(name: String, size: nat, mimeType: String)

  /** The answer of the parsing request. */
  datatype ParseResponse = ParseResponse(success: bool, parsedData: Option<CVFormData>, error: Option<String>)

  /** `validateFile`: the size is checked first, then the type. */
  function ValidateFile(file: File): (r: Option<String>)
    ensures file.size > MaxFileSize ==> r == Some(SizeMessage)
    ensures file.size <= MaxFileSize && file.mimeType !in AllowedTypes ==> r == Some(TypeMessage)
    ensures r.None? <==> file.size <= MaxFileSize && file.mimeType in AllowedTypes
  {
    if file.size > MaxFileSize then Some(SizeMessage)
    else if file.mimeType !in AllowedTypes then Some(TypeMessage)
    else None
  }

  /** An oversized file gets the size message whatever its type; a PDF of
      10 MB exactly is accepted. */
  lemma SizeFirst(name: String, mimeType: String)
    ensures ValidateFile(File(name, MaxFileSize + 1, mimeType)) == Some(SizeMessage)
    ensures ValidateFile(File(name, MaxFileSize, PdfType)).None?
  {
    assert AllowedTypes[0] == PdfType;
  }

  class Uploader {
    var uploadedFile: Option<File>
    var isDragOver: bool
    var errorFile: String
    var parsedData: Option<CVFormData>
    var showToastFile: bool
    /** The files sent to the parsing service, in order. */
    var parseRequests: seq<File>

    /** The file on display has always passed validation, and so has
        every file sent to be parsed, which is a PDF. */
    predicate Valid()
      reads this
    {
      (uploadedFile.Some? ==> ValidateFile(uploadedFile.value).None?) &&
      (forall k :: 0 <= k < |parseRequests| ==>
        ValidateFile(parseRequests[k]).None? && parseRequests[k].mimeType == PdfType)
    }

    constructor ()
      ensures Valid()
      ensures uploadedFile.None? && !isDragOver && errorFile == "" && parsedData.None? && !showToastFile
      ensures parseRequests == []
    {
      uploadedFile := None;
      isDragOver := false;
      errorFile := "";
      parsedData := None;
      showToastFile := false;
      parseRequests := [];
    }

    /** What selecting `file` does to every field but `isDragOver`, the
        parsing service answering `response`. */
    twostate predicate Selected(file: File, response: ParseResponse)
      reads this
    {
      (ValidateFile(file).Some? ==>
        errorFile == ValidateFile(file).value && uploadedFile == old(uploadedFile) &&
        parsedData == old(parsedData) && showToastFile == old(showToastFile) &&
        parseRequests == old(parseRequests)) &&
      (ValidateFile(file).None? ==> uploadedFile == Some(file)) &&
      (ValidateFile(file).None? && file.mimeType != PdfType ==>
        errorFile == old(errorFile) && parsedData == old(parsedData) &&
        showToastFile == old(showToastFile) && parseRequests == old(parseRequests)) &&
      (ValidateFile(file).None? && file.mimeType == PdfType ==>
        parseRequests == old(parseRequests) + [file] &&
        errorFile == (if Truthy(response.error) then response.error.value else old(errorFile)) &&
        showToastFile == (Truthy(response.error) || old(showToastFile)) &&
        parsedData == (if response.success && response.parsedData.Some? then response.parsedData else old(parsedData)))
    }

    /** `handleFileSelect`: a rejected file only sets the error; an accepted
        one is shown, and only a PDF is sent to be parsed, whose answer may
        set an error (with the toast) and the parsed data. */
    method HandleFileSelect(file: File, response: ParseResponse)
      requires Valid()
      modifies this
      ensures Valid()
      ensures isDragOver == old(isDragOver)
      ensures Selected(file, response)
    {
      var error := ValidateFile(file);
      if error.Some? {
        errorFile := error.value;
        return;
      }
      uploadedFile := Some(file);
      if file.mimeType == PdfType {
        parseRequests := parseRequests + [file];
        if Truthy(response.error) {
          showToastFile := true;
          errorFile := response.error.value;
        }
        if response.success && response.parsedData.Some? {
          parsedData := response.parsedData;
        }
      }
    }

    /** `handleDrop`: the drag highlight is cleared and only the first
        dropped file, if any, is selected. */
    method HandleDrop(files: seq<File>, response: ParseResponse)
      requires Valid()
      modifies this
      ensures Valid()
      ensures !isDragOver
      ensures files == [] ==>
        uploadedFile == old(uploadedFile) && errorFile == old(errorFile) &&
        parsedData == old(parsedData) && showToastFile == old(showToastFile) &&
        parseRequests == old(parseRequests)
      ensures files != [] ==> Selected(files[0], response)
    {
      isDragOver := false;
      if |files| > 0 {
        HandleFileSelect(files[0], response);
      }
    }

    /** `removeFile`: no file and no error; the parsed data stays. */
    method RemoveFile()
      requires Valid()
      modifies this
      ensures Valid()
      ensures uploadedFile.None? && errorFile == ""
      ensures parsedData == old(parsedData) && isDragOver == old(isDragOver)
      ensures showToastFile == old(showToastFile) && parseRequests == old(parseRequests)
    {
      uploadedFile := None;
      errorFile := "";
    }
  }
}
