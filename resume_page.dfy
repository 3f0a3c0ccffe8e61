/** The résumé page: loading the current résumé, the PDF-only upload reached by the file
    picker or by drag and drop, and the transient messages around it. */
module ResumeUpload {
  import opened Envelopes
  import opened Domain

  /** The parts of a browser `File` the page looks at, plus its size, which it does not. */
  datatype FileInfo = FileInfo(name: string, mimeType: string, size: nat)

  const PdfType: string := "application/pdf"

  /** `file.type !== "application/pdf"` is the only admission test. */
  function AcceptsFile(file: FileInfo): (ok: bool)
    ensures ok <==> file.mimeType == PdfType
  {
    file.mimeType == PdfType
  }

  /** The 10MB limit is only printed on the upload zone: a PDF of any size is accepted, and
      a file with a ".pdf" name but another type is not. */
  lemma SizeAndNameNotChecked(file: FileInfo, size: nat, name: string)
    ensures AcceptsFile(file.(size := size, name := name)) == AcceptsFile(file)
    ensures AcceptsFile(FileInfo("cv.pdf", "application/octet-stream", 0)) == false
  {
  }

  class ResumePage {
    var resume: Option<Resume>
    var isLoading: bool
    var isUploading: bool
    var error: string
    var successMessage: string
    var showPreview: bool
    var isDragging: bool
    /** Whether the hidden file input still holds the last picked file. */
    var inputHoldsFile: bool

    constructor()
      ensures resume == None && isLoading && !isUploading && error == "" && successMessage == ""
      ensures !showPreview && !isDragging && !inputHoldsFile
    {
      resume := None;
      isLoading := true;
      isUploading := false;
      error := "";
      successMessage := "";
      showPreview := false;
      isDragging := false;
      inputHoldsFile := false;
    }

    /** `fetchResume` up to its await. */
    method BeginFetch()
      modifies this
      ensures isLoading && error == ""
      ensures resume == old(resume) && isUploading == old(isUploading) && successMessage == old(successMessage)
      ensures showPreview == old(showPreview) && isDragging == old(isDragging) && inputHoldsFile == old(inputHoldsFile)
    {
      isLoading := true;
      error := "";
    }

    /** `fetchResume` after `getResume` settles: the résumé is set only by a success with
        data, and a failure envelope is silent. */
    method FinishFetch(res: Outcome<Resume>)
      modifies this
      ensures resume == if Succeeded(res) then Some(res.envelope.data.value) else old(resume)
      ensures error == if res.Threw? then "Failed to load resume" else old(error)
      ensures !isLoading
      ensures isUploading == old(isUploading) && successMessage == old(successMessage)
      ensures showPreview == old(showPreview) && isDragging == old(isDragging) && inputHoldsFile == old(inputHoldsFile)
    {
      if res.Threw? {
        error := "Failed to load resume";
      } else if HasData(res.envelope) {
        resume := Some(res.envelope.data.value);
      }
      isLoading := false;
    }

    /** `handleFileUpload` up to its await. A non-PDF sets its message and stops there (the
        file input is not cleared); a PDF starts the upload (`started`). */
    method BeginUpload(file: FileInfo) returns (started: bool)
      modifies this
      ensures started <==> AcceptsFile(file)
      ensures !started ==>
        (error == "Please upload a PDF file" && isUploading == old(isUploading) &&
         successMessage == old(successMessage))
      ensures started ==> isUploading && error == "" && successMessage == ""
      ensures resume == old(resume) && isLoading == old(isLoading)
      ensures showPreview == old(showPreview) && isDragging == old(isDragging) && inputHoldsFile == old(inputHoldsFile)
    {
      if !AcceptsFile(file) {
        error := "Please upload a PDF file";
        started := false;
      } else {
        isUploading := true;
        error := "";
        successMessage := "";
        started := true;
      }
    }

    /** `handleFileUpload` after `uploadResume` settles; `uploadResume` catches nothing, so
        a rejected request arrives as a throw. */
    method FinishUpload(res: Outcome<Resume>)
      modifies this
      ensures Succeeded(res) ==>
        (resume == Some(res.envelope.data.value) &&
         successMessage == "Resume uploaded successfully!" && error == old(error))
      ensures res.Returned? && !HasData(res.envelope) ==>
        (resume == old(resume) && successMessage == old(successMessage) &&
         error == MessageOr(res.envelope, "Failed to upload resume"))
      ensures res.Threw? ==>
        (resume == old(resume) && successMessage == old(successMessage) &&
         error == "Failed to upload resume")
      ensures !isUploading && !inputHoldsFile
      ensures isLoading == old(isLoading) && showPreview == old(showPreview) && isDragging == old(isDragging)
    {
      if res.Threw? {
        error := "Failed to upload resume";
      } else if HasData(res.envelope) {
        resume := Some(res.envelope.data.value);
        successMessage := "Resume uploaded successfully!";
      } else {
        error := MessageOr(res.envelope, "Failed to upload resume");
      }
      isUploading := false;
      inputHoldsFile := false;
    }

    /** `handleFileSelect`: the picked file (if any) lands in the input and is uploaded. */
    method SelectFile(file: Option<FileInfo>) returns (started: bool)
      modifies this
      ensures inputHoldsFile == file.Some?
      ensures started <==> file.Some? && AcceptsFile(file.value)
      ensures file.None? ==>
        (error == old(error) && isUploading == old(isUploading) && successMessage == old(successMessage))
      ensures file.Some? && !started ==> error == "Please upload a PDF file"
      ensures started ==> isUploading && error == "" && successMessage == ""
      ensures resume == old(resume) && isLoading == old(isLoading)
      ensures showPreview == old(showPreview) && isDragging == old(isDragging)
    {
      inputHoldsFile := file.Some?;
      started := false;
      if file.Some? {
        started := BeginUpload(file.value);
      }
    }

    /** `handleDragOver`. */
    method DragOver()
      modifies this
      ensures isDragging
      ensures resume == old(resume) && isLoading == old(isLoading) && isUploading == old(isUploading)
      ensures error == old(error) && successMessage == old(successMessage)
      ensures showPreview == old(showPreview) && inputHoldsFile == old(inputHoldsFile)
    {
      isDragging := true;
    }

    /** `handleDragLeave`. */
    method DragLeave()
      modifies this
      ensures !isDragging
      ensures resume == old(resume) && isLoading == old(isLoading) && isUploading == old(isUploading)
      ensures error == old(error) && successMessage == old(successMessage)
      ensures showPreview == old(showPreview) && inputHoldsFile == old(inputHoldsFile)
    {
      isDragging := false;
    }

    /** `handleDrop`: dragging ends, and the first dropped file (if any) is uploaded. */
    method Drop(file: Option<FileInfo>) returns (started: bool)
      modifies this
      ensures !isDragging
      ensures started <==> file.Some? && AcceptsFile(file.value)
      ensures file.None? ==>
        (error == old(error) && isUploading == old(isUploading) && successMessage == old(successMessage))
      ensures file.Some? && !started ==> error == "Please upload a PDF file"
      ensures started ==> isUploading && error == "" && successMessage == ""
      ensures resume == old(resume) && isLoading == old(isLoading)
      ensures showPreview == old(showPreview) && inputHoldsFile == old(inputHoldsFile)
    {
      isDragging := false;
      started := false;
      if file.Some? {
        started := BeginUpload(file.value);
      }
    }

    /** The "Preview"/"Hide" button on the current résumé. */
    method TogglePreview()
      modifies this
      ensures showPreview == !old(showPreview)
      ensures resume == old(resume) && isLoading == old(isLoading) && isUploading == old(isUploading)
      ensures error == old(error) && successMessage == old(successMessage)
      ensures isDragging == old(isDragging) && inputHoldsFile == old(inputHoldsFile)
    {
      showPreview := !showPreview;
    }

    /** The 5 s timer after a success message fires. */
    method ExpireSuccessMessage()
      modifies this
      ensures successMessage == ""
      ensures resume == old(resume) && isLoading == old(isLoading) && isUploading == old(isUploading)
      ensures error == old(error) && showPreview == old(showPreview) && isDragging == old(isDragging)
      ensures inputHoldsFile == old(inputHoldsFile)
    {
      successMessage := "";
    }

    /** The 5 s timer after an error message fires. */
    method ExpireError()
      modifies this
      ensures error == ""
      ensures resume == old(resume) && isLoading == old(isLoading) && isUploading == old(isUploading)
      ensures successMessage == old(successMessage) && showPreview == old(showPreview)
      ensures isDragging == old(isDragging) && inputHoldsFile == old(inputHoldsFile)
    {
      error := "";
    }
  }

  /** One upload from the picker with nothing in between: a rejected file leaves the
      résumé as it was; after an upload that was made, the page is idle and the input
      cleared, and the résumé changed only if the upload succeeded with data. */
  method PickAndUpload(page: ResumePage, file: FileInfo, res: Outcome<Resume>) returns (started: bool)
    modifies page
    ensures started <==> AcceptsFile(file)
    ensures !started ==> page.resume == old(page.resume) && page.error == "Please upload a PDF file"
    ensures started ==> !page.isUploading && !page.inputHoldsFile
    ensures started ==> page.resume == if Succeeded(res) then Some(res.envelope.data.value) else old(page.resume)
  {
    started := page.SelectFile(Some(file));
    if started {
      page.FinishUpload(res);
    }
  }
}
