// The create-quote page: it loads the customers once, decides what to show,
// and performs the upload-then-process chain for each file the wizard hands
// it, reporting back through `updateFileInfo` with the file's `tempId`.
module CreatePage {
  import opened Wrappers
  import opened Text
  import opened Schemas
  import opened QuoteWizard

  const LoadError := "Failed to load customers. Please try again later."

  /** What `getAllCustomers` gave. */
  datatype CustomersReply = CustomerArray(items: seq<WizardCustomer>) | NotAnArray | LoadThrew

  /** What the page shows below its header. */
  datatype PageBody = LoadingCustomers | NoCustomers | WizardShown(customers: seq<WizardCustomer>)

  class CreateQuotePage {
    var customers: seq<WizardCustomer>
    var isLoading: bool
    var error: Option<String>

    constructor()
      ensures customers == [] && isLoading && error.None?
    {
      customers, isLoading, error := [], true, None;
    }

    /** `fetchCustomers`: an array is kept, anything else becomes an empty
        list, a failure also records the error; loading ends either way. */
    method FetchCustomers(reply: CustomersReply)
      modifies this
      ensures !isLoading
      ensures reply.CustomerArray? ==> customers == reply.items && error.None?
      ensures reply.NotAnArray? ==> customers == [] && error.None?
      ensures reply.LoadThrew? ==> customers == [] && error == Some(LoadError)
      ensures reply.LoadThrew? ==> ShowsError() && Body() == NoCustomers
    {
      isLoading := true;
      match reply {
        case CustomerArray(items) =>
          customers := items;
          error := None;
        case NotAnArray =>
          customers := [];
          error := None;
        case LoadThrew =>
          error := Some(LoadError);
          customers := [];
      }
      isLoading := false;
    }

    /** The error banner shows only once loading is over. */
    predicate ShowsError()
      reads this
    {
      error.Some? && error.value != "" && !isLoading
    }

    /** The spinner while loading, the empty-list panel when there is no
        customer, and otherwise the wizard with the loaded customers. */
    function Body(): (b: PageBody)
      reads this
      ensures b == LoadingCustomers <==> isLoading
      ensures b == NoCustomers <==> !isLoading && customers == []
      ensures b.WizardShown? ==> b.customers == customers && |customers| > 0
    {
      if isLoading then LoadingCustomers
      else if |customers| == 0 then NoCustomers
      else WizardShown(customers)
    }
  }

  /** The upload reply: `status` and `file_path` when they are strings. */
  datatype UploadResponse = UploadResponse(status: Option<String>, file_path: Option<String>)

  /** How `uploadQuoteFile` ended. */
  datatype UploadReply = Uploaded(response: UploadResponse) | UploadThrew(message: String)

  /** How `processQuoteFile` ended: the extracted context and error fields
      of the reply, or a thrown error. */
  datatype ProcessReply = Processed(extracted_context: Option<ContextDict>, error: Option<String>)
                        | ProcessThrew(message: String)

  /** `uploadResponse.status === 'success' && uploadResponse.file_path`. */
  predicate UploadSucceeded(r: UploadResponse)
  {
    r.status == Some("success") && r.file_path.Some? && r.file_path.value != ""
  }

  /** The message thrown for an unsuccessful upload reply. */
  function UploadErrorText(r: UploadResponse): (msg: String)
    ensures r.status.None? && r.file_path.None? ==> msg == "File upload failed with unknown status"
    ensures r.status.None? && r.file_path.Some? ==>
              msg == "File upload failed with unknown status" + " (Path: " + r.file_path.value + ")"
    ensures r.status.Some? && r.file_path.None? ==>
              msg == "File upload failed with status: " + r.status.value
    ensures r.status.Some? && r.file_path.Some? ==>
              msg == "File upload failed with status: " + r.status.value + " (Path: " + r.file_path.value + ")"
    ensures r.status.Some? ==> "File upload failed with status: " + r.status.value <= msg
    ensures r.file_path.Some? ==> IsSuffix(" (Path: " + r.file_path.value + ")", msg)
    ensures msg != ""
  {
    var base := if r.status.Some? then "File upload failed with status: " + r.status.value
                else "File upload failed with unknown status";
    if r.file_path.Some? then base + " (Path: " + r.file_path.value + ")" else base
  }

  const FallbackError := "Failed to upload or process file."

  /** `err.message || 'Failed to upload or process file.'`. */
  function Message(m: String): (r: String)
    ensures r != ""
    ensures m != "" ==> r == m
  {
    if m != "" then m else FallbackError
  }

  /** `handleFileUploadAndProcess`: the single result it reports for
      `tempId`. The path is the server's once the upload succeeded, and the
      local file name otherwise. */
  function UploadAndProcess(tempId: int, fileName: String, upload: UploadReply, process: ProcessReply)
    : (r: FileProcessResult)
    ensures r.tempId == tempId && !r.isLoading
    ensures upload.Uploaded? && UploadSucceeded(upload.response) && process.Processed? ==>
              r == FileProcessResult(tempId, upload.response.file_path.value,
                                     process.extracted_context, process.error, false)
    ensures upload.Uploaded? && UploadSucceeded(upload.response) && process.ProcessThrew? ==>
              r == FileProcessResult(tempId, upload.response.file_path.value, None,
                                     Some(Message(process.message)), false)
    ensures upload.Uploaded? && !UploadSucceeded(upload.response) ==>
              r == FileProcessResult(tempId, fileName, None, Some(UploadErrorText(upload.response)), false)
    ensures upload.UploadThrew? ==>
              r == FileProcessResult(tempId, fileName, None, Some(Message(upload.message)), false)
  {
    match upload
    case UploadThrew(m) => FileProcessResult(tempId, fileName, None, Some(Message(m)), false)
    case Uploaded(resp) =>
      if !UploadSucceeded(resp) then
        FileProcessResult(tempId, fileName, None, Some(UploadErrorText(resp)), false)
      else
        var uploadPath := resp.file_path.value;
        match process
        case Processed(ctx, err) => FileProcessResult(tempId, uploadPath, ctx, err, false)
        case ProcessThrew(m) => FileProcessResult(tempId, uploadPath, None, Some(Message(m)), false)
  }

  /** Any failure leaves a non-empty error, so the wizard never picks the
      entry's (absent) context. */
  lemma {:induction false} FailureIsUnusable(tempId: int, fileName: String, upload: UploadReply, process: ProcessReply)
    requires !(upload.Uploaded? && UploadSucceeded(upload.response) && process.Processed?)
    ensures !Usable(UploadAndProcess(tempId, fileName, upload, process))
  {
  }

  /** Whatever happens, the report ends the wizard's tracking of that file:
      its `tempId` leaves the loading set and nothing else does. */
  lemma {:induction false} ReportEndsTracking(list: seq<FileProcessResult>, tempId: int, fileName: String,
                           upload: UploadReply, process: ProcessReply)
    requires TempIdsUnique(list)
    ensures LoadingIds(Upsert(list, UploadAndProcess(tempId, fileName, upload, process)))
            == LoadingIds(list) - {tempId}
  {
    UpsertCompletion(list, UploadAndProcess(tempId, fileName, upload, process));
  }
}
