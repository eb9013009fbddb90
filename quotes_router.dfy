// The `/quotes` router: quote-id parsing with its 400/404 answers, create,
// partial update, delete and paging over the quote table, the data handed to
// the PDF renderer, the upload/process/download/delete file endpoints.
module QuotesRouter {
  import opened Wrappers
  import opened Text
  import opened Numerals
  import opened Schemas
  import opened Tables
  import opened FileService

  const InvalidQuoteId := HttpError(400, "Invalid quote ID format")
  const QuoteNotFound := HttpError(404, "Quote not found")
  const DeletedMessage := "Quote deleted successfully"
  const DefaultPageSize := 100

  /** `int(quote_id)` on the path text; a `ValueError` becomes 400. */
  function ParseQuoteId(text: String): (r: Result<int, HttpError>)
    ensures r.Ok? <==> PyInt(text).Some?
    ensures r.Ok? ==> r.value == PyInt(text).value
    ensures r.Err? ==> r.error == InvalidQuoteId
  {
    match PyInt(text)
    case Some(n) => Ok(n)
    case None => Err(InvalidQuoteId)
  }

  /** Every id the table hands out parses back to itself, and a blank path
      segment is refused before any lookup. */
  lemma {:induction false} QuoteIdRoundTrip(id: int, blank: String)
    requires IsBlank(blank)
    ensures ParseQuoteId(IntToString(id)) == Ok(id)
    ensures ParseQuoteId(blank) == Err(InvalidQuoteId)
  {
    PyIntRoundTrip(id);
  }

  /** The parse-then-lookup prologue shared by read, update, delete and the
      PDF endpoint: 400 before 404, and 404 exactly when no row has the id. */
  function FindQuote(db: Table<Quote>, text: String): (r: Result<Quote, HttpError>)
    reads db
    ensures ParseQuoteId(text).Err? ==> r == Err(InvalidQuoteId)
    ensures ParseQuoteId(text).Ok? ==>
              (r.Err? <==> db.Get(ParseQuoteId(text).value).None?)
    ensures ParseQuoteId(text).Ok? && r.Err? ==> r.error == QuoteNotFound
    ensures r.Ok? ==> db.Get(ParseQuoteId(text).value) == Some(r.value)
  {
    match ParseQuoteId(text)
    case Err(e) => Err(e)
    case Ok(id) =>
      match db.Get(id)
      case None => Err(QuoteNotFound)
      case Some(q) => Ok(q)
  }

  /** Looking a stored quote up by its own printed id finds it. */
  lemma {:induction false} FindStoredQuote(db: Table<Quote>, id: int)
    requires db.Get(id).Some?
    ensures FindQuote(db, IntToString(id)) == Ok(db.Get(id).value)
  {
    QuoteIdRoundTrip(id, []);
  }

  /** `create_quote`: a body whose specification fails a `Literal` type is
      refused with 422 before the handler runs; otherwise the quote with its
      single spec and single context is stored under a fresh id, keeping
      the request's status and prices. */
  method CreateQuote(db: Table<Quote>, c: QuoteCreate) returns (r: Result<(int, Quote), HttpError>)
    requires db.Valid()
    modifies db
    ensures db.Valid()
    ensures ValidateCreate(c).Err? ==> r == Err(ValidateCreate(c).error) && unchanged(db)
    ensures ValidateCreate(c).Ok? ==>
              r.Ok? && r.value.1 == QuoteFromCreate(c)
              && old(db.Get(r.value.0)).None? && db.Get(r.value.0) == Some(r.value.1)
              && forall k :: k != r.value.0 ==> db.Get(k) == old(db.Get(k))
  {
    var checked := ValidateCreate(c);
    if checked.Err? {
      return Err(checked.error);
    }
    var q := QuoteFromCreate(c);
    var id := db.Insert(q);
    r := Ok((id, q));
  }

  /** `update_quote`: after the id checks, only the fields present in the
      request are written. */
  method UpdateQuote(db: Table<Quote>, quoteId: String, u: QuoteUpdate) returns (r: Result<Quote, HttpError>)
    requires db.Valid()
    modifies db
    ensures db.Valid()
    ensures old(FindQuote(db, quoteId)).Err? ==> r == old(FindQuote(db, quoteId)) && unchanged(db)
    ensures old(FindQuote(db, quoteId)).Ok? ==>
              r == Ok(ApplyQuoteUpdate(old(FindQuote(db, quoteId)).value, u))
              && FindQuote(db, quoteId) == r
              && forall k :: k != ParseQuoteId(quoteId).value ==> db.Get(k) == old(db.Get(k))
  {
    r := FindQuote(db, quoteId);
    if r.Ok? {
      var id := ParseQuoteId(quoteId).value;
      var updated := ApplyQuoteUpdate(r.value, u);
      db.Replace(id, updated);
      r := Ok(updated);
    }
  }

  /** `delete_quote`: the quote is gone afterwards, so reading it again
      answers 404, and no other quote is touched. */
  method DeleteQuote(db: Table<Quote>, quoteId: String) returns (r: Result<String, HttpError>)
    requires db.Valid()
    modifies db
    ensures db.Valid()
    ensures old(FindQuote(db, quoteId)).Err? ==> r == Err(old(FindQuote(db, quoteId)).error) && unchanged(db)
    ensures old(FindQuote(db, quoteId)).Ok? ==>
              r == Ok(DeletedMessage)
              && FindQuote(db, quoteId) == Err(QuoteNotFound)
              && forall k :: k != ParseQuoteId(quoteId).value ==> db.Get(k) == old(db.Get(k))
  {
    var found := FindQuote(db, quoteId);
    if found.Err? {
      return Err(found.error);
    }
    db.Delete(ParseQuoteId(quoteId).value);
    r := Ok(DeletedMessage);
  }

  /** `read_quotes`: the rows in id order, from `skip`, at most `limit`. */
  function ReadQuotes(db: Table<Quote>, skip: nat, limit: nat): (r: seq<Quote>)
    reads db
    ensures |r| <= limit
    ensures skip >= |db.rows| ==> r == []
    ensures forall i :: 0 <= i < |r| ==> skip + i < |db.rows| && r[i] == db.rows[skip + i].rec
  {
    Page(db.rows, skip, limit)
  }

  /** The customer fields copied into the PDF. */
  datatype CustomerSummary = CustomerSummary(company_name: String, contact_person: String, email: String)

  /** What `predict_price` gave: a price and a confidence, or an exception. */
  datatype Prediction = Predicted(price: real, confidence: real) | PredictionFailed

  /** The `quote_data` dictionary handed to the PDF renderer; `None` stands
      for an empty dictionary or a null price. */
  datatype PdfData = PdfData(
    reference_number: String,
    validity_date: int,
    status: String,
    customer: Option<CustomerSummary>,
    product_spec: Option<ProductSpec>,
    context_text: Option<String>,
    predicted_price: Option<real>,
    final_price: Option<real>)

  /** `predicted * (1 + (1 - confidence) * 0.1)`, in exact arithmetic. */
  function FinalPrice(predicted: real, confidence: real): real
  {
    predicted * (1.0 + (1.0 - confidence) * 0.1)
  }

  /** The margin is between 0 and 10% for a confidence in [0, 1], vanishes
      at full confidence, and is 1.5% for the fixed confidence 0.85. */
  lemma {:induction false} FinalPriceMargin(predicted: real, confidence: real)
    requires predicted >= 0.0 && 0.0 <= confidence <= 1.0
    ensures predicted <= FinalPrice(predicted, confidence) <= predicted * 1.1
    ensures confidence == 1.0 ==> FinalPrice(predicted, confidence) == predicted
    ensures confidence == 0.85 ==> FinalPrice(predicted, confidence) == predicted * 1.015
  {
    var m := (1.0 - confidence) * 0.1;
    assert 0.0 <= m <= 0.1;
    assert FinalPrice(predicted, confidence) == predicted + predicted * m;
    assert 0.0 <= predicted * m <= predicted * 0.1;
  }

  /** The body of `generate_quote_pdf` after the lookup: only the first
      specification and the first context are used, and prices are filled in
      only when there is a specification and the prediction succeeded. */
  function PdfPayload(q: Quote, customer: Option<Customer>, prediction: Prediction): (d: PdfData)
    ensures d.reference_number == q.reference_number && d.status == q.status
    ensures d.customer.Some? <==> customer.Some?
    ensures customer.Some? ==> d.customer.value.company_name == customer.value.company_name
                               && d.customer.value.email == customer.value.email
    ensures d.product_spec == if |q.product_specs| > 0 then Some(q.product_specs[0]) else None
    ensures d.context_text == if |q.communication_contexts| > 0
                              then Some(q.communication_contexts[0].context_text) else None
    ensures d.predicted_price.Some? <==> |q.product_specs| > 0 && prediction.Predicted?
    ensures d.final_price.Some? <==> d.predicted_price.Some?
    ensures d.predicted_price.Some? ==>
              d.predicted_price.value == prediction.price
              && d.final_price.value == FinalPrice(prediction.price, prediction.confidence)
  {
    var summary := match customer
      case Some(c) => Some(CustomerSummary(c.company_name, c.contact_person, c.email))
      case None => None;
    var spec := if |q.product_specs| > 0 then Some(q.product_specs[0]) else None;
    var ctx := if |q.communication_contexts| > 0 then Some(q.communication_contexts[0].context_text) else None;
    var priced := spec.Some? && prediction.Predicted?;
    PdfData(q.reference_number, q.validity_date, q.status, summary, spec, ctx,
            if priced then Some(prediction.price) else None,
            if priced then Some(FinalPrice(prediction.price, prediction.confidence)) else None)
  }

  /** `generate_quote_pdf` up to the renderer: 400/404 first, then the payload
      with the quote's customer looked up by its id. */
  function QuotePdf(quotes: Table<Quote>, customers: Table<Customer>, quoteId: String,
                    prediction: Prediction): (r: Result<PdfData, HttpError>)
    reads quotes, customers
    ensures r.Err? <==> FindQuote(quotes, quoteId).Err?
    ensures r.Err? ==> r.error == FindQuote(quotes, quoteId).error
    ensures r.Ok? ==> r.value.reference_number == FindQuote(quotes, quoteId).value.reference_number
                      && (r.value.customer.Some? <==> customers.Get(FindQuote(quotes, quoteId).value.customer_id).Some?)
    ensures r.Ok? ==> r.value == PdfPayload(FindQuote(quotes, quoteId).value,
                                            customers.Get(FindQuote(quotes, quoteId).value.customer_id), prediction)
  {
    match FindQuote(quotes, quoteId)
    case Err(e) => Err(e)
    case Ok(q) => Ok(PdfPayload(q, customers.Get(q.customer_id), prediction))
  }

  /** The body of `upload_file`'s success reply. */
  datatype UploadReply = UploadReply(file_path: String, status: String)

  const UploadRefused := HttpError(400, "File type not allowed or save failed.")

  /** `upload_file`: the store is asked to save without a quote id, so the
      stored name always starts with "temp_". */
  method UploadFile(store: FileStore, filename: Option<String>, content: seq<Byte>,
                    timestamp: String, writeFails: bool) returns (r: Result<UploadReply, HttpError>)
    modifies store
    ensures store.uploadDir == old(store.uploadDir)
    ensures r.Err? ==> r.error == UploadRefused && store.files == old(store.files)
    ensures r.Ok? <==> filename.Some? && Ext(Lower(filename.value)) in AllowedTypes
                       && |content| <= MaxFileSize && !writeFails
    ensures r.Ok? ==>
              r.value.status == "success"
              && r.value.file_path == Join(store.uploadDir, StoredName(None, timestamp, Ext(Lower(filename.value))))
              && store.files == old(store.files)[r.value.file_path := content]
  {
    var saved := store.SaveUploadedFile(filename, content, None, timestamp, writeFails);
    if saved.None? {
      return Err(UploadRefused);
    }
    r := Ok(UploadReply(saved.value, "success"));
  }

  /** `FileProcessResponse`. */
  datatype ProcessReply = ProcessReply(file_path: String, extracted_context: Option<ContextDict>, error: Option<String>)

  /** How the AI step ended: a context, an `HTTPException`, or any other
      exception. */
  datatype AiOutcome = Extracted(ctx: ContextDict) | AiRaised(e: HttpError) | AiCrashed

  /** The reasons `process_uploaded_file` gives no context. */
  datatype ProcessFailure = FileMissing | Unreadable | NoText | AiHttpError(detail: String) | AiUnexpected

  function FailureText(f: ProcessFailure): String
  {
    match f
    case FileMissing => "File not found " + "at the specified path."
    case Unreadable => "Failed to extract text " + "or unsupported file type."
    case NoText => "No text content " + "found in the file."
    case AiHttpError(d) => "AI processing error: " + d
    case AiUnexpected => "An unexpected error " + "occurred during AI processing."
  }

  /** Each reason has its own message: the client can tell them apart. */
  lemma {:induction false} FailureTextInjective(a: ProcessFailure, b: ProcessFailure)
    requires FailureText(a) == FailureText(b)
    ensures a == b
  {
    FailureTextLead(a);
    FailureTextLead(b);
    if a.AiHttpError? {
      var t, p := FailureText(a), "AI processing error: ";
      assert t == p + a.detail && t == p + b.detail;
      assert a.detail == t[|p|..] == b.detail;
    }
  }

  /** The first two characters of each reason's message. */
  function Lead(f: ProcessFailure): (char, char)
  {
    match f
    case FileMissing => ('F', 'i')
    case Unreadable => ('F', 'a')
    case NoText => ('N', 'o')
    case AiHttpError(_) => ('A', 'I')
    case AiUnexpected => ('A', 'n')
  }

  lemma {:induction false} FailureTextLead(f: ProcessFailure)
    ensures |FailureText(f)| >= 2 && (FailureText(f)[0], FailureText(f)[1]) == Lead(f)
  {
    var head := match f
      case FileMissing => "File not found "
      case Unreadable => "Failed to extract text "
      case NoText => "No text content "
      case AiHttpError(_) => "AI processing error: "
      case AiUnexpected => "An unexpected error ";
    assert head[0] == Lead(f).0 && head[1] == Lead(f).1;
    assert FailureText(f)[..|head|] == head;
  }

  /** The classification in `process_uploaded_file`, given what the store's
      extractor yields and how the AI step ends. It never raises and every
      reply carries the requested path. */
  function Classify(store: FileStore, path: String, decoded: Option<String>, ai: AiOutcome): (r: Result<ContextDict, ProcessFailure>)
    reads store
    ensures path !in store.files ==> r == Err(FileMissing)
    ensures path in store.files && store.ExtractText(path, decoded).None? ==> r == Err(Unreadable)
    ensures store.ExtractText(path, decoded).Some? && IsBlank(store.ExtractText(path, decoded).value) ==> r == Err(NoText)
    ensures r.Ok? <==> store.ExtractText(path, decoded).Some? && !IsBlank(store.ExtractText(path, decoded).value)
                       && ai.Extracted?
    ensures r.Ok? ==> r.value == ai.ctx
    ensures r == Err(AiUnexpected) <==> store.ExtractText(path, decoded).Some?
                                        && !IsBlank(store.ExtractText(path, decoded).value) && ai.AiCrashed?
  {
    var text := store.ExtractText(path, decoded);
    if text.None? then
      if path !in store.files then Err(FileMissing) else Err(Unreadable)
    else if IsBlank(text.value) then Err(NoText)
    else
      match ai
      case Extracted(ctx) => Ok(ctx)
      case AiRaised(e) => Err(AiHttpError(e.detail))
      case AiCrashed => Err(AiUnexpected)
  }

  /** `process_uploaded_file` with the AI step called as intended, with the
      text and the product specifications. */
  function ProcessUploadedFile(store: FileStore, path: String, decoded: Option<String>, ai: AiOutcome): (r: ProcessReply)
    reads store
    ensures r.file_path == path
    ensures r.extracted_context.Some? != r.error.Some?
    ensures r.extracted_context.Some? <==> Classify(store, path, decoded, ai).Ok?
    ensures r.error.Some? ==> r.error.value == FailureText(Classify(store, path, decoded, ai).error)
  {
    match Classify(store, path, decoded, ai)
    case Ok(ctx) => ProcessReply(path, Some(ctx), None)
    case Err(f) => ProcessReply(path, None, Some(FailureText(f)))
  }

  /** `process_uploaded_file` as written: `extract_context(extracted_text)`
      omits the required `product_specs` argument, so the call itself raises
      `TypeError` and the AI step always ends in the generic branch. */
  function ProcessUploadedFileAsWritten(store: FileStore, path: String, decoded: Option<String>): (r: ProcessReply)
    reads store
    ensures r.extracted_context.None?
    ensures r == ProcessUploadedFile(store, path, decoded, AiCrashed)
  {
    ProcessUploadedFile(store, path, decoded, AiCrashed)
  }

  /** Whatever the AI would have answered, a readable non-blank file gets the
      generic error as written, while the intended call returns the context. */
  lemma {:induction false} ProcessArityBug(store: FileStore, path: String, decoded: Option<String>, ctx: ContextDict)
    requires store.ExtractText(path, decoded).Some? && !IsBlank(store.ExtractText(path, decoded).value)
    ensures ProcessUploadedFileAsWritten(store, path, decoded).error == Some(FailureText(AiUnexpected))
    ensures ProcessUploadedFile(store, path, decoded, Extracted(ctx)).extracted_context == Some(ctx)
  {
  }

  /** The `content_type_map` of `download_file`. */
  const DownloadTypes: map<String, String> :=
    map[".txt" := "text/plain", ".pdf" := "application/pdf", ".jpg" := "image/jpeg",
        ".jpeg" := "image/jpeg", ".png" := "image/png"]

  /** `download_file`: 404 for a missing path, otherwise the media type of
      the lower-cased extension. */
  function DownloadFile(store: FileStore, path: String): (r: Result<String, HttpError>)
    reads store
    ensures r.Err? <==> path !in store.files
    ensures r.Err? ==> r.error == HttpError(404, "File not found")
    ensures r.Ok? ==> r.value == MimeOf(Ext(Lower(path)))
  {
    if path !in store.files then Err(HttpError(404, "File not found"))
    else
      var ext := SplitExt(Lower(path)).1;
      DownloadTypesAgree(ext);
      Ok(if ext in DownloadTypes then DownloadTypes[ext] else OctetStream)
  }

  /** The router's media-type table is the store's accept table. */
  lemma {:induction false} DownloadTypesAgree(ext: String)
    ensures (if ext in DownloadTypes then DownloadTypes[ext] else OctetStream) == MimeOf(ext)
  {
    assert DownloadTypes == AllowedTypes;
  }

  const FileDeletedMessage := "File deleted successfully"

  /** The `delete_file` endpoint: the store's answer is ignored, so the reply
      is the success message even when nothing was deleted. */
  method DeleteFileEndpoint(store: FileStore, filename: String, removeFails: bool) returns (message: String)
    modifies store
    ensures message == FileDeletedMessage
    ensures store.uploadDir == old(store.uploadDir)
    ensures Join(store.uploadDir, filename) in old(store.files) && !removeFails ==>
              store.files == old(store.files) - {Join(store.uploadDir, filename)}
    ensures !(Join(store.uploadDir, filename) in old(store.files) && !removeFails) ==>
              store.files == old(store.files)
  {
    var _ := store.DeleteFile(filename, removeFails);
    message := FileDeletedMessage;
  }

  const InternalServerError := HttpError(500, "Internal Server Error")

  /** `get_quote_files` as written: it calls `get_quote_files` on the file
      service, which has no such method, so every request ends in an
      unhandled `AttributeError`. */
  function GetQuoteFilesAsWritten(quoteId: int): (r: Result<seq<String>, HttpError>)
    ensures r == Err(InternalServerError)
  {
    Err(InternalServerError)
  }

  /** `get_quote_files` calling `list_files`, as intended: one `file_path`
      per stored file of the quote, in listing order. */
  method GetQuoteFiles(store: FileStore, quoteId: int, listing: Option<seq<String>>) returns (r: seq<String>)
    ensures listing.None? ==> r == []
    ensures listing.Some? ==>
              var names := MatchingNames(listing.value, quoteId);
              if forall n :: n in names ==> Join(store.uploadDir, n) in store.files then
                |r| == |names|
                && forall i :: 0 <= i < |r| ==> r[i] == Join(store.uploadDir, names[i])
                                                && ListPrefix(quoteId) <= names[i]
              else r == []
  {
    var infos := store.ListFiles(quoteId, listing);
    r := seq(|infos|, i requires 0 <= i < |infos| => infos[i].path);
    if listing.Some? {
      var names := MatchingNames(listing.value, quoteId);
      forall i | 0 <= i < |names| ensures ListPrefix(quoteId) <= names[i] {
        assert names[i] in names;
      }
    }
  }
}
