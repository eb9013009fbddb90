# Quote AI: a Dafny model of its decision logic

Quote AI is a quote-management web application. A Next.js front end creates
customers and quotes, uploads files whose text is turned into a
"communication context" by a language model, and downloads quotes as PDFs.
A FastAPI back end stores customers and quotes, rate-limits clients, keeps
uploaded files and calls the AI provider.

This project models the small stateful rules of both halves and proves what
they promise.

- **Front end.**
  - The quote-generation wizard: the list of in-flight uploads keyed by a
    client `tempId`, the choice of context and the create-quote payload.
  - The create page that reports each upload's outcome.
  - The product-specification form.
  - The home page's fetch-with-retry.
  - The PDF download button.
  - The Redux quotes slice, the toast registry and the notification slot.
  - The generic validation rules.
  - The file-upload control.
  - The customer form, the quote-details form, the key/value specification
    editor and the communication-context text area.
- **Back end.**
  - The per-client fixed-window rate limiter.
  - The file service's naming, size, type and listing rules.
  - The quote and customer routers over an in-memory table keyed by id.
  - The request and response schemas.
  - Training-row preparation.
  - The AI service's provider checks, context parser and Ollama retry loop.

State that the source updates in place is a `class`: the rate limiter's
table, the file store, the tables, the wizard, the pages, the forms and the
providers. Pure rules are functions with lemmas. Loops in the source are
methods with loop invariants, proved against a specification function:
`Validation.ValidateField`, `Validation.ValidateForm`, `Seqs.FindIndex`,
`ModelTraining.PrepareTrainingData`, `AiService.OllamaExtract`,
`FileService.FileStore.ListFiles` and `HomePage.Home.LoadAsWritten`.

What comes from outside is an input:
- clocks (`Date.now()`, `time.time()`, `datetime.now()`);
- random toast ids;
- HTTP replies and AI replies;
- the outcome of file-system calls;
- the parsed JSON of the specification editor.

Concurrent uploads are sequences of completion events in any order.

Two places where the code is followed rather than its description:
- The upload control accepts a file type when an `accept` entry, trimmed
  and lower-cased, equals the file's MIME type or its bare extension. An
  entry written the HTML way (".pdf") therefore never matches
  (`FileUpload.DottedEntriesRejectEverything`). No caller passes `accept`,
  so this is not listed as a finding.
- The customer form's email test is the unanchored `\S+@\S+\.\S+`. It is
  strictly looser than the anchored rule of the validation utilities
  (`CustomerForm.AnchoredImpliesLoose`, `CustomerForm.LooseAcceptsMore`).

## Model

| member | source | states |
|---|---|---|
| QuoteWizard.UpsertCases | frontend/src/components/quote/QuoteGenerationForm.tsx:68-78 | a known tempId is replaced in place at its first position and the length is kept; an unknown tempId is appended only when the result is loading, otherwise the list is unchanged |
| QuoteWizard.UpsertKeepsUnique | frontend/src/components/quote/QuoteGenerationForm.tsx:68-78 | the upsert never creates a second entry for a tempId |
| QuoteWizard.UpsertMakesLoading | frontend/src/components/quote/QuoteGenerationForm.tsx:75-79 | upserting a loading record makes the list busy |
| QuoteWizard.LoadingIdsEmpty | frontend/src/components/quote/QuoteGenerationForm.tsx:79 | the set of loading tempIds is empty exactly when no entry is loading |
| QuoteWizard.UpsertCompletion | frontend/src/components/quote/QuoteGenerationForm.tsx:68-79 | a finished record removes exactly its own tempId from the loading set |
| QuoteWizard.ApplyCompletions | frontend/src/components/quote/QuoteGenerationForm.tsx:68-79 | finished records arriving in any order keep tempIds unique and remove exactly their own ids from the loading set |
| QuoteWizard.CompletionsClearBusy | frontend/src/components/quote/QuoteGenerationForm.tsx:79 | once every tracked upload has reported back, in whatever order, nothing is loading |
| QuoteWizard.LastUsable | frontend/src/components/quote/QuoteGenerationForm.tsx:141 | the index found is a usable entry (not loading, no error, has a context) and no later entry is usable; none found means no entry is usable |
| QuoteWizard.LastUsableIgnoresTail | frontend/src/components/quote/QuoteGenerationForm.tsx:141 | entries after the last usable one that are not usable never change the choice |
| QuoteWizard.Pick | frontend/src/components/quote/QuoteGenerationForm.tsx:144-147 | a present non-empty field is kept, anything else becomes the fallback |
| QuoteWizard.ChooseContextSpec | frontend/src/components/quote/QuoteGenerationForm.tsx:141-149 | with no usable upload the fixed default context of lines 59-64 is sent; appending unusable entries never changes the choice |
| QuoteWizard.ServerContextPicked | frontend/src/components/quote/QuoteGenerationForm.tsx:142-148 | the server's parsed context becomes 'Extracted from file', urgency medium, the reply as custom requests, and 'None' for the empty past agreements |
| QuoteWizard.BuildPayload | frontend/src/components/quote/QuoteGenerationForm.tsx:158-168 | title "Quote for " + company, the customer's id, status pending, no prices, validity now + 2592000000 ms, the given spec and context |
| QuoteWizard.AsRequest | frontend/src/components/quote/QuoteGenerationForm.tsx:157-167 | the body the server reads carries the payload's status as present, its prices and its spec and context |
| QuoteWizard.PayloadStoredPending | backend/quote_ai/api/routers/quotes.py:59-60 | the wizard's payload passes validation when its spec meets the Literal types, and is stored with status pending and no prices, not the draft default |
| QuoteWizard.CreatedId | frontend/src/components/quote/QuoteGenerationForm.tsx:175 | an id is taken exactly when the reply is a quote with a truthy id |
| QuoteWizard.GenerateError | frontend/src/components/quote/QuoteGenerationForm.tsx:176-187 | a failed generation always has a non-empty message |
| QuoteWizard.FindCustomer | frontend/src/components/quote/QuoteGenerationForm.tsx:86-87 | the first customer in the list with the parsed id (the one IndexOfKey finds); none found means the id did not parse or no customer has it |
| QuoteWizard.Wizard.constructor | frontend/src/components/quote/QuoteGenerationForm.tsx:40-47 | no customer, no quote, nothing tracked, not loading, not busy, not complete |
| QuoteWizard.Wizard.UpdateFileInfo | frontend/src/components/quote/QuoteGenerationForm.tsx:68-83 | the list becomes the upsert, the busy flag equals "some entry is loading", and nothing else changes |
| QuoteWizard.Wizard.HandleCustomerSelect | frontend/src/components/quote/QuoteGenerationForm.tsx:85-97 | the customer whose id parseInt reads is selected and every other piece of wizard state is reset |
| QuoteWizard.Wizard.HandleFileUpload | frontend/src/components/quote/QuoteGenerationForm.tsx:99-121 | no file or an invalid spec form sets its error and tracks nothing; otherwise a loading record under tempId now is tracked and the busy flag is set |
| QuoteWizard.Wizard.HandleGenerateQuote | frontend/src/components/quote/QuoteGenerationForm.tsx:123-195 | no customer or an invalid form sets its message and creates nothing; otherwise the payload is built from the chosen context, a reply with an id completes, any failure sets the error and a toast, and loading ends either way |
| QuoteWizard.Wizard.ApplyCreateReply | frontend/src/components/quote/QuoteGenerationForm.tsx:173-194 | a reply with a truthy id completes with the id and the success toast; anything else sets and toasts the error; loading ends; afterwards the customer select (line 238) is locked exactly when the quote was created |
| QuoteWizard.Wizard.HandleCreateNew | frontend/src/components/quote/QuoteGenerationForm.tsx:197-212 | the customer, quote, uploads, error, completion and busy flag are all cleared, so the customer select (line 238) and the upload control (line 266) are enabled again unless loading |
| QuoteWizard.Wizard.GenerateEnabled | frontend/src/components/quote/QuoteGenerationForm.tsx:295-298 | Generate is enabled only when no upload is still loading |
| QuoteWizard.Wizard.UploadEnabled | frontend/src/components/quote/QuoteGenerationForm.tsx:266 | uploading is enabled only before completion and while no upload is loading |
| CreatePage.CreateQuotePage.constructor | frontend/src/app/quotes/create/page.tsx:22-24 | no customers, loading, no error |
| CreatePage.CreateQuotePage.FetchCustomers | frontend/src/app/quotes/create/page.tsx:27-46 | an array is kept, a non-array gives [] with the error cleared, a thrown fetch gives [] and the load error (shown, with the no-customers panel); loading is false afterwards |
| CreatePage.CreateQuotePage.Body | frontend/src/app/quotes/create/page.tsx:130-140 | the spinner exactly while loading, the no-customers panel exactly when loaded and empty, otherwise the wizard over the non-empty list |
| CreatePage.UploadErrorText | frontend/src/app/quotes/create/page.tsx:88-94 | the exact text for each of the four cases: "File upload failed with unknown status" or "File upload failed with status: s", followed by " (Path: p)" exactly when there is a path; never empty |
| CreatePage.Message | frontend/src/app/quotes/create/page.tsx:102 | a non-empty message is kept, an empty one becomes the fallback |
| CreatePage.UploadAndProcess | frontend/src/app/quotes/create/page.tsx:57-106 | every outcome reports the same tempId not loading; a successful upload reports the server path and forwards the process reply's context and error; any failure reports the local name and a non-empty error |
| CreatePage.FailureIsUnusable | frontend/src/app/quotes/create/page.tsx:88-104 | a failed upload or process is never picked as the context |
| CreatePage.ReportEndsTracking | frontend/src/app/quotes/create/page.tsx:80-104 | whatever happens, the report removes that tempId from the wizard's loading set |
| SpecForm.TextError | frontend/src/components/forms/ProductSpecificationForm.tsx:79-179 | a text or select field fails exactly when it is empty, the placeholder option included |
| SpecForm.NumberError | frontend/src/components/forms/ProductSpecificationForm.tsx:134-148 | a number field fails exactly when it is missing or below its minimum, and the minimum's message is 'Must be positive' |
| SpecForm.SpecErrors | frontend/src/components/forms/ProductSpecificationForm.tsx:49 | the recorded errors are exactly the failing fields, each with its rule's message |
| SpecForm.NoErrorsIff | frontend/src/components/forms/ProductSpecificationForm.tsx:49-186 | trigger() records no error exactly when every text field is filled in, the weight is at least 0.01 and the length at least 1 |
| SpecForm.GetFormData | frontend/src/components/forms/ProductSpecificationForm.tsx:47-63 | returned data satisfies every field rule and carries the entered values, the two numbers as numbers |
| SpecForm.GetFormDataIff | frontend/src/components/forms/ProductSpecificationForm.tsx:47-63 | null exactly when trigger() records an error |
| SpecForm.WizardDefaultInvalid | frontend/src/components/quote/QuoteGenerationForm.tsx:49-57 | the wizard's default spec never validates: weight and length both fail with 'Must be positive' |
| SpecForm.SelectedOptionsAreLiterals | frontend/src/components/forms/ProductSpecificationForm.tsx:115-186 | values picked from the three selects pass the server's Literal types |
| HomePage.Normalise | frontend/src/app/page.tsx:28-42 | missing spec and context lists become empty lists; the quote can be rebuilt from the result exactly when both lists were present |
| HomePage.NormaliseRoundTrip | frontend/src/app/page.tsx:28-42 | normalising what the server would send for a client quote gives that quote back |
| HomePage.Transform | frontend/src/app/page.tsx:28 | the array maps one to one, each quote normalised |
| HomePage.RetryDelay | frontend/src/app/page.tsx:12-54 | the delay is at least 1000 ms |
| HomePage.RetryDelayDoubles | frontend/src/app/page.tsx:54 | each retry waits twice as long as the one before |
| HomePage.LastCall | frontend/src/app/page.tsx:11-57 | the chain ends at the first call that does not retry, at most at call 3, so at most four calls are made |
| HomePage.Delays | frontend/src/app/page.tsx:54-56 | the chain waits 1000·2^j ms before call j+1 |
| HomePage.ErrorAfter | frontend/src/app/page.tsx:44-62 | an error is left exactly when the final reply is not an array |
| HomePage.ToastAfter | frontend/src/app/page.tsx:47-62 | a toast is shown exactly when the final reply is not an array |
| HomePage.Home.constructor | frontend/src/app/page.tsx:15-17 | no quotes, loading, no error |
| HomePage.Home.FetchQuotesAsWritten | frontend/src/app/page.tsx:20-68 | a call retries exactly on a rate-limit error below 3 retries, otherwise sets the quotes, error and toast of its reply; the spinner stays on exactly when the call is a retry |
| HomePage.Home.FetchBody | frontend/src/app/page.tsx:21-62 | the try/catch of one call: retry exactly on a rate-limit error below 3 retries with the doubled delay, otherwise the reply's quotes, error and toast |
| HomePage.Home.LoadAsWritten | frontend/src/app/page.tsx:20-72 | the chain makes LastCall+1 calls with the doubling delays and leaves the last reply's quotes and error, only the last call toasts (exactly when ToastAfter gives one), and the spinner is left on exactly when more than one call was made |
| HomePage.Home.FetchQuotes | frontend/src/app/page.tsx:20-68 | one call with the loading flag cleared whenever the chain ends |
| HomePage.Home.Load | frontend/src/app/page.tsx:20-72 | the same calls, delays, quotes, error and single final toast as written, and loading is over afterwards |
| HomePage.Home.DeleteQuote | frontend/src/app/page.tsx:121-128 | a successful delete drops exactly the quotes with that id, keeping the rest in order; a failure keeps the list; a toast either way |
| HomePage.Home.View | frontend/src/app/page.tsx:74-94 | the spinner exactly while loading, then the error page exactly when there is a non-empty error |
| HomePage.LastCallFrom | frontend/src/app/page.tsx:53-57 | a chain from call i ends at the first call from i on that does not retry |
| HomePage.RetryLeavesSpinner | frontend/src/app/page.tsx:64-66 | a rate-limited first call followed by an array makes two calls and leaves no error, so the as-written page keeps its spinner |
| PdfDownload.FileName | frontend/src/components/forms/PDFDownloadButton.tsx:37 | "quote-" + title + ".pdf", or the id in place of an empty title |
| PdfDownload.FileNameNamesQuote | frontend/src/components/forms/PDFDownloadButton.tsx:37 | an untitled quote's file name reads back as its id |
| PdfDownload.DownloadError | frontend/src/components/forms/PDFDownloadButton.tsx:28-48 | the download fails exactly when there is no blob or it is empty; the failure message is never empty and is the thrown message when there is one |
| PdfDownload.PdfDownloadButton.constructor | frontend/src/components/forms/PDFDownloadButton.tsx:18 | not downloading, nothing saved, no toasts |
| PdfDownload.PdfDownloadButton.HandleDownload | frontend/src/components/forms/PDFDownloadButton.tsx:21-52 | a click while downloading does nothing; otherwise a good blob is saved under FileName with the success toast, a failure saves nothing and toasts its message, and downloading is over afterwards, so the button (lines 58-66) reads "Download PDF" again |
| QuotesSlice.ReplaceFirstSpec | frontend/src/store/quotesSlice.ts:26-31 | the length is kept; with no match the list is unchanged; otherwise the first match becomes the payload and every other entry stays |
| QuotesSlice.ReplaceFirstIdempotent | frontend/src/store/quotesSlice.ts:26-31 | updating twice with the same payload is updating once |
| QuotesSlice.QuotesState.constructor | frontend/src/store/quotesSlice.ts:10-14 | an empty list, not loading, no error |
| QuotesSlice.QuotesState.SetQuotes | frontend/src/store/quotesSlice.ts:20-22 | the whole list is replaced and nothing else changes |
| QuotesSlice.QuotesState.AddQuote | frontend/src/store/quotesSlice.ts:23-25 | the quote is appended at the end and nothing else changes |
| QuotesSlice.QuotesState.UpdateQuote | frontend/src/store/quotesSlice.ts:26-31 | the first quote with the payload's id is replaced, and nothing else changes |
| QuotesSlice.QuotesState.SetLoading | frontend/src/store/quotesSlice.ts:32-34 | only the loading flag changes |
| QuotesSlice.QuotesState.SetError | frontend/src/store/quotesSlice.ts:35-37 | only the error changes |
| Seqs.IndexOfKey | frontend/src/store/quotesSlice.ts:27 | the first position whose key matches, or -1 when none does |
| Seqs.FindIndex | frontend/src/store/quotesSlice.ts:27 | the scanning loop returns that first matching position |
| Seqs.RemoveKey | frontend/src/components/ui/ToastProvider.tsx:44 | exactly the elements whose key differs survive |
| Seqs.RemoveKeyAppend | frontend/src/app/page.tsx:124 | filtering distributes over concatenation, so survivors keep their order |
| Seqs.RemoveAbsentKey | frontend/src/components/ui/ToastProvider.tsx:44 | removing an id no element carries changes nothing |
| Seqs.RemoveKeyIdempotent | frontend/src/components/ui/ToastProvider.tsx:44 | removing an id twice is removing it once |
| Toasts.ToastProvider.constructor | frontend/src/components/ui/ToastProvider.tsx:24 | no toasts |
| Toasts.ToastProvider.ShowToast | frontend/src/components/ui/ToastProvider.tsx:26-41 | an empty message changes nothing; otherwise exactly one toast is appended, type info and duration 5000 by default |
| Toasts.ToastProvider.RemoveToast | frontend/src/components/ui/ToastProvider.tsx:43-45 | every toast with that id goes and the others stay in order |
| Toasts.ToastProvider.CloseRendered | frontend/src/components/ui/ToastProvider.tsx:55-62 | a rendered toast's close callback removes that toast and keeps every toast with another id |
| Toasts.ShowThenRemove | frontend/src/components/ui/ToastProvider.tsx:30-45 | a toast shown under a fresh id and removed by it leaves the list as it was |
| Toasts.CloseRemovesOne | frontend/src/components/ui/ToastProvider.tsx:56-62 | with unique ids, closing one toast removes exactly that one entry |
| Notifications.NotificationProvider.constructor | frontend/src/contexts/NotificationContext.tsx:19-23 | type success, empty message, hidden |
| Notifications.NotificationProvider.ShowNotification | frontend/src/contexts/NotificationContext.tsx:25-27 | type and message overwritten and shown: only the latest survives |
| Notifications.NotificationProvider.HandleClose | frontend/src/contexts/NotificationContext.tsx:29-31 | hidden, type and message kept |
| Notifications.NotificationProvider.Rendered | frontend/src/contexts/NotificationContext.tsx:36-42 | the notification is on screen exactly while shown, with its type and message |
| Notifications.UseNotification | frontend/src/contexts/NotificationContext.tsx:47-52 | outside a provider it fails with the provider message, inside it yields the provider |
| Validation.Required | frontend/src/utils/validation.ts:15-22 | a string passes when its trim is non-empty, an array when non-empty, anything else when not null or undefined |
| Validation.RequiredStringIff | frontend/src/utils/validation.ts:17 | a string passes required exactly when it is not all whitespace |
| Validation.Email | frontend/src/utils/validation.ts:24-30 | the test is the anchored email check on String(value) |
| Validation.EmailCheckSound | frontend/src/utils/validation.ts:26 | everything the computed check accepts matches the pattern |
| Validation.EmailCheckComplete | frontend/src/utils/validation.ts:26 | everything the pattern describes passes the computed check |
| Validation.EmailCheckIff | frontend/src/utils/validation.ts:26 | the computed check is the pattern |
| Validation.EmailExamples | frontend/src/utils/validation.ts:26 | "a@b.co" matches; a one-letter top-level domain does not |
| Validation.Phone | frontend/src/utils/validation.ts:32-38 | an optional plus, then ten or more digits, spaces, dashes or parentheses |
| Validation.MinLength | frontend/src/utils/validation.ts:40-43 | String(value).length, in UTF-16 code units, is at least the bound, inclusive |
| Validation.MaxLength | frontend/src/utils/validation.ts:45-48 | String(value).length, in UTF-16 code units, is at most the bound, inclusive |
| Validation.LengthCountsCodeUnits | frontend/src/utils/validation.ts:41-46 | an emoji has length 2, so it passes minLength(2) and fails maxLength(1) |
| Validation.BmpLengthIsCount | frontend/src/utils/validation.ts:41-46 | for text of Basic Multilingual Plane characters both rules compare the character count |
| Validation.IsNumber | frontend/src/utils/validation.ts:50-53 | Number(value) is not NaN |
| Validation.Positive | frontend/src/utils/validation.ts:55-58 | Number(value) is a number greater than 0 |
| Validation.PositiveOfNumeral | frontend/src/utils/validation.ts:50-58 | a printed integer is a number, and positive exactly when above 0 |
| Validation.FirstFailing | frontend/src/utils/validation.ts:62-66 | the first rule in list order that fails; none exactly when all pass |
| Validation.ValidateField | frontend/src/utils/validation.ts:61-68 | the loop returns the first failing rule's message, or '' |
| Validation.FieldErrorIff | frontend/src/utils/validation.ts:61-68 | with non-empty messages, a field has an error exactly when some rule fails |
| Validation.ValidateForm | frontend/src/utils/validation.ts:70-82 | the error keys are exactly the ruled fields with a non-empty field error, each with that error; unruled fields never get one |
| FileUpload.FileType | frontend/src/components/ui/FileUpload.tsx:38 | the MIME type, or the lower-cased last dot-segment of the name when it is empty |
| FileUpload.LowerKeepsNoDot | frontend/src/components/ui/FileUpload.tsx:38 | lower-casing a dot-free extension leaves it dot-free |
| FileUpload.MaxSizeTextReadsBack | frontend/src/components/ui/FileUpload.tsx:30-35 | the limit text reads back as the whole number of MiB |
| FileUpload.ValidateFile | frontend/src/components/ui/FileUpload.tsx:32-44 | a file passes exactly when it is within the size and its type is accepted; size is checked before type, each with its message |
| FileUpload.SomeEntryMatchesIff | frontend/src/components/ui/FileUpload.tsx:37-40 | `some` over the accept entries holds exactly when one entry, trimmed and lower-cased, equals the non-empty file type |
| FileUpload.AcceptAllChecksOnlySize | frontend/src/components/ui/FileUpload.tsx:17-37 | with accept '*' only the size decides |
| FileUpload.DefaultLimitText | frontend/src/components/ui/FileUpload.tsx:18-30 | the default limit is shown as 5 MB |
| FileUpload.DottedEntriesRejectEverything | frontend/src/components/ui/FileUpload.tsx:37-42 | accept entries that all contain a dot reject every file whose type has no dot |
| FileUpload.TickValue | frontend/src/components/ui/FileUpload.tsx:104-110 | a tick adds 10 below 90 and stays at 90 from there |
| FileUpload.TicksFrom | frontend/src/components/ui/FileUpload.tsx:103-111 | from a multiple of ten, n ticks add 10·n, capped at 90 |
| FileUpload.ProgressBeforeSettling | frontend/src/components/ui/FileUpload.tsx:100-111 | before the upload settles, the bar shows 10·n percent after n ticks, never above 90 |
| FileUpload.FileUploader.constructor | frontend/src/components/ui/FileUpload.tsx:15-30 | accept '*', 5 MiB and enabled by default; the limit text is computed from the size; idle, no error, no progress, nothing selected |
| FileUpload.FileUploader.UploadFile | frontend/src/components/ui/FileUpload.tsx:96-123 | the file is handed to onUpload; success ends at 100 with no error, failure sets 'Failed to upload file' with progress at most 90; not uploading and nothing selected afterwards |
| FileUpload.FileUploader.HandleFileChange | frontend/src/components/ui/FileUpload.tsx:46-66 | no file does nothing; a rejected file sets its error, clears the selection and uploads nothing; an accepted file is uploaded |
| FileUpload.FileUploader.HandleDrop | frontend/src/components/ui/FileUpload.tsx:77-94 | the drag highlight ends, then the same three cases as a chosen file, with the selected file, the progress and the spinner stated in each |
| FileUpload.FileUploader.HandleDragOver | frontend/src/components/ui/FileUpload.tsx:68-71 | the drag highlight starts; the error, uploads, spinner, progress and selected file are kept |
| FileUpload.FileUploader.HandleDragLeave | frontend/src/components/ui/FileUpload.tsx:73-75 | the drag highlight ends; the error, uploads, spinner, progress and selected file are kept |
| FileUpload.FileUploader.TriggerFileInput | frontend/src/components/ui/FileUpload.tsx:125-129 | the picker opens exactly when not disabled |
| FormState.Field | frontend/src/components/forms/CustomerForm.tsx:59-62 | a present field's value, or '' for a missing one |
| FormState.ClearError | frontend/src/components/forms/CustomerForm.tsx:51-54 | the field's error reads '', every other error is kept, and no key is added or dropped |
| CustomerForm.AnchoredImpliesLoose | frontend/src/components/forms/CustomerForm.tsx:62 | every address the anchored rule accepts passes the form's loose test |
| CustomerForm.LooseAcceptsMore | frontend/src/components/forms/CustomerForm.tsx:62 | the loose test accepts a one-letter top-level domain and text before a space |
| CustomerForm.FormErrors | frontend/src/components/forms/CustomerForm.tsx:57-64 | company and contact are required; an empty email reports 'Email is required', a non-matching one 'Email is invalid'; phone and address are never checked |
| CustomerForm.FormValidIff | frontend/src/components/forms/CustomerForm.tsx:57-67 | the form passes exactly when both names are filled in and the email passes the loose test |
| CustomerForm.CustomerPicker.constructor | frontend/src/components/forms/CustomerForm.tsx:19-29 | no customers, not loading or creating, five empty fields, no errors |
| CustomerForm.CustomerPicker.FetchCustomers | frontend/src/components/forms/CustomerForm.tsx:36-46 | the reply is kept, a failure sets 'Failed to fetch customers', loading ends either way, and the form, errors, mode and selections are kept |
| CustomerForm.CustomerPicker.HandleInputChange | frontend/src/components/forms/CustomerForm.tsx:48-55 | only the named field changes and its error is blanked; the list, flags, store error and selections are kept |
| CustomerForm.CustomerPicker.ValidateForm | frontend/src/components/forms/CustomerForm.tsx:57-67 | records the errors and reports true exactly when the form passes |
| CustomerForm.CustomerPicker.HandleCreateCustomer | frontend/src/components/forms/CustomerForm.tsx:69-85 | an invalid form only shows its errors; a created customer is selected, appended once, and the form emptied and closed; a failure sets 'Failed to create customer' and keeps the list; loading ends |
| CustomerForm.CustomerPicker.SetCreating | frontend/src/components/forms/CustomerForm.tsx:96-181 | the create and cancel buttons set the mode; the input, errors, list, loading flag, store error and selections are kept |
| CustomerForm.CustomerPicker.SelectCustomer | frontend/src/components/forms/CustomerForm.tsx:116 | clicking a listed customer selects exactly that customer; nothing else changes |
| QuoteForm.QuoteFormErrors | frontend/src/components/forms/QuoteForm.tsx:45-55 | each of the two text areas has its message exactly when empty |
| QuoteForm.QuoteFormValidIff | frontend/src/components/forms/QuoteForm.tsx:45-55 | the form passes exactly when both are filled in |
| QuoteForm.QuoteDetailsForm.constructor | frontend/src/components/forms/QuoteForm.tsx:26-29 | the fields start from the initial data or '' |
| QuoteForm.QuoteDetailsForm.HandleInputChange | frontend/src/components/forms/QuoteForm.tsx:34-43 | only the named field changes and its error is blanked |
| QuoteForm.QuoteDetailsForm.HandleSubmit | frontend/src/components/forms/QuoteForm.tsx:57-69 | an invalid form never submits; a valid one is submitted once, a failure sets 'Failed to save quote details', and loading ends |
| QuoteForm.QuoteDetailsForm.SubmitLabel | frontend/src/components/forms/QuoteForm.tsx:112 | 'Update Quote' exactly with initial data, else 'Create Quote' |
| SpecMapEditor.InitialSpecs | frontend/src/components/forms/ProductSpecificationInput.tsx:24-30 | the parsed dictionary, or {} for an empty or unparsable value |
| SpecMapEditor.AddEnabledIff | frontend/src/components/forms/ProductSpecificationInput.tsx:104 | Add is enabled exactly when neither input is blank |
| SpecMapEditor.SpecificationEditor.constructor | frontend/src/components/forms/ProductSpecificationInput.tsx:24-33 | the initial dictionary, empty inputs, nothing emitted |
| SpecMapEditor.SpecificationEditor.SetNewKey | frontend/src/components/forms/ProductSpecificationInput.tsx:93 | only the key input changes |
| SpecMapEditor.SpecificationEditor.SetNewValue | frontend/src/components/forms/ProductSpecificationInput.tsx:99 | only the value input changes |
| SpecMapEditor.SpecificationEditor.HandleAddSpecification | frontend/src/components/forms/ProductSpecificationInput.tsx:36-47 | a blank key or value changes nothing; otherwise the trimmed key maps to the trimmed value, the rest is kept, the new map is emitted and both inputs clear; the loading flag and store error are kept |
| SpecMapEditor.SpecificationEditor.HandleRemoveSpecification | frontend/src/components/forms/ProductSpecificationInput.tsx:49-54 | only that key goes, the rest is kept, and the new map is emitted; the inputs, loading flag and store error are kept |
| SpecMapEditor.SpecificationEditor.HandleFileUpload | frontend/src/components/forms/ProductSpecificationInput.tsx:56-68 | without a file or callback nothing happens; a failure sets 'Failed to upload specification file'; loading ends; the dictionary and both inputs are kept |
| ContextInput.SuggestionClick | frontend/src/components/forms/CommunicationContextInput.tsx:35-39 | "• s\n" on an empty value, else value + "\n• s\n": the old text is a prefix and the bullet line ends the new text |
| ContextInput.KeyDown | frontend/src/components/forms/CommunicationContextInput.tsx:41-50 | only Enter changes the value: it appends "\n", or "\n• " with Shift |
| ContextInput.ClicksListSuggestions | frontend/src/components/forms/CommunicationContextInput.tsx:35-39 | clicking suggestions in turn from empty lists each on its own bullet line |
| ContextInput.SuggestionsPanel.constructor | frontend/src/components/forms/CommunicationContextInput.tsx:33 | the suggestions start hidden |
| ContextInput.SuggestionsPanel.Toggle | frontend/src/components/forms/CommunicationContextInput.tsx:61-63 | each click flips visibility and changes the button's caption |
| RateLimiting.InitialLimit | backend/quote_ai/api/middleware/rate_limiting.py:11 | the import succeeds exactly when int() accepts RATE_LIMIT, or 100 when unset |
| RateLimiting.InitialLimitValues | backend/quote_ai/api/middleware/rate_limiting.py:11 | unset gives 100, a printed number gives that number |
| RateLimiting.TruncToInt | backend/quote_ai/api/middleware/rate_limiting.py:69 | int() of a float truncates toward zero |
| RateLimiting.ClientKey | backend/quote_ai/api/middleware/rate_limiting.py:37-41 | the first X-Forwarded-For entry trimmed, else the peer host, else 127.0.0.1 |
| RateLimiting.CurrentWindow | backend/quote_ai/api/middleware/rate_limiting.py:46-55 | a new client or a window strictly older than the window length starts over at now with count 0; otherwise the stored entry |
| RateLimiting.Admit | backend/quote_ai/api/middleware/rate_limiting.py:46-65 | admitted exactly when the current count is below the limit; admission adds 1, refusal changes nothing |
| RateLimiting.AdmitKeepsBound | backend/quote_ai/api/middleware/rate_limiting.py:58-68 | a count within a non-negative limit stays within it, so Remaining is never negative |
| RateLimiting.FreshWindowAdmits | backend/quote_ai/api/middleware/rate_limiting.py:53-68 | the first request of a fresh window is admitted with count 1, leaving limit - 1 |
| RateLimiting.BoundaryDoesNotReset | backend/quote_ai/api/middleware/rate_limiting.py:53 | a window exactly the window length old is not reset |
| RateLimiting.Replay | backend/quote_ai/api/middleware/rate_limiting.py:45-65 | one verdict per request, and an entry exists after any request |
| RateLimiting.Burst | backend/quote_ai/api/middleware/rate_limiting.py:43 | n requests at one instant |
| RateLimiting.BurstFromCount | backend/quote_ai/api/middleware/rate_limiting.py:58-65 | starting k into a window, request i of a burst passes exactly when k + i is below the limit |
| RateLimiting.BurstStaysRefused | backend/quote_ai/api/middleware/rate_limiting.py:58-62 | at the limit every further request of the burst is refused |
| RateLimiting.BurstHitsLimit | backend/quote_ai/api/middleware/rate_limiting.py:46-65 | from a cleared table exactly the first limit requests of a burst pass |
| RateLimiting.HeaderMap | backend/quote_ai/api/middleware/rate_limiting.py:81-87 | exactly the three X-RateLimit headers |
| RateLimiting.HeaderMapRoundTrip | backend/quote_ai/api/middleware/rate_limiting.py:83-87 | int() of each header gives back its number |
| RateLimiting.BoundedAfterAdmit | backend/quote_ai/api/middleware/rate_limiting.py:58-65 | storing the admitted entry keeps every count within the limit |
| RateLimiting.RateLimiter.constructor | backend/quote_ai/api/middleware/rate_limiting.py:10-16 | the configured limit, a 60-second window, an empty table |
| RateLimiting.RateLimiter.ConfigureMiddleware | backend/quote_ai/api/middleware/rate_limiting.py:19-22 | the shared limit and window are overwritten and the table kept |
| RateLimiting.RateLimiter.Dispatch | backend/quote_ai/api/middleware/rate_limiting.py:24-79 | the test environment forwards with Remaining = limit and no counting; otherwise only the client's entry changes, as Admit says, a refusal is 429 with its detail, an admission reports non-negative Remaining; counts stay within the limit |
| RateLimiting.RateLimiter.CountRequest | backend/quote_ai/api/middleware/rate_limiting.py:45-65 | the in-place updates of the client's entry store exactly what Admit computes |
| FileService.MimeOf | backend/quote_ai/services/file_service.py:100 | an allowed extension's MIME type from the table of lines 13-19, else application/octet-stream |
| FileService.Ext | backend/quote_ai/services/file_service.py:28 | the extension ends the name and is empty or a dot followed by a dot-free, slash-free tail |
| FileService.ExtShape | backend/quote_ai/services/file_service.py:28 | the extension is the last dot-segment of the last path component, when something other than dots precedes it |
| FileService.SplitExt | backend/quote_ai/services/file_service.py:28 | root and extension concatenate to the name |
| FileService.ExtOfLastDot | backend/quote_ai/services/file_service.py:28 | in a slash-free name, the extension runs from the last dot when something other than a dot precedes it |
| FileService.ExtOfLeadingDots | backend/quote_ai/services/file_service.py:28 | a name whose last dot has only dots before it (a hidden file such as .pdf) has no extension |
| FileService.Join | backend/quote_ai/services/file_service.py:37 | an absolute second part wins; the second part always ends the result |
| FileService.StoredName | backend/quote_ai/services/file_service.py:33-36 | "quote_id_" prefix for a truthy quote id, "temp_" for none or 0, ending in the extension |
| FileService.ListedIffSameQuote | backend/quote_ai/services/file_service.py:121 | with the name prefix of lines 35-36, a stored file is listed for quote b exactly when it was stored for quote b, so quote 1 never lists quote 10's files |
| FileService.NumeralPrefixUnique | backend/quote_ai/services/file_service.py:121 | "quote_a_…" starts with "quote_b_" only when a == b |
| FileService.FieldPrefixUnique | backend/quote_ai/services/file_service.py:121 | two underscore-free fields each followed by '_' prefix one another only when equal |
| FileService.ExtractorFor | backend/quote_ai/services/file_service.py:61-86 | the PDF reader exactly for .pdf, the text reader exactly for .txt, nothing otherwise |
| FileService.MatchingNames | backend/quote_ai/services/file_service.py:120-121 | exactly the listed names with the quote's prefix |
| FileService.FileStore.constructor | backend/quote_ai/services/file_service.py:11-23 | the directory and what it already holds |
| FileService.FileStore.SaveUploadedFile | backend/quote_ai/services/file_service.py:25-52 | saved exactly when there is a name with an allowed extension, the content is at most 10 MiB and the write succeeds; then stored under the joined stored name, otherwise nothing written |
| FileService.FileStore.ExtractText | backend/quote_ai/services/file_service.py:54-92 | nothing for a missing file or an unsupported extension, otherwise the reader's result |
| FileService.FileStore.GetFilePath | backend/quote_ai/services/file_service.py:94-102 | a result exactly when the joined path exists: that path and its MIME type |
| FileService.FileStore.DeleteFile | backend/quote_ai/services/file_service.py:104-114 | true exactly when the file existed and was removed, and only then is it gone |
| FileService.FileStore.ListFiles | backend/quote_ai/services/file_service.py:116-130 | one entry per matching name in listing order, or [] when listing or any size lookup fails |
| QuotesRouter.ParseQuoteId | backend/quote_ai/api/routers/quotes.py:92-95 | int() of the path text, or 400 'Invalid quote ID format' |
| QuotesRouter.QuoteIdRoundTrip | backend/quote_ai/api/routers/quotes.py:92-95 | a printed id parses back to itself and a blank segment is refused |
| QuotesRouter.FindQuote | backend/quote_ai/api/routers/quotes.py:92-100 | 400 before any lookup, then 404 'Quote not found' exactly when no row has the id, else that row |
| QuotesRouter.FindStoredQuote | backend/quote_ai/api/routers/quotes.py:92-100 | a stored quote is found by its printed id |
| QuotesRouter.CreateQuote | backend/quote_ai/api/routers/quotes.py:47-76 | a spec outside the Literal types gets 422 and stores nothing; otherwise the quote with its single spec and context, with the request's own status and prices, is stored under a fresh id, and nothing else changes |
| QuotesRouter.UpdateQuote | backend/quote_ai/api/routers/quotes.py:128-148 | 400 or 404 change nothing; otherwise only the fields present are written and other quotes stay |
| QuotesRouter.DeleteQuote | backend/quote_ai/api/routers/quotes.py:150-165 | 400 or 404 change nothing; otherwise the quote is gone, reading it again is 404, and other quotes stay |
| QuotesRouter.ReadQuotes | backend/quote_ai/api/routers/quotes.py:78-85 | at most limit quotes, in id order, starting at skip |
| QuotesRouter.FinalPriceMargin | backend/quote_ai/api/routers/quotes.py:237 | the margin is between 0 and 10% for a confidence in [0, 1], none at full confidence, 1.5% at 0.85 |
| QuotesRouter.PdfPayload | backend/quote_ai/api/routers/quotes.py:195-251 | only the first spec and first context are used; prices are present exactly with a spec and a successful prediction |
| QuotesRouter.QuotePdf | backend/quote_ai/api/routers/quotes.py:175-251 | the lookup's 400 or 404, else exactly PdfPayload of the found quote and its customer: first spec and first context only, prices only with a spec and a successful prediction |
| QuotesRouter.UploadFile | backend/quote_ai/api/routers/quotes.py:292-298 | saved without a quote id (a "temp_" name) with status success, or 400 and nothing stored |
| QuotesRouter.FailureTextInjective | backend/quote_ai/api/routers/quotes.py:316-332 | each failure has its own message |
| QuotesRouter.Classify | backend/quote_ai/api/routers/quotes.py:312-332 | missing file, unreadable file, blank text, AI HTTP error and any other AI error in that order; a context only for readable non-blank text and an AI answer |
| QuotesRouter.ProcessUploadedFile | backend/quote_ai/api/routers/quotes.py:300-335 | never raises; the reply carries the requested path and exactly one of a context or the failure's message |
| QuotesRouter.ProcessUploadedFileAsWritten | backend/quote_ai/api/routers/quotes.py:325-332 | no reply ever carries a context |
| QuotesRouter.ProcessArityBug | backend/quote_ai/api/routers/quotes.py:325 | a readable non-blank file gets the generic error as written, while the intended call returns the context |
| QuotesRouter.DownloadFile | backend/quote_ai/api/routers/quotes.py:337-368 | 404 exactly for a missing path, else the media type of the lower-cased extension |
| QuotesRouter.DownloadTypesAgree | backend/quote_ai/api/routers/quotes.py:355-362 | the router's media-type table equals the file service's |
| QuotesRouter.DeleteFileEndpoint | backend/quote_ai/api/routers/quotes.py:375-382 | always the success message, whether or not a file was removed |
| QuotesRouter.GetQuoteFilesAsWritten | backend/quote_ai/api/routers/quotes.py:370-373 | every request fails with 500 |
| QuotesRouter.GetQuoteFiles | backend/quote_ai/api/routers/quotes.py:370-373 | one path per stored file of that quote in listing order, each with the quote's prefix, or [] on failure |
| CustomersRouter.ReadCustomer | backend/quote_ai/api/routers/customers.py:32-40 | the stored record, or 404 'Customer not found' exactly when there is none |
| CustomersRouter.ReadCustomers | backend/quote_ai/api/routers/customers.py:23-30 | at most limit customers, in id order, starting at skip |
| CustomersRouter.CreateCustomer | backend/quote_ai/api/routers/customers.py:12-21 | exactly the submitted record under a fresh id, nothing else changed |
| CustomersRouter.UpdateCustomer | backend/quote_ai/api/routers/customers.py:42-57 | 404 for an unknown id and nothing changes; otherwise only the set fields change |
| CustomersRouter.DeleteCustomer | backend/quote_ai/api/routers/customers.py:59-70 | 404 for an unknown id; otherwise the record is gone, reading it is 404, others stay |
| Tables.Lookup | backend/quote_ai/api/routers/customers.py:37 | a record exactly when some row has the id, and it is that row's |
| Tables.LookupOfMember | backend/quote_ai/api/routers/customers.py:37 | with ids increasing, looking up a stored row's id finds that row |
| Tables.LookupAppend | backend/quote_ai/api/routers/customers.py:17-20 | appending a row makes its id find it and leaves every other lookup as it was |
| Tables.LookupAfterReplace | backend/quote_ai/api/routers/customers.py:52-56 | overwriting a row's record changes the lookup of that id only |
| Tables.LookupAfterRemove | backend/quote_ai/api/routers/customers.py:68-69 | after a delete the id is not found and other lookups are unchanged |
| Tables.RemoveKeySubsequence | backend/quote_ai/api/routers/customers.py:68-69 | deleting rows keeps the ids increasing |
| Tables.Page | backend/quote_ai/api/routers/customers.py:29 | the rows from skip, at most limit of them, in order |
| Tables.Table.Insert | backend/quote_ai/api/routers/customers.py:17-20 | a fresh id holds the record and other ids are unchanged |
| Tables.Table.Replace | backend/quote_ai/api/routers/customers.py:52-56 | the id holds the new record and other ids are unchanged |
| Tables.Table.Delete | backend/quote_ai/api/routers/customers.py:68-69 | the id is gone and other ids are unchanged |
| Schemas.Patch.Apply | backend/quote_ai/core/schemas.py:15-20 | a set field takes the new value, an unset one keeps the old |
| Schemas.SpecLiteralErrors | backend/quote_ai/core/schemas.py:30-37 | no errors exactly when alloy, surface treatment and complexity are among their Literal values, and each bad field is named |
| Schemas.ValidateCreate | backend/quote_ai/core/schemas.py:30-37 | a create request passes exactly when its spec meets the Literal types; otherwise 422 |
| Schemas.ContextFromText | backend/quote_ai/core/schemas.py:49-53 | only context_text is required; the other three default to None |
| Schemas.QuoteFromCreate | backend/quote_ai/core/schemas.py:65-76 | the request's status and prices are kept, status draft and no prices only when left out; exactly one spec and one context |
| Schemas.ApplyCustomerUpdate | backend/quote_ai/core/schemas.py:15-20 | each customer field changes exactly when set |
| Schemas.ApplyQuoteUpdate | backend/quote_ai/core/schemas.py:78-84 | each quote field changes exactly when set; the customer and children never change |
| Schemas.QuoteUpdateLaws | backend/quote_ai/core/schemas.py:78-84 | an empty update changes nothing and applying an update twice is applying it once |
| Schemas.CustomerUpdateLaws | backend/quote_ai/core/schemas.py:15-20 | the same for customers |
| ModelTraining.EncodeComplexity | backend/quote_ai/services/model_training.py:120-127 | 1 to 3; low (any case) is 1, high is 3, medium and anything else 2 |
| ModelTraining.EncodeIgnoresCase | backend/quote_ai/services/model_training.py:127 | the code depends only on the lower-cased text |
| ModelTraining.EncodeExamples | backend/quote_ai/services/model_training.py:120-127 | low 1, medium 2, high 3, unknown 2, HIGH 3 |
| ModelTraining.PriceOf | backend/quote_ai/services/model_training.py:33 | the final price when truthy, else the predicted price |
| ModelTraining.RowOf | backend/quote_ai/services/model_training.py:27-36 | a missing complexity raises; otherwise a row exactly when every value is present |
| ModelTraining.SourcesOf | backend/quote_ai/services/model_training.py:26 | one pair per specification of the quote, in order |
| ModelTraining.Rows | backend/quote_ai/services/model_training.py:25-36 | an error exactly when some pair lacks a complexity; otherwise at most one row per pair, each encoded 1 to 3 |
| ModelTraining.PrepareTrainingData | backend/quote_ai/services/model_training.py:21-44 | the nested loop yields the rows of every pair in order, or the first error |
| ModelTraining.AddQuoteRows | backend/quote_ai/services/model_training.py:26-36 | the inner loop adds one quote's rows |
| ModelTraining.RowsErrorPersists | backend/quote_ai/services/model_training.py:42-44 | once a pair raises, later pairs do not matter |
| ModelTraining.RowsComeFromSources | backend/quote_ai/services/model_training.py:25-36 | every row is built from one visited pair |
| ModelTraining.SourcesCover | backend/quote_ai/services/model_training.py:25-26 | the loop visits every specification of every quote and nothing else |
| ModelTraining.SourcesVisitAll | backend/quote_ai/services/model_training.py:25-26 | every specification of every quote is visited |
| ModelTraining.SourcesVisitOnly | backend/quote_ai/services/model_training.py:25-26 | everything visited is a specification of one of the quotes, paired with that quote |
| ModelTraining.TrainingDataFailsIff | backend/quote_ai/services/model_training.py:21-44 | the preparation raises exactly when some specification lacks a complexity |
| ModelTraining.QuoteWithoutSpecs | backend/quote_ai/services/model_training.py:26 | a quote without specifications adds nothing |
| AiService.Init | backend/quote_ai/services/ai_service.py:25-46 | test gets placeholder clients; openai needs a non-empty key; ollama needs nothing; anything else raises 'Unsupported AI provider' |
| AiService.InitSucceedsIff | backend/quote_ai/services/ai_service.py:33-46 | outside test the constructor succeeds exactly for keyed openai or for ollama |
| AiService.PredictComplexity | backend/quote_ai/services/ai_service.py:109-110 | the inline map of the lower-cased text, 2 by default |
| AiService.ComplexityEncodingsAgree | backend/quote_ai/services/ai_service.py:383-390 | the training encoder and the inline map of lines 109-110 agree on every string |
| AiService.Confidence | backend/quote_ai/services/ai_service.py:148-152 | the constant 0.85 |
| AiService.ParseContext | backend/quote_ai/services/ai_service.py:255-262 | urgency medium, the reply as custom requests, empty past agreements, nothing else |
| AiService.ParseContextInjective | backend/quote_ai/services/ai_service.py:255-262 | different replies give different contexts |
| AiService.Wrapped | backend/quote_ai/services/ai_service.py:251-253 | whatever escapes becomes a 500 |
| AiService.OllamaFrom | backend/quote_ai/services/ai_service.py:213-246 | the first answered attempt is parsed; failures before the last move on; the last failure raises its own error; at most three attempts |
| AiService.OllamaExtract | backend/quote_ai/services/ai_service.py:209-246 | the loop makes what OllamaFrom describes, with one pause between consecutive attempts |
| AiService.ExtractContext | backend/quote_ai/services/ai_service.py:154-253 | test returns the fixed context with no request; openai makes one request; ollama follows the retry loop; anything else fails; every escaping failure is a 500 |
| AiService.TimeoutBecomes500 | backend/quote_ai/services/ai_service.py:235-253 | three timeouts raise 504 inside, which the outer handler turns into 500 |
| AiService.LateAnswerSuffices | backend/quote_ai/services/ai_service.py:213-246 | two failures then an answer give the same context after three attempts |
| Numerals.PyInt | backend/quote_ai/api/routers/quotes.py:93 | int() of text: optional surrounding whitespace and sign, decimal digits with single underscores (ASCII digits only, see Left out) |
| Numerals.PyIntRoundTrip | backend/quote_ai/api/routers/quotes.py:93 | int() of a printed integer is that integer |
| Numerals.JsParseInt | frontend/src/components/quote/QuoteGenerationForm.tsx:86 | parseInt: the leading digits after whitespace and sign, in base 16 after "0x" or "0X" and in base 10 otherwise, or NaN; blank text is NaN |
| Numerals.JsParseIntRoundTrip | frontend/src/components/quote/QuoteGenerationForm.tsx:86 | parseInt of a printed integer is that integer |
| Numerals.JsParseIntHexExamples | frontend/src/components/quote/QuoteGenerationForm.tsx:86 | "0x1A" reads as 26, "-0x10" as -16, and a bare "0x" is NaN |
| Numerals.JsNumber | frontend/src/utils/validation.ts:51-56 | Number() of decimal text, NaN otherwise (no exponent, hex, binary or octal forms, see Left out) |
| Numerals.JsNumberRoundTrip | frontend/src/utils/validation.ts:51-56 | Number() of a printed integer is that integer |
| Text.TrimEmptyIffBlank | frontend/src/utils/validation.ts:17 | trim is empty exactly when the text is all whitespace |
| Text.LastFieldIsLastOfSplit | frontend/src/components/ui/FileUpload.tsx:38 | the text after the last separator is the last element of the split, as split('.').pop() gives it |
| Text.LastOfSplitShape | frontend/src/components/ui/FileUpload.tsx:38 | the split's last element ends the text, holds no separator and follows a separator when shorter than the text |
| Text.SplitJoinRoundTrip | backend/quote_ai/api/middleware/rate_limiting.py:39 | joining the split fields with the separator gives the text back |
| Text.SplitHead | backend/quote_ai/api/middleware/rate_limiting.py:39 | split(",")[0] is the first field |
| Text.Split | backend/quote_ai/api/middleware/rate_limiting.py:39 | split gives at least one field and no field contains the separator |
| Text.FirstField | backend/quote_ai/api/middleware/rate_limiting.py:39 | the first field is a separator-free prefix, followed by the separator when shorter than the text |
| Text.TrimIdempotent | frontend/src/utils/validation.ts:17 | trimming twice is trimming once |

## Left out

- I/O, the DOM, timers, scrolling, console output and logging. Where the source waits on them, the outcome is an input.
- Concurrency. Parallel uploads are sequences of completion events in any order. Async calls are sequential.
- The database. It is an in-memory table keyed by ids that grow by one. Joins are done by looking the customer up by id.
- The PDF renderer, the price model (scikit-learn), training and evaluation, and the OpenAI and Ollama HTTP clients. Their results are inputs.
- Floating point. Prices, confidences and timestamps are exact `real`s.
- JSON parsing and serialisation. The specification editor takes the parsed value as an input and records the emitted dictionaries.
- The ISO formatting of dates. Validity dates stay in milliseconds.
- Case folding is ASCII only.
- Text.IsSpace: whitespace is ASCII only. Python's `strip` and `int()` also remove U+001C to U+001F, and both languages remove non-ASCII spaces. The model trims such text less than the source does.
- Schemas.ValidateCreate: only the `Literal` checks of the specification are modelled. Missing fields and wrong types are not, and the 422 detail is the list of failing field names, not pydantic's error objects.
- QuotesRouter.ReadQuotes and CustomersRouter.ReadCustomers: `skip` and `limit` are natural numbers. The routes accept any `int` and pass a negative value on to the database; that case is not modelled.
- Numerals.JsNumber: reads signed decimal text with an optional fraction. Exponents, hexadecimal (`0x`), binary (`0b`), octal (`0o`) and Infinity read as NaN, although `Number()` reads `"0b101"` as 5 and `"0o7"` as 7.
- Numerals.PyInt: only ASCII digits are read. Python's `int()` also reads every other Unicode decimal digit (`int("١٢") == 12`), so such a path segment is refused with 400 here and found in the source.
- Validation.ToNumber: form values are integers, strings, arrays or null. There are no fractional numbers.
- SpecForm.NumberError: the browser's number input is taken as already read. An empty input or NaN is a missing value.
- FileUpload.MaxSizeText: prints whole MiB only. A limit that is not a multiple of 1 MiB prints as a decimal fraction in the source.
- FileUpload.FileUploader.UploadFile: the progress interval keeps running after a failed upload. Only the ticks before the upload settles are modelled.
- Toasts.ToastProvider.ShowToast: the id comes from Math.random and is taken as an input. Uniqueness is a precondition of the lemmas, not a guarantee of the source.
- QuoteWizard.BuildPayload: the reference number `REF-<now>` is built, but no contract states it.
- The routes in `backend/quote_ai/api/routes/quotes.py`, `generate_quote`, `predict_price`, `process_quote_file` and the remaining pages and components: they are not part of this model.

## Findings

| source | as written | input that shows it | evidently intended | confidence | as-written member | corrected member |
|---|---|---|---|---|---|---|
| frontend/src/app/page.tsx:64-66 | only the call with retryCount 0 clears isLoading, and every retry sets it again | a first reply that throws 'Rate limit exceeded', then an array of quotes (HomePage.RetryLeavesSpinner) | the spinner ends when the retry chain ends | not executed | HomePage.Home.LoadAsWritten | HomePage.Home.Load |
| backend/quote_ai/api/routers/quotes.py:325 | extract_context is called with the text only, but it requires product_specs too, so the call raises TypeError | any uploaded file with non-blank readable text (QuotesRouter.ProcessArityBug) | the AI context is returned for a readable file | not executed | QuotesRouter.ProcessUploadedFileAsWritten | QuotesRouter.ProcessUploadedFile |
| backend/quote_ai/api/routers/quotes.py:370-373 | get_quote_files calls a file-service method that does not exist, so every request raises AttributeError | any quote id, for example 1 | the paths of the quote's stored files, from list_files | not executed | QuotesRouter.GetQuoteFilesAsWritten | QuotesRouter.GetQuoteFiles |
