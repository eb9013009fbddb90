// The quote-generation wizard (`QuoteGenerationForm`): customer selection,
// the list of in-flight uploads keyed by a client `tempId`, the busy flag
// derived from it, and quote generation from the specification form and the
// latest extracted context. `Date.now()` is an input; each upload's outcome
// arrives later as a separate `updateFileInfo` call, in any order.
module QuoteWizard {
  import opened Wrappers
  import opened Text
  import opened Numerals
  import opened Schemas
  import opened Seqs
  import opened SpecForm
  import opened Toasts
  import AiService

  datatype WizardCustomer = WizardCustomer(id: int, company_name: String, contact_person: String)

  /** One tracked upload. */
  datatype FileProcessResult = FileProcessResult(
    tempId: int,
    filePath: String,
    context: Option<ContextDict>,
    error: Option<String>,
    isLoading: bool)

  function TempIdOf(r: FileProcessResult): int
  {
    r.tempId
  }

  /** `prev.some(info => info.isLoading)`. */
  predicate AnyLoading(list: seq<FileProcessResult>)
  {
    exists i :: 0 <= i < |list| && list[i].isLoading
  }

  ghost predicate TempIdsUnique(list: seq<FileProcessResult>)
  {
    forall i, j :: 0 <= i < j < |list| ==> list[i].tempId != list[j].tempId
  }

  /** The upsert of `updateFileInfo`: a known `tempId` is replaced in place,
      an unknown one is appended only while it is loading. */
  function Upsert(list: seq<FileProcessResult>, r: FileProcessResult): seq<FileProcessResult>
  {
    var i := IndexOfKey(list, TempIdOf, r.tempId);
    if i >= 0 then list[i := r] else if r.isLoading then list + [r] else list
  }

  /** The three cases of the upsert. */
  lemma {:induction false} UpsertCases(list: seq<FileProcessResult>, r: FileProcessResult)
    ensures forall j :: 0 <= j < |list| && list[j].tempId == r.tempId
                        && (forall k :: 0 <= k < j ==> list[k].tempId != r.tempId) ==>
              Upsert(list, r) == list[j := r]
    ensures (forall j :: 0 <= j < |list| ==> list[j].tempId != r.tempId) ==>
              Upsert(list, r) == if r.isLoading then list + [r] else list
  {
    var i := IndexOfKey(list, TempIdOf, r.tempId);
    forall j | 0 <= j < |list| && list[j].tempId == r.tempId
                && (forall k :: 0 <= k < j ==> list[k].tempId != r.tempId)
      ensures i == j
    {
      assert TempIdOf(list[j]) == r.tempId;
    }
  }

  /** The upsert never creates a second entry for a `tempId`. */
  lemma {:induction false} UpsertKeepsUnique(list: seq<FileProcessResult>, r: FileProcessResult)
    requires TempIdsUnique(list)
    ensures TempIdsUnique(Upsert(list, r))
  {
  }

  /** The `tempId`s of the entries still loading. */
  ghost function LoadingIds(list: seq<FileProcessResult>): set<int>
  {
    set i | 0 <= i < |list| && list[i].isLoading :: list[i].tempId
  }

  lemma {:induction false} LoadingIdsEmpty(list: seq<FileProcessResult>)
    ensures LoadingIds(list) == {} <==> !AnyLoading(list)
  {
    if AnyLoading(list) {
      var i :| 0 <= i < |list| && list[i].isLoading;
      assert list[i].tempId in LoadingIds(list);
    }
  }

  /** A finished upload takes its `tempId` out of the loading set and
      changes nothing else about it. */
  lemma {:induction false} UpsertCompletion(list: seq<FileProcessResult>, r: FileProcessResult)
    requires TempIdsUnique(list) && !r.isLoading
    ensures LoadingIds(Upsert(list, r)) == LoadingIds(list) - {r.tempId}
  {
    var i := IndexOfKey(list, TempIdOf, r.tempId);
    var u := Upsert(list, r);
    forall id | id in LoadingIds(u) ensures id in LoadingIds(list) - {r.tempId} {
      var j :| 0 <= j < |u| && u[j].isLoading && u[j].tempId == id;
      assert j != i && u[j] == list[j];
    }
    forall id | id in LoadingIds(list) - {r.tempId} ensures id in LoadingIds(u) {
      var j :| 0 <= j < |list| && list[j].isLoading && list[j].tempId == id;
      assert u[j] == list[j];
    }
  }

  /** A sequence of `updateFileInfo` calls, in arrival order. */
  function ApplyAll(list: seq<FileProcessResult>, rs: seq<FileProcessResult>): seq<FileProcessResult>
    decreases |rs|
  {
    if |rs| == 0 then list else ApplyAll(Upsert(list, rs[0]), rs[1..])
  }

  ghost function TempIds(rs: seq<FileProcessResult>): set<int>
  {
    set k | 0 <= k < |rs| :: rs[k].tempId
  }

  /** Finished uploads, arriving in any order, remove exactly their own
      `tempId`s from the loading set. */
  lemma {:induction false} ApplyCompletions(list: seq<FileProcessResult>, rs: seq<FileProcessResult>)
    requires TempIdsUnique(list)
    requires forall k :: 0 <= k < |rs| ==> !rs[k].isLoading
    ensures TempIdsUnique(ApplyAll(list, rs))
    ensures LoadingIds(ApplyAll(list, rs)) == LoadingIds(list) - TempIds(rs)
    decreases |rs|
  {
    if |rs| > 0 {
      var next := Upsert(list, rs[0]);
      UpsertKeepsUnique(list, rs[0]);
      UpsertCompletion(list, rs[0]);
      ApplyCompletions(next, rs[1..]);
      assert TempIds(rs) == {rs[0].tempId} + TempIds(rs[1..]) by {
        forall id | id in TempIds(rs) ensures id in {rs[0].tempId} + TempIds(rs[1..]) {
          var k :| 0 <= k < |rs| && rs[k].tempId == id;
          if k > 0 {
            assert rs[1..][k - 1].tempId == id;
          }
        }
        forall id | id in TempIds(rs[1..]) ensures id in TempIds(rs) {
          var k :| 0 <= k < |rs[1..]| && rs[1..][k].tempId == id;
          assert rs[k + 1].tempId == id;
        }
      }
    } else {
      assert TempIds(rs) == {};
    }
  }

  /** Once every tracked upload has reported back, whatever the order, the
      wizard is no longer busy. */
  lemma {:induction false} CompletionsClearBusy(list: seq<FileProcessResult>, rs: seq<FileProcessResult>)
    requires TempIdsUnique(list)
    requires forall k :: 0 <= k < |rs| ==> !rs[k].isLoading
    requires forall i :: 0 <= i < |list| ==> list[i].tempId in TempIds(rs)
    ensures !AnyLoading(ApplyAll(list, rs))
  {
    ApplyCompletions(list, rs);
    LoadingIdsEmpty(ApplyAll(list, rs));
  }

  // ---------------------------------------------------------------------
  // The communication context sent with a new quote.

  /** `!info.isLoading && !info.error && info.context`. */
  predicate Usable(f: FileProcessResult)
  {
    !f.isLoading && (f.error.None? || f.error.value == "") && f.context.Some?
  }

  /** `[...list].reverse().find(...)`: the last usable entry. */
  function LastUsable(list: seq<FileProcessResult>): (r: Option<nat>)
    ensures r.Some? ==> r.value < |list| && Usable(list[r.value])
                        && forall k :: r.value < k < |list| ==> !Usable(list[k])
    ensures r.None? ==> forall k :: 0 <= k < |list| ==> !Usable(list[k])
  {
    if |list| == 0 then None
    else if Usable(list[|list| - 1]) then Some(|list| - 1)
    else LastUsable(list[..|list| - 1])
  }

  /** `context[key] || fallback`. */
  function Pick(ctx: ContextDict, key: String, fallback: String): (r: String)
    ensures key in ctx && ctx[key] != "" ==> r == ctx[key]
    ensures !(key in ctx && ctx[key] != "") ==> r == fallback
  {
    if key in ctx && ctx[key] != "" then ctx[key] else fallback
  }

  const DefaultCommContext := CommunicationContext("-", Some("Normal"), Some("-"), Some("-"))

  function FromExtraction(ctx: ContextDict): CommunicationContext
  {
    CommunicationContext(Pick(ctx, "context_text", "Extracted from file"),
                         Some(Pick(ctx, "extracted_urgency", "Normal")),
                         Some(Pick(ctx, "custom_requests", "None")),
                         Some(Pick(ctx, "past_agreements", "None")))
  }

  /** The context of the last usable upload, or the fixed default. */
  function ChooseContext(list: seq<FileProcessResult>): CommunicationContext
  {
    match LastUsable(list)
    case None => DefaultCommContext
    case Some(i) => FromExtraction(list[i].context.value)
  }

  /** Without a usable upload the default is sent; otherwise the context of
      the latest usable one, whatever came after it. */
  lemma {:induction false} ChooseContextSpec(list: seq<FileProcessResult>, extra: seq<FileProcessResult>)
    requires forall k :: 0 <= k < |extra| ==> !Usable(extra[k])
    ensures (forall k :: 0 <= k < |list| ==> !Usable(list[k])) ==> ChooseContext(list) == DefaultCommContext
    ensures ChooseContext(list + extra) == ChooseContext(list)
  {
    LastUsableIgnoresTail(list, extra);
  }

  lemma {:induction false} LastUsableIgnoresTail(list: seq<FileProcessResult>, extra: seq<FileProcessResult>)
    requires forall k :: 0 <= k < |extra| ==> !Usable(extra[k])
    ensures LastUsable(list + extra) == LastUsable(list)
    decreases |extra|
  {
    if |extra| == 0 {
      assert list + extra == list;
    } else {
      var all := list + extra;
      var front := extra[..|extra| - 1];
      assert all[..|all| - 1] == list + front;
      assert all[|all| - 1] == extra[|extra| - 1];
      LastUsableIgnoresTail(list, front);
    }
  }

  /** What the server's extraction yields once picked: no `context_text`,
      so 'Extracted from file'; urgency 'medium'; the reply text, or 'None'
      when empty; and 'None' for the empty past agreements. */
  lemma {:induction false} ServerContextPicked(text: String)
    ensures FromExtraction(AiService.ParseContext(text))
            == CommunicationContext("Extracted from file", Some("medium"),
                                    Some(if text == "" then "None" else text), Some("None"))
  {
    var ctx := AiService.ParseContext(text);
    assert "context_text" !in ctx;
  }

  // ---------------------------------------------------------------------
  // The create-quote request.

  /** 30 days in milliseconds. */
  const ValidityMs := 30 * 24 * 60 * 60 * 1000

  /** `CreateQuoteDto`; the validity date is kept in milliseconds. */
  datatype CreateQuoteDto = CreateQuoteDto(
    title: String,
    reference_number: String,
    validity_date: int,
    customer_id: int,
    predicted_price: Option<real>,
    final_price: Option<real>,
    status: String,
    product_specs: ProductSpec,
    communication_context: CommunicationContext)

  function BuildPayload(c: WizardCustomer, spec: ProductSpec, ctx: CommunicationContext, now: int): (r: CreateQuoteDto)
    ensures r.title == "Quote for " + c.company_name && r.customer_id == c.id
    ensures r.status == "pending" && r.predicted_price.None? && r.final_price.None?
    ensures r.validity_date == now + 2592000000
    ensures r.product_specs == spec && r.communication_context == ctx
  {
    CreateQuoteDto("Quote for " + c.company_name, "REF-" + IntToString(now), now + ValidityMs, c.id,
                   None, None, "pending", spec, ctx)
  }

  /** The JSON body the server reads from a `CreateQuoteDto`: every field is
      sent, and null prices read as absent. The ISO validity date and the
      server's datetime are the same abstract timestamp. */
  function AsRequest(d: CreateQuoteDto): (r: QuoteCreate)
    ensures r.status == Some(d.status)
    ensures r.predicted_price == d.predicted_price && r.final_price == d.final_price
    ensures r.product_specs == d.product_specs && r.communication_context == d.communication_context
  {
    QuoteCreate(d.title, d.reference_number, d.validity_date, d.customer_id, d.predicted_price,
                d.final_price, Some(d.status), d.product_specs, d.communication_context)
  }

  /** The wizard's payload passes the server's `Literal` checks whenever its
      specification does, and is stored with status "pending" and no
      prices, not with the "draft" default. */
  lemma {:induction false} PayloadStoredPending(c: WizardCustomer, spec: ProductSpec,
                                                ctx: CommunicationContext, now: int)
    requires SpecLiteralErrors(spec) == []
    ensures ValidateCreate(AsRequest(BuildPayload(c, spec, ctx, now))).Ok?
    ensures var q := QuoteFromCreate(AsRequest(BuildPayload(c, spec, ctx, now)));
            q.status == "pending" && q.predicted_price.None? && q.final_price.None?
            && q.customer_id == c.id && q.product_specs == [spec]
  {
  }

  /** How `createQuote` answered: a quote (whose id may be missing), or a
      thrown error with its message. */
  datatype CreateReply = Created(id: Option<int>) | Failed(message: String)

  /** The created quote's id when it is truthy. */
  function CreatedId(reply: CreateReply): (r: Option<int>)
    ensures r.Some? <==> reply.Created? && reply.id.Some? && reply.id.value != 0
  {
    if reply.Created? && reply.id.Some? && reply.id.value != 0 then reply.id else None
  }

  /** The error text of a failed generation. */
  function GenerateError(reply: CreateReply): (r: String)
    ensures r != ""
  {
    match reply
    case Created(_) => "Failed to create quote in database."
    case Failed(m) => if m != "" then m else "Failed to create quote."
  }

  function CustomerIdOf(c: WizardCustomer): int
  {
    c.id
  }

  /** `customers.find(c => c.id === id)`: the first customer with the id;
      `NaN` matches nothing. */
  function FindCustomer(cs: seq<WizardCustomer>, id: Option<int>): (r: Option<WizardCustomer>)
    ensures r.Some? ==> id.Some? && r.value in cs && r.value.id == id.value
    ensures r.None? ==> id.None? || forall k :: 0 <= k < |cs| ==> cs[k].id != id.value
    ensures r.Some? ==> 0 <= IndexOfKey(cs, CustomerIdOf, id.value) && r.value == cs[IndexOfKey(cs, CustomerIdOf, id.value)]
  {
    if id.None? || |cs| == 0 then None
    else if cs[0].id == id.value then Some(cs[0])
    else FindCustomer(cs[1..], id)
  }

  class Wizard {
    var selectedCustomer: Option<WizardCustomer>
    var isLoading: bool
    var error: Option<String>
    var quoteId: Option<String>
    var quote: Option<int>
    var uploads: seq<FileProcessResult>
    var isFileProcessing: bool
    var isGenerationComplete: bool

    /** The busy flag always reflects the list, and `tempId`s are unique. */
    ghost predicate Valid()
      reads this
    {
      isFileProcessing == AnyLoading(uploads) && TempIdsUnique(uploads)
    }

    constructor()
      ensures Valid()
      ensures selectedCustomer.None? && !isLoading && error.None? && quoteId.None? && quote.None?
      ensures uploads == [] && !isFileProcessing && !isGenerationComplete
    {
      selectedCustomer, isLoading, error, quoteId, quote := None, false, None, None, None;
      uploads, isFileProcessing, isGenerationComplete := [], false, false;
    }

    /** `updateFileInfo`: the upsert, then the busy flag recomputed. */
    method UpdateFileInfo(result: FileProcessResult)
      requires Valid()
      modifies this
      ensures Valid()
      ensures uploads == Upsert(old(uploads), result)
      ensures selectedCustomer == old(selectedCustomer) && isLoading == old(isLoading) && error == old(error)
      ensures quoteId == old(quoteId) && quote == old(quote) && isGenerationComplete == old(isGenerationComplete)
    {
      UpsertKeepsUnique(uploads, result);
      var existingIndex := FindIndex(uploads, TempIdOf, result.tempId);
      var newState := uploads;
      if existingIndex > -1 {
        newState := newState[existingIndex := result];
      } else if result.isLoading {
        newState := newState + [result];
      }
      isFileProcessing := AnyLoading(newState);
      uploads := newState;
    }

    /** `handleCustomerSelect`: the customer whose id `parseInt` reads from
        the option value, and everything else back to its initial state. */
    method HandleCustomerSelect(customers: seq<WizardCustomer>, value: String)
      modifies this
      ensures Valid()
      ensures selectedCustomer == FindCustomer(customers, JsParseInt(value))
      ensures quoteId.None? && quote.None? && uploads == [] && !isGenerationComplete
      ensures error.None? && !isLoading && !isFileProcessing
    {
      var selectedCustomerId := JsParseInt(value);
      selectedCustomer := FindCustomer(customers, selectedCustomerId);
      quoteId := None;
      quote := None;
      uploads := [];
      isGenerationComplete := false;
      error := None;
      isLoading := false;
      isFileProcessing := false;
    }

    /** `handleFileUpload`: refused without a file or with an invalid form;
        otherwise tracked as loading under `tempId = now`. */
    method HandleFileUpload(fileName: Option<String>, form: SpecFormValues, now: int) returns (r: Result<int, String>)
      requires Valid()
      modifies this
      ensures Valid()
      ensures fileName.None? ==> r == Err("No file selected") && error == Some("No file selected")
      ensures fileName.Some? && GetFormData(form).None? ==>
                r == Err("Product specifications required")
                && error == Some("Please fill in the product specifications first")
      ensures r.Err? ==> uploads == old(uploads)
      ensures r.Ok? <==> fileName.Some? && GetFormData(form).Some?
      ensures r.Ok? ==> r.value == now && error == old(error)
                        && uploads == Upsert(old(uploads), FileProcessResult(now, fileName.value, None, None, true))
                        && isFileProcessing
      ensures selectedCustomer == old(selectedCustomer) && isLoading == old(isLoading)
      ensures quoteId == old(quoteId) && quote == old(quote) && isGenerationComplete == old(isGenerationComplete)
    {
      if fileName.None? {
        error := Some("No file selected");
        return Err("No file selected");
      }
      var spec := GetFormData(form);
      if spec.None? {
        error := Some("Please fill in the product specifications first");
        return Err("Product specifications required");
      }
      var tempId := now;
      var entry := FileProcessResult(tempId, fileName.value, None, None, true);
      UpdateFileInfo(entry);
      UpsertMakesLoading(old(uploads), entry);
      r := Ok(tempId);
    }

    /** `handleGenerateQuote`. Without a customer or with an invalid form
        only the error changes. Otherwise the payload is built and sent; a
        reply with a truthy id completes the wizard, anything else records
        the error. Loading is off afterwards. */
    method HandleGenerateQuote(form: SpecFormValues, now: int, reply: CreateReply)
      returns (payload: Option<CreateQuoteDto>, toast: Option<ToastRequest>)
      requires Valid()
      modifies this
      ensures Valid()
      ensures uploads == old(uploads) && selectedCustomer == old(selectedCustomer)
      ensures old(selectedCustomer).None? ==>
                error == Some("Please select a customer.") && payload.None? && toast.None?
                && isLoading == old(isLoading) && isGenerationComplete == old(isGenerationComplete)
                && quoteId == old(quoteId) && quote == old(quote)
      ensures old(selectedCustomer).Some? && GetFormData(form).None? ==>
                error == Some("Please correct errors in the Product Specifications form.")
                && payload.None? && toast.None?
                && isLoading == old(isLoading) && isGenerationComplete == old(isGenerationComplete)
                && quoteId == old(quoteId) && quote == old(quote)
      ensures old(selectedCustomer).Some? && GetFormData(form).Some? ==>
                payload == Some(BuildPayload(old(selectedCustomer).value, GetFormData(form).value,
                                             ChooseContext(old(uploads)), now))
                && !isLoading
                && (isGenerationComplete <==> CreatedId(reply).Some?)
                && (CreatedId(reply).Some? ==>
                      quote == CreatedId(reply) && quoteId == Some(IntToString(CreatedId(reply).value))
                      && error.None? && toast == Some(ToastRequest("Quote created and processed successfully!", Success)))
                && (CreatedId(reply).None? ==>
                      error == Some(GenerateError(reply)) && toast == Some(ToastRequest(GenerateError(reply), Error))
                      && quoteId == old(quoteId) && quote == old(quote))
    {
      if selectedCustomer.None? {
        error := Some("Please select a customer.");
        return None, None;
      }
      var spec := GetFormData(form);
      if spec.None? {
        error := Some("Please correct errors in the Product Specifications form.");
        return None, None;
      }
      var context := ChooseContext(uploads);
      isLoading := true;
      error := None;
      isGenerationComplete := false;
      var quoteToCreate := BuildPayload(selectedCustomer.value, spec.value, context, now);
      payload := Some(quoteToCreate);
      toast := ApplyCreateReply(reply);
    }

    /** The `try`/`catch`/`finally` around `createQuote`: a truthy id
        completes the wizard, anything else records the error; loading is
        off either way. */
    method ApplyCreateReply(reply: CreateReply) returns (toast: Option<ToastRequest>)
      requires Valid()
      modifies this
      ensures Valid()
      ensures uploads == old(uploads) && selectedCustomer == old(selectedCustomer)
      ensures !isLoading && (isGenerationComplete <==> CreatedId(reply).Some?)
      ensures CreatedId(reply).Some? ==>
                quote == CreatedId(reply) && quoteId == Some(IntToString(CreatedId(reply).value))
                && error == old(error) && toast == Some(ToastRequest("Quote created and processed successfully!", Success))
      ensures CreatedId(reply).None? ==>
                error == Some(GenerateError(reply)) && toast == Some(ToastRequest(GenerateError(reply), Error))
                && quoteId == old(quoteId) && quote == old(quote)
      ensures CustomerSelectEnabled() <==> CreatedId(reply).None?
      ensures UploadEnabled() <==> CreatedId(reply).None? && !isFileProcessing
    {
      var id := CreatedId(reply);
      if id.Some? {
        quote := id;
        quoteId := Some(IntToString(id.value));
        toast := Some(ToastRequest("Quote created and processed successfully!", Success));
        isGenerationComplete := true;
      } else {
        var errorMsg := GenerateError(reply);
        error := Some(errorMsg);
        toast := Some(ToastRequest(errorMsg, Error));
        isGenerationComplete := false;
      }
      isLoading := false;
    }

    /** `handleCreateNew`: back to an empty wizard with no customer. The
        loading flag is left as it is. */
    method HandleCreateNew()
      modifies this
      ensures Valid()
      ensures selectedCustomer.None? && quoteId.None? && quote.None? && uploads == []
      ensures error.None? && !isGenerationComplete && !isFileProcessing
      ensures isLoading == old(isLoading)
      ensures CustomerSelectEnabled() == UploadEnabled() == !isLoading
    {
      selectedCustomer := None;
      quoteId := None;
      quote := None;
      uploads := [];
      error := None;
      isGenerationComplete := false;
      isFileProcessing := false;
    }

    /** The Generate button: shown until completion, enabled only when
        nothing is loading. */
    function GenerateEnabled(): (r: bool)
      reads this
      requires Valid()
      ensures r ==> forall i :: 0 <= i < |uploads| ==> !uploads[i].isLoading
    {
      !isGenerationComplete && !isLoading && !isFileProcessing
    }

    /** The upload control is disabled while a file is processing, while
        generating, and after completion. */
    function UploadEnabled(): (r: bool)
      reads this
      requires Valid()
      ensures r ==> !isGenerationComplete && forall i :: 0 <= i < |uploads| ==> !uploads[i].isLoading
    {
      !(isFileProcessing || isLoading || isGenerationComplete)
    }

    /** The customer select is locked while generating and after completion. */
    function CustomerSelectEnabled(): bool
      reads this
    {
      !(isLoading || isGenerationComplete)
    }
  }

  /** A loading entry makes the list busy. */
  lemma {:induction false} UpsertMakesLoading(list: seq<FileProcessResult>, r: FileProcessResult)
    requires r.isLoading
    ensures AnyLoading(Upsert(list, r))
  {
    var i := IndexOfKey(list, TempIdOf, r.tempId);
    var u := Upsert(list, r);
    if i >= 0 {
      assert u[i].isLoading;
    } else {
      assert u[|list|].isLoading;
    }
  }
}
