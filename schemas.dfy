// The back end's request and response records: field types, the `Literal`
// enumerations a product specification must satisfy, and the defaults
// applied to absent fields.
module Schemas {
  import opened Wrappers
  import Text

  type String = seq<char>

  /** `HTTPException(status_code, detail)` as the client receives it. */
  datatype HttpError = HttpError(status: int, detail: String)

  /** A JSON object of text values, as the AI step returns it. */
  type ContextDict = map<String, String>

  const Alloys: set<String> := {"6060", "6063", "6082"}
  const SurfaceTreatments: set<String> := {"anodized", "painted", "raw"}
  const Complexities: set<String> := {"low", "medium", "high"}

  datatype Customer = Customer(
    company_name: String,
    contact_person: String,
    email: String,
    phone: Option<String>,
    address: Option<String>)

  /** `CustomerUpdate`: each field is either left unset or given a value
      (for the optional ones the value may itself be null). */
  datatype Patch<T> = Unset | Set(v: T)
  {
    function Apply(old_: T): (r: T)
      ensures Set? ==> r == v
      ensures Unset? ==> r == old_
    {
      if Set? then v else old_
    }
  }

  datatype CustomerUpdate = CustomerUpdate(
    company_name: Patch<String>,
    contact_person: Patch<String>,
    email: Patch<String>,
    phone: Patch<Option<String>>,
    address: Patch<Option<String>>)

  datatype ProductSpec = ProductSpec(
    description: String,
    profile_type: String,
    alloy: String,
    weight_per_meter: real,
    total_length: real,
    surface_treatment: String,
    machining_complexity: String)

  datatype CommunicationContext = CommunicationContext(
    context_text: String,
    extracted_urgency: Option<String>,
    custom_requests: Option<String>,
    past_agreements: Option<String>)

  /** `Quote`: the stored quote with its children. `validity_date` is an
      abstract timestamp. */
  datatype Quote = Quote(
    title: String,
    reference_number: String,
    validity_date: int,
    customer_id: int,
    predicted_price: Option<real>,
    final_price: Option<real>,
    status: String,
    product_specs: seq<ProductSpec>,
    communication_contexts: seq<CommunicationContext>)

  /** `QuoteUpdate`: there is no `customer_id`, so an update can never move a
      quote to another customer. */
  datatype QuoteUpdate = QuoteUpdate(
    title: Patch<String>,
    reference_number: Patch<String>,
    validity_date: Patch<int>,
    predicted_price: Patch<Option<real>>,
    final_price: Patch<Option<real>>,
    status: Patch<String>)

  /** The names of the fields whose `Literal` type rejects the value, in
      declaration order; pydantic answers 422 when the list is non-empty. */
  function SpecLiteralErrors(p: ProductSpec): (r: seq<String>)
    ensures r == [] <==> p.alloy in Alloys && p.surface_treatment in SurfaceTreatments
                          && p.machining_complexity in Complexities
    ensures "alloy" in r <==> p.alloy !in Alloys
    ensures "surface_treatment" in r <==> p.surface_treatment !in SurfaceTreatments
    ensures "machining_complexity" in r <==> p.machining_complexity !in Complexities
  {
    (if p.alloy in Alloys then [] else ["alloy"])
    + (if p.surface_treatment in SurfaceTreatments then [] else ["surface_treatment"])
    + (if p.machining_complexity in Complexities then [] else ["machining_complexity"])
  }

  /** `CommunicationContextBase(context_text=...)`: only the text is
      required; the three extracted fields default to null. */
  function ContextFromText(text: String): (c: CommunicationContext)
    ensures c.context_text == text
    ensures c.extracted_urgency.None? && c.custom_requests.None? && c.past_agreements.None?
  {
    CommunicationContext(text, None, None, None)
  }

  /** A `QuoteCreate` body as received. `status` is `None` when the body
      leaves it out; a price left out or sent as null is `None`. */
  datatype QuoteCreate = QuoteCreate(
    title: String,
    reference_number: String,
    validity_date: int,
    customer_id: int,
    predicted_price: Option<real>,
    final_price: Option<real>,
    status: Option<String>,
    product_specs: ProductSpec,
    communication_context: CommunicationContext)

  /** Request validation before the handler runs: a specification whose
      `Literal` fields are out of range is answered with 422, and the
      detail names the failing fields. */
  function ValidateCreate(c: QuoteCreate): (r: Result<QuoteCreate, HttpError>)
    ensures r.Ok? <==> SpecLiteralErrors(c.product_specs) == []
    ensures r.Ok? ==> r.value == c
    ensures r.Err? ==> r.error.status == 422
  {
    var errs := SpecLiteralErrors(c.product_specs);
    if errs == [] then Ok(c) else Err(HttpError(422, Text.JoinWith(errs, ',')))
  }

  /** The stored quote for a `QuoteCreate`: the request's own status and
      prices, with `QuoteBase`'s defaults ("draft", no prices) only where
      the request leaves them out. The one spec and the one context become
      the quote's single children. */
  function QuoteFromCreate(c: QuoteCreate): (q: Quote)
    ensures c.status.Some? ==> q.status == c.status.value
    ensures c.status.None? ==> q.status == "draft"
    ensures q.predicted_price == c.predicted_price && q.final_price == c.final_price
    ensures q.product_specs == [c.product_specs] && q.communication_contexts == [c.communication_context]
    ensures q.customer_id == c.customer_id && q.title == c.title
    ensures q.reference_number == c.reference_number && q.validity_date == c.validity_date
  {
    Quote(c.title, c.reference_number, c.validity_date, c.customer_id, c.predicted_price,
          c.final_price, if c.status.Some? then c.status.value else "draft",
          [c.product_specs], [c.communication_context])
  }

  /** The setattr loop over `exclude_unset` fields of a `CustomerUpdate`. */
  function ApplyCustomerUpdate(c: Customer, u: CustomerUpdate): (r: Customer)
    ensures r.company_name == if u.company_name.Set? then u.company_name.v else c.company_name
    ensures r.contact_person == if u.contact_person.Set? then u.contact_person.v else c.contact_person
    ensures r.email == if u.email.Set? then u.email.v else c.email
    ensures r.phone == if u.phone.Set? then u.phone.v else c.phone
    ensures r.address == if u.address.Set? then u.address.v else c.address
  {
    Customer(u.company_name.Apply(c.company_name), u.contact_person.Apply(c.contact_person),
             u.email.Apply(c.email), u.phone.Apply(c.phone), u.address.Apply(c.address))
  }

  /** The setattr loop over `exclude_unset` fields of a `QuoteUpdate`. */
  function ApplyQuoteUpdate(q: Quote, u: QuoteUpdate): (r: Quote)
    ensures r.customer_id == q.customer_id
    ensures r.product_specs == q.product_specs && r.communication_contexts == q.communication_contexts
    ensures r.title == if u.title.Set? then u.title.v else q.title
    ensures r.reference_number == if u.reference_number.Set? then u.reference_number.v else q.reference_number
    ensures r.validity_date == if u.validity_date.Set? then u.validity_date.v else q.validity_date
    ensures r.predicted_price == if u.predicted_price.Set? then u.predicted_price.v else q.predicted_price
    ensures r.final_price == if u.final_price.Set? then u.final_price.v else q.final_price
    ensures r.status == if u.status.Set? then u.status.v else q.status
  {
    q.(title := u.title.Apply(q.title),
       reference_number := u.reference_number.Apply(q.reference_number),
       validity_date := u.validity_date.Apply(q.validity_date),
       predicted_price := u.predicted_price.Apply(q.predicted_price),
       final_price := u.final_price.Apply(q.final_price),
       status := u.status.Apply(q.status))
  }

  const NoQuoteChanges := QuoteUpdate(Unset, Unset, Unset, Unset, Unset, Unset)
  const NoCustomerChanges := CustomerUpdate(Unset, Unset, Unset, Unset, Unset)

  /** An update with no fields set leaves the quote as it was, and applying
      the same update twice is the same as applying it once. */
  lemma {:induction false} QuoteUpdateLaws(q: Quote, u: QuoteUpdate)
    ensures ApplyQuoteUpdate(q, NoQuoteChanges) == q
    ensures ApplyQuoteUpdate(ApplyQuoteUpdate(q, u), u) == ApplyQuoteUpdate(q, u)
  {
  }

  /** The same laws for customers. */
  lemma {:induction false} CustomerUpdateLaws(c: Customer, u: CustomerUpdate)
    ensures ApplyCustomerUpdate(c, NoCustomerChanges) == c
    ensures ApplyCustomerUpdate(ApplyCustomerUpdate(c, u), u) == ApplyCustomerUpdate(c, u)
  {
  }
}
