// The Redux `quotes` slice: a list of quotes with a loading flag and an
// error, changed in place by five reducers.
module QuotesSlice {
  import opened Wrappers
  import opened Text
  import opened Schemas
  import opened Seqs

  /** A quote as the front end holds it. */
  datatype ClientQuote = ClientQuote(
    id: int,
    title: String,
    status: String,
    final_price: Option<real>,
    predicted_price: Option<real>,
    customer_id: int,
    reference_number: String,
    product_specs: seq<ProductSpec>,
    communication_contexts: seq<CommunicationContext>)

  function QuoteId(q: ClientQuote): int
  {
    q.id
  }

  /** `updateQuote` on a list: the first quote with the payload's id is
      replaced; with no such quote the list is unchanged. */
  function ReplaceFirst(qs: seq<ClientQuote>, q: ClientQuote): (r: seq<ClientQuote>)
  {
    var i := IndexOfKey(qs, QuoteId, q.id);
    if i < 0 then qs else qs[i := q]
  }

  /** The length is kept; the first match becomes the payload and every
      other position keeps its quote. */
  lemma {:induction false} ReplaceFirstSpec(qs: seq<ClientQuote>, q: ClientQuote)
    ensures |ReplaceFirst(qs, q)| == |qs|
    ensures (forall j :: 0 <= j < |qs| ==> qs[j].id != q.id) ==> ReplaceFirst(qs, q) == qs
    ensures forall j :: 0 <= j < |qs| && qs[j].id == q.id && (forall k :: 0 <= k < j ==> qs[k].id != q.id) ==>
              ReplaceFirst(qs, q)[j] == q
              && forall k :: 0 <= k < |qs| && k != j ==> ReplaceFirst(qs, q)[k] == qs[k]
  {
    var i := IndexOfKey(qs, QuoteId, q.id);
    forall j | 0 <= j < |qs| && qs[j].id == q.id && (forall k :: 0 <= k < j ==> qs[k].id != q.id)
      ensures i == j
    {
      assert QuoteId(qs[j]) == q.id;
    }
  }

  /** Replacing twice with the same payload is replacing once. */
  lemma {:induction false} ReplaceFirstIdempotent(qs: seq<ClientQuote>, q: ClientQuote)
    ensures ReplaceFirst(ReplaceFirst(qs, q), q) == ReplaceFirst(qs, q)
  {
    var i := IndexOfKey(qs, QuoteId, q.id);
    if i >= 0 {
      var r := qs[i := q];
      assert forall k :: 0 <= k < i ==> QuoteId(r[k]) != q.id;
      assert QuoteId(r[i]) == q.id;
      assert IndexOfKey(r, QuoteId, q.id) == i;
    }
  }

  class QuotesState {
    var quotes: seq<ClientQuote>
    var loading: bool
    var error: Option<String>

    /** The initial state: no quotes, not loading, no error. */
    constructor()
      ensures quotes == [] && !loading && error == None
    {
      quotes, loading, error := [], false, None;
    }

    /** `setQuotes`: the whole list is replaced. */
    method SetQuotes(qs: seq<ClientQuote>)
      modifies this
      ensures quotes == qs && loading == old(loading) && error == old(error)
    {
      quotes := qs;
    }

    /** `addQuote`: appended at the end. */
    method AddQuote(q: ClientQuote)
      modifies this
      ensures quotes == old(quotes) + [q] && loading == old(loading) && error == old(error)
    {
      quotes := quotes + [q];
    }

    /** `updateQuote`: `findIndex`, then an index assignment when found. */
    method UpdateQuote(q: ClientQuote)
      modifies this
      ensures quotes == ReplaceFirst(old(quotes), q) && loading == old(loading) && error == old(error)
    {
      var index := FindIndex(quotes, QuoteId, q.id);
      if index != -1 {
        quotes := quotes[index := q];
      }
    }

    /** `setLoading`. */
    method SetLoading(b: bool)
      modifies this
      ensures loading == b && quotes == old(quotes) && error == old(error)
    {
      loading := b;
    }

    /** `setError`. */
    method SetError(e: Option<String>)
      modifies this
      ensures error == e && quotes == old(quotes) && loading == old(loading)
    {
      error := e;
    }
  }
}
