// The home page's quote list: `fetchQuotes` with its rate-limit retry chain
// (at most three retries, with doubling delays), the normalisation of the
// server's quotes, and the delete handler. The server's replies are inputs,
// one per call; `setTimeout` is modelled by the delay each call asks for.
module HomePage {
  import opened Wrappers
  import opened Text
  import opened Schemas
  import opened Seqs
  import opened Toasts
  import opened QuotesSlice

  const MaxRetries := 3
  const InitialRetryDelay := 1000

  /** A quote as the server sends it; the two lists may be missing. */
  datatype RawQuote = RawQuote(
    id: int,
    title: String,
    status: String,
    final_price: Option<real>,
    predicted_price: Option<real>,
    customer_id: int,
    reference_number: String,
    product_specs: Option<seq<ProductSpec>>,
    communication_contexts: Option<seq<CommunicationContext>>)

  /** The reply to one `getAllQuotes` call: an array, something else, or a
      thrown error with its message ("" when it has none). */
  datatype FetchReply = Quotes(items: seq<RawQuote>) | NotArray | Threw(message: String)

  /** The per-quote transform: missing lists become empty ones. */
  function Normalise(q: RawQuote): (r: ClientQuote)
    ensures r.product_specs == q.product_specs.GetOr([])
    ensures r.communication_contexts == q.communication_contexts.GetOr([])
    ensures Denormalise(r) == q <==> q.product_specs.Some? && q.communication_contexts.Some?
  {
    ClientQuote(q.id, q.title, q.status, q.final_price, q.predicted_price, q.customer_id,
                q.reference_number, q.product_specs.GetOr([]), q.communication_contexts.GetOr([]))
  }

  /** A client quote as the server would send it, both lists present. */
  function Denormalise(q: ClientQuote): RawQuote
  {
    RawQuote(q.id, q.title, q.status, q.final_price, q.predicted_price, q.customer_id,
             q.reference_number, Some(q.product_specs), Some(q.communication_contexts))
  }

  /** Normalising what the server would send for a client quote gives that
      quote back. */
  lemma {:induction false} NormaliseRoundTrip(q: ClientQuote)
    ensures Normalise(Denormalise(q)) == q
  {
  }

  function Transform(items: seq<RawQuote>): (r: seq<ClientQuote>)
    ensures |r| == |items|
    ensures forall i :: 0 <= i < |items| ==> r[i] == Normalise(items[i])
  {
    seq(|items|, i requires 0 <= i < |items| => Normalise(items[i]))
  }

  function Pow2(k: nat): (r: nat)
    ensures r >= 1
  {
    if k == 0 then 1 else 2 * Pow2(k - 1)
  }

  /** `INITIAL_RETRY_DELAY * 2 ** retryCount`. */
  function RetryDelay(k: nat): (r: nat)
    ensures r >= InitialRetryDelay
  {
    InitialRetryDelay * Pow2(k)
  }

  /** Each retry waits twice as long as the one before. */
  lemma {:induction false} RetryDelayDoubles(k: nat)
    ensures RetryDelay(k + 1) == 2 * RetryDelay(k)
  {
  }

  /** Call number `k` (counting from 0) schedules another call. */
  predicate Retries(reply: FetchReply, k: nat)
  {
    reply.Threw? && Contains(reply.message, "Rate limit exceeded") && k < MaxRetries
  }

  /** The index of the call that ends the chain started at `k`. */
  function LastCall(replies: seq<FetchReply>, k: nat): (r: nat)
    requires k <= MaxRetries < |replies|
    ensures k <= r <= MaxRetries && !Retries(replies[r], r)
    ensures forall j :: k <= j < r ==> Retries(replies[j], j)
    decreases MaxRetries - k
  {
    if Retries(replies[k], k) then LastCall(replies, k + 1) else k
  }

  /** The delays the chain waits, one per retry. */
  function Delays(n: nat): (r: seq<nat>)
    ensures |r| == n
    ensures forall j :: 0 <= j < n ==> r[j] == RetryDelay(j)
  {
    if n == 0 then [] else Delays(n - 1) + [RetryDelay(n - 1)]
  }

  /** The quotes a call that does not retry leaves behind. */
  function QuotesAfter(reply: FetchReply): seq<ClientQuote>
  {
    if reply.Quotes? then Transform(reply.items) else []
  }

  /** The error a call that does not retry leaves behind. */
  function ErrorAfter(reply: FetchReply): (r: Option<String>)
    ensures r.None? <==> reply.Quotes?
  {
    match reply
    case Quotes(_) => None
    case NotArray => Some("Invalid response format from server")
    case Threw(_) => Some("Failed to load quotes")
  }

  /** The toast a call that does not retry shows, if any. */
  function ToastAfter(reply: FetchReply): (r: Option<ToastRequest>)
    ensures r.None? <==> reply.Quotes?
  {
    match reply
    case Quotes(_) => None
    case NotArray => Some(ToastRequest("Failed to load quotes: Invalid response format", Info))
    case Threw(_) => Some(ToastRequest("Failed to load quotes. Please try again later.", Info))
  }

  class Home {
    var quotes: seq<ClientQuote>
    var isLoading: bool
    var error: Option<String>
    var toasts: seq<ToastRequest>

    constructor()
      ensures quotes == [] && isLoading && error.None? && toasts == []
    {
      quotes, isLoading, error, toasts := [], true, None, [];
    }

    /** One `fetchQuotes(retryCount)` call as written. A retrying call only
        clears the error and asks for the next call after its delay. The
        `finally` clears the loading flag only on the first call. */
    method FetchQuotesAsWritten(retryCount: nat, reply: FetchReply) returns (retryAfter: Option<nat>)
      modifies this
      ensures retryAfter.Some? <==> Retries(reply, retryCount)
      ensures retryAfter.Some? ==>
                retryAfter.value == RetryDelay(retryCount) && quotes == old(quotes)
                && error.None? && toasts == old(toasts)
      ensures retryAfter.None? ==>
                quotes == QuotesAfter(reply) && error == ErrorAfter(reply)
                && toasts == old(toasts) + (if ToastAfter(reply).Some? then [ToastAfter(reply).value] else [])
      ensures isLoading <==> retryCount != 0
    {
      retryAfter := FetchBody(retryCount, reply);
      if retryCount == 0 {
        isLoading := false;
      }
    }

    /** The `try`/`catch` of one call, shared by both versions. */
    method FetchBody(retryCount: nat, reply: FetchReply) returns (retryAfter: Option<nat>)
      modifies this
      ensures isLoading
      ensures retryAfter.Some? <==> Retries(reply, retryCount)
      ensures retryAfter.Some? ==>
                retryAfter.value == RetryDelay(retryCount) && quotes == old(quotes)
                && error.None? && toasts == old(toasts)
      ensures retryAfter.None? ==>
                quotes == QuotesAfter(reply) && error == ErrorAfter(reply)
                && toasts == old(toasts) + (if ToastAfter(reply).Some? then [ToastAfter(reply).value] else [])
    {
      isLoading := true;
      error := None;
      retryAfter := None;
      match reply {
        case Quotes(items) =>
          quotes := Transform(items);
        case NotArray =>
          quotes := [];
          error := Some("Invalid response format from server");
          toasts := toasts + [ToastRequest("Failed to load quotes: Invalid response format", Info)];
        case Threw(message) =>
          if Contains(message, "Rate limit exceeded") && retryCount < MaxRetries {
            retryAfter := Some(RetryDelay(retryCount));
          } else {
            quotes := [];
            error := Some("Failed to load quotes");
            toasts := toasts + [ToastRequest("Failed to load quotes. Please try again later.", Info)];
          }
      }
    }

    /** The mount effect as written: `fetchQuotes()` and the calls its
        timeouts make. The page keeps loading exactly when a retry
        happened, whatever the last call received. */
    method LoadAsWritten(replies: seq<FetchReply>) returns (calls: nat, delays: seq<nat>)
      requires MaxRetries < |replies|
      modifies this
      ensures calls == LastCall(replies, 0) + 1 && calls <= MaxRetries + 1
      ensures delays == Delays(calls - 1)
      ensures quotes == QuotesAfter(replies[calls - 1]) && error == ErrorAfter(replies[calls - 1])
      ensures toasts == old(toasts) + (if ToastAfter(replies[calls - 1]).Some? then [ToastAfter(replies[calls - 1]).value] else [])
      ensures isLoading <==> calls > 1
    {
      var k: nat := 0;
      delays := [];
      while true
        invariant k <= MaxRetries
        invariant LastCall(replies, k) == LastCall(replies, 0)
        invariant delays == Delays(k)
        invariant toasts == old(toasts)
        decreases MaxRetries - k
      {
        var retry := FetchQuotesAsWritten(k, replies[k]);
        if retry.None? {
          return k + 1, delays;
        }
        delays := delays + [retry.value];
        k := k + 1;
      }
    }

    /** One call with the loading flag cleared whenever the chain ends, so
        it stays set only while a retry is pending. */
    method FetchQuotes(retryCount: nat, reply: FetchReply) returns (retryAfter: Option<nat>)
      modifies this
      ensures retryAfter.Some? <==> Retries(reply, retryCount)
      ensures retryAfter.Some? ==>
                retryAfter.value == RetryDelay(retryCount) && quotes == old(quotes)
                && error.None? && toasts == old(toasts)
      ensures retryAfter.None? ==>
                quotes == QuotesAfter(reply) && error == ErrorAfter(reply)
                && toasts == old(toasts) + (if ToastAfter(reply).Some? then [ToastAfter(reply).value] else [])
      ensures isLoading <==> retryAfter.Some?
    {
      retryAfter := FetchBody(retryCount, reply);
      if retryAfter.None? {
        isLoading := false;
      }
    }

    /** The corrected mount effect: after the chain the page shows the
        last call's quotes or error, never the spinner. */
    method Load(replies: seq<FetchReply>) returns (calls: nat, delays: seq<nat>)
      requires MaxRetries < |replies|
      modifies this
      ensures calls == LastCall(replies, 0) + 1 && calls <= MaxRetries + 1
      ensures delays == Delays(calls - 1)
      ensures quotes == QuotesAfter(replies[calls - 1]) && error == ErrorAfter(replies[calls - 1])
      ensures toasts == old(toasts) + (if ToastAfter(replies[calls - 1]).Some? then [ToastAfter(replies[calls - 1]).value] else [])
      ensures !isLoading
    {
      var k: nat := 0;
      delays := [];
      while true
        invariant k <= MaxRetries
        invariant LastCall(replies, k) == LastCall(replies, 0)
        invariant delays == Delays(k)
        invariant toasts == old(toasts)
        decreases MaxRetries - k
      {
        var retry := FetchQuotes(k, replies[k]);
        if retry.None? {
          return k + 1, delays;
        }
        delays := delays + [retry.value];
        k := k + 1;
      }
    }

    /** The delete handler: a successful delete drops every quote with that
        id and toasts; a failed one only toasts. */
    method DeleteQuote(id: int, deleted: bool)
      modifies this
      ensures deleted ==> quotes == RemoveKey(old(quotes), QuoteId, id)
                          && toasts == old(toasts) + [ToastRequest("Quote deleted successfully", Info)]
      ensures !deleted ==> quotes == old(quotes)
                           && toasts == old(toasts) + [ToastRequest("Failed to delete quote", Info)]
      ensures isLoading == old(isLoading) && error == old(error)
    {
      if deleted {
        quotes := RemoveKey(quotes, QuoteId, id);
        toasts := toasts + [ToastRequest("Quote deleted successfully", Info)];
      } else {
        toasts := toasts + [ToastRequest("Failed to delete quote", Info)];
      }
    }

    /** What the page renders: the spinner while loading, then the error,
        then the list. */
    function View(): (v: PageView)
      reads this
      ensures v == Spinner <==> isLoading
      ensures v.ErrorView? <==> !isLoading && error.Some? && error.value != ""
    {
      if isLoading then Spinner
      else if error.Some? && error.value != "" then ErrorView(error.value)
      else if |quotes| == 0 then NoQuotes
      else QuoteGrid(quotes)
    }
  }

  datatype PageView = Spinner | ErrorView(message: String) | NoQuotes | QuoteGrid(items: seq<ClientQuote>)

  /** The chain started at `i` ends at the first call from `i` on that is
      not rate limited. */
  lemma {:induction false} LastCallFrom(replies: seq<FetchReply>, i: nat, k: nat)
    requires i <= k <= MaxRetries < |replies|
    requires !Retries(replies[k], k)
    requires forall j :: i <= j < k ==> Retries(replies[j], j)
    ensures LastCall(replies, i) == k
    decreases k - i
  {
    if i < k {
      LastCallFrom(replies, i + 1, k);
    }
  }

  /** A rate-limited first call followed by a successful one leaves the
      page as written on the spinner, with the quotes loaded behind it. */
  lemma {:induction false} RetryLeavesSpinner(replies: seq<FetchReply>)
    requires MaxRetries < |replies|
    requires replies[0] == Threw("Rate limit exceeded") && replies[1].Quotes?
    ensures LastCall(replies, 0) + 1 > 1
    ensures ErrorAfter(replies[LastCall(replies, 0)]).None?
  {
    assert OccursAt(replies[0].message, "Rate limit exceeded", 0);
    LastCallFrom(replies, 0, 1);
  }
}
