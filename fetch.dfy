/**
 * The generic `useFetch` hook: a `{data, loading, error}` record settled by the
 * try/catch/finally of each retrieval. The network call and JSON parsing are abstracted
 * as the outcome they produce; retrievals are never cancelled, so any outstanding one may
 * settle, in any order.
 */
module Fetch {
  import opened Wrappers
  import opened Text

  datatype Error = Error(message: string)

  /** A thrown value: an `Error` instance, or anything else. */
  datatype Thrown = ThrownError(error: Error) | ThrownOther

  /** What `response.json()` does: resolve to a value, or throw. */
  datatype Body<T> = Json(value: T) | Malformed(thrown: Thrown)

  /** How `fetch(url)` ends: a response with a status and a body, or a rejection. */
  datatype Outcome<T> = Responded(status: nat, body: Body<T>) | Rejected(thrown: Thrown)

  datatype FetchResult<T> = FetchResult(data: Option<T>, loading: bool, error: Option<Error>)

  /** `response.ok`: the status is in the range 200-299. */
  predicate IsOk(status: nat): (ok: bool)
    ensures ok <==> status / 100 == 2
  {
    200 <= status <= 299
  }

  /** The state before any retrieval settles. */
  function InitialResult<T>(): (r: FetchResult<T>)
    ensures r.data.None? && r.loading && r.error.None?
  {
    FetchResult(None, true, None)
  }

  /** The error thrown for a response that is not ok. */
  function HttpError(status: nat): (e: Error)
    ensures |e.message| > 20 && e.message[..20] == "HTTP error! status: "
    ensures AllDigits(e.message[20..])
  {
    Error("HTTP error! status: " + NatToString(status))
  }

  /** The catch clause: an `Error` is kept as it is, anything else becomes a generic one. */
  function Caught(thrown: Thrown): (e: Error)
    ensures thrown.ThrownError? ==> e == thrown.error
    ensures thrown.ThrownOther? ==> e == Error("An unknown error occurred")
  {
    match thrown
    case ThrownError(err) => err
    case ThrownOther => Error("An unknown error occurred")
  }

  /** The try block: the parsed value, or the value it throws. */
  function Attempt<T>(outcome: Outcome<T>): (r: Result<T, Thrown>)
    ensures r.Success? <==> outcome.Responded? && IsOk(outcome.status) && outcome.body.Json?
    ensures r.Success? ==> r.value == outcome.body.value
    ensures outcome.Rejected? ==> r == Failure(outcome.thrown)
    ensures outcome.Responded? && !IsOk(outcome.status) ==> r == Failure(ThrownError(HttpError(outcome.status)))
    ensures outcome.Responded? && IsOk(outcome.status) && outcome.body.Malformed? ==> r == Failure(outcome.body.thrown)
  {
    match outcome
    case Rejected(thrown) => Failure(thrown)
    case Responded(status, body) =>
      if !IsOk(status) then Failure(ThrownError(HttpError(status)))
      else match body
        case Json(v) => Success(v)
        case Malformed(thrown) => Failure(thrown)
  }

  /** A retrieval settles: try sets `data`, catch sets `error`, finally clears `loading`. */
  function Settle<T>(r: FetchResult<T>, outcome: Outcome<T>): (s: FetchResult<T>)
    ensures !s.loading
    ensures Attempt(outcome).Success? ==> s.data == Some(Attempt(outcome).value) && s.error == r.error
    ensures Attempt(outcome).Failure? ==> s.data == r.data && s.error == Some(Caught(Attempt(outcome).error))
  {
    match Attempt(outcome)
    case Success(v) => FetchResult(Some(v), false, r.error)
    case Failure(thrown) => FetchResult(r.data, false, Some(Caught(thrown)))
  }

  /** An ok response with a parsed body stores it, ends loading and keeps any earlier error. */
  lemma SettleOk<T>(r: FetchResult<T>, status: nat, value: T)
    requires IsOk(status)
    ensures Settle(r, Responded(status, Json(value))) == FetchResult(Some(value), false, r.error)
  {
  }

  /** A status outside 200-299 stores the HTTP error; the body is never read and `data` is kept. */
  lemma SettleNotOk<T>(r: FetchResult<T>, status: nat, body: Body<T>)
    requires !IsOk(status)
    ensures Settle(r, Responded(status, body)) == FetchResult(r.data, false, Some(HttpError(status)))
  {
  }

  /** A thrown `Error` (rejection or bad JSON) is stored as it is; anything else as the generic error. */
  lemma SettleThrown<T>(r: FetchResult<T>, thrown: Thrown, status: nat)
    requires IsOk(status)
    ensures Settle(r, Rejected(thrown)) == FetchResult(r.data, false, Some(Caught(thrown)))
    ensures Settle(r, Responded(status, Malformed(thrown))) == Settle(r, Rejected(thrown))
  {
  }

  /** From the initial state: success gives `{data, false, null}`, a bad status `{null, false, error}`. */
  lemma FirstSettlement<T>(status: nat, value: T)
    ensures IsOk(status) ==>
      Settle(InitialResult(), Responded(status, Json(value))) == FetchResult(Some(value), false, None)
    ensures !IsOk(status) ==>
      var s := Settle(InitialResult<T>(), Responded(status, Json(value)));
      s.data.None? && !s.loading && s.error == Some(HttpError(status))
  {
  }

  /**
   * Without cancellation the retrieval that settles last decides `data`, even when it was
   * started for an earlier url; an error from an earlier settlement survives a later success.
   */
  lemma LastSettledWins<T>(r: FetchResult<T>, first: Outcome<T>, last: Outcome<T>)
    requires Attempt(last).Success?
    ensures Settle(Settle(r, first), last).data == Some(Attempt(last).value)
    ensures Attempt(first).Failure? ==> Settle(Settle(r, first), last).error == Some(Caught(Attempt(first).error))
  {
  }

  /** The HTTP error's message reads "HTTP error! status: " followed by the status in decimal. */
  lemma HttpErrorMessage(status: nat)
    ensures var m := HttpError(status).message;
      && m[..20] == "HTTP error! status: "
      && AllDigits(m[20..])
      && ParseDecimal(m[20..]) == status
  {
    var m := HttpError(status).message;
    assert m[20..] == NatToString(status);
    ParsePrinted(status);
  }

  /** The hook's three state cells, its url, and the retrievals it has started and seen settle. */
  class FetchHook<T> {
    var url: string
    var data: Option<T>
    var loading: bool
    var error: Option<Error>
    var started: nat
    var settled: set<nat>

    function Result(): FetchResult<T>
      reads this
    {
      FetchResult(data, loading, error)
    }

    ghost predicate Valid()
      reads this
    {
      forall n :: n in settled ==> n < started
    }

    /** Mount: the initial record, and the effect starts retrieval 0 for `url`. */
    constructor (url: string)
      ensures this.url == url && Result() == InitialResult() && Valid()
      ensures started == 1 && settled == {}
    {
      this.url := url;
      data, loading, error := None, true, None;
      started, settled := 1, {};
    }

    /**
     * A render with `newUrl`: the `[url]` effect starts one more retrieval if the url changed.
     * Nothing sets `loading` back to true and nothing cancels the retrievals under way.
     */
    method Render(newUrl: string)
      requires Valid()
      modifies this
      ensures url == newUrl && Result() == old(Result()) && settled == old(settled) && Valid()
      ensures started == if newUrl == old(url) then old(started) else old(started) + 1
    {
      if newUrl != url {
        url := newUrl;
        started := started + 1;
      }
    }

    /** Retrieval `n`, still outstanding, settles with `outcome`: try, catch, finally. */
    method SettleRetrieval(n: nat, outcome: Outcome<T>)
      requires Valid() && n < started && n !in settled
      modifies this
      ensures Result() == Settle(old(Result()), outcome) && !loading
      ensures url == old(url) && started == old(started) && settled == old(settled) + {n} && Valid()
    {
      var thrown: Option<Thrown> := None;
      match outcome {
        case Rejected(t) =>
          thrown := Some(t);
        case Responded(status, body) =>
          if !IsOk(status) {
            thrown := Some(ThrownError(HttpError(status)));
          } else {
            match body {
              case Json(v) => data := Some(v);
              case Malformed(t) => thrown := Some(t);
            }
          }
      }
      if thrown.Some? {
        error := Some(Caught(thrown.value));
      }
      loading := false;
      settled := settled + {n};
    }
  }
}
