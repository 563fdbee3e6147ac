/**
 * The remote transport of src/http/http-logger.ts: records become log objects that are
 * sent at once, or collected in a bucket flushed by size or by a timer, and every
 * request is retried with doubling back-off on a fixed set of status codes.
 */
module HttpTransport {
  import opened Wrappers
  import opened Values
  import opened LogLevels
  import opened LogRecords
  import opened Logger

  datatype BatchOptions = BatchOptions(batchSize: int, debounceTime: int)

  datatype RetryOptions = RetryOptions(maxRetries: int, retryDelay: int)

  /** `httpConfig`: every field may be left out and then takes its default. */
  datatype HttpConfig = HttpConfig(
    serverUrl: Option<string>,
    batchOptions: Option<BatchOptions>,
    retryOptions: Option<RetryOptions>,
    highPriority: Option<Level>,
    setCredentials: Option<bool>,
    showFormattedLog: Option<bool>)

  /** Custom request headers in insertion order, as `Object.entries` lists them. */
  type Headers = seq<(string, string)>

  /** `logObj`: what a record is reduced to before it is sent. */
  datatype LogObj = LogObj(level: LevelInfo, timestamp: string, log: Payload, scope: string, metaData: MetaData)

  /** `httpLog`: the log object and, when requested, the formatted text. */
  datatype HttpLog = HttpLog(logData: LogObj, formattedLog: Option<string>)

  /** A POST to the server: the batch it carries (`{ logBuffer }`) and how it is sent. */
  datatype Request = Request(
    url: string,
    logBuffer: seq<HttpLog>,
    maxRetries: int,
    retryDelay: int,
    credentials: string,
    headers: Headers)

  /** The configuration a logger sends with. */
  datatype HttpSettings = HttpSettings(
    serverUrl: string,
    batchOptions: Option<BatchOptions>,
    retryOptions: RetryOptions,
    highPriority: Level,
    setCredentials: bool,
    showFormattedLog: bool,
    headers: Headers)

  /** The transport's changing state: the bucket, whether the flush timer is pending, and the requests issued. */
  datatype Transport = Transport(bucket: seq<HttpLog>, armed: bool, outbox: seq<Request>)

  const DefaultServerUrl := "api/url"
  const DefaultRetry := RetryOptions(3, 1000)

  /** The constructor's defaults: no batching, three retries from one second, Critical bypasses the bucket. */
  function SettingsOf(c: HttpConfig): (s: HttpSettings)
    ensures c.serverUrl.None? ==> s.serverUrl == DefaultServerUrl
    ensures c.batchOptions.None? ==> s.batchOptions.None?
    ensures c.retryOptions.None? ==> s.retryOptions == DefaultRetry
    ensures c.highPriority.None? ==> s.highPriority == Critical
    ensures c.setCredentials.None? ==> !s.setCredentials
    ensures c.showFormattedLog.None? ==> !s.showFormattedLog
    ensures s.headers == []
    ensures c.serverUrl.Some? ==> s.serverUrl == c.serverUrl.value
    ensures c.batchOptions == s.batchOptions
    ensures c.retryOptions.Some? ==> s.retryOptions == c.retryOptions.value
    ensures c.highPriority.Some? ==> s.highPriority == c.highPriority.value
    ensures c.setCredentials.Some? ==> s.setCredentials == c.setCredentials.value
    ensures c.showFormattedLog.Some? ==> s.showFormattedLog == c.showFormattedLog.value
  {
    HttpSettings(c.serverUrl.GetOr(DefaultServerUrl), c.batchOptions, c.retryOptions.GetOr(DefaultRetry),
                 c.highPriority.GetOr(Critical), c.setCredentials.GetOr(false), c.showFormattedLog.GetOr(false), [])
  }

  /** `_buildLogObject`: the level's table entry, the ISO time, the payload, the scope and the metadata. */
  function BuildLogObject(d: RecordData, r: Renderers): (o: LogObj)
    ensures o.level.rank == Rank(d.level) && o.level.name == Name(d.level)
    ensures o.timestamp == r.toIso(d.timestamp) && o.log == d.log && o.scope == d.scope && o.metaData == d.metaData
  {
    LogObj(InfoOf(d.level), r.toIso(d.timestamp), d.log, d.scope, d.metaData)
  }

  /** The credentials mode of the request. */
  function CredentialsMode(setCredentials: bool): string {
    if setCredentials then "include" else "omit"
  }

  /** The request headers: the JSON content type first, then the custom headers in order. */
  function RequestHeaders(custom: Headers): (h: Headers)
    ensures |h| == |custom| + 1 && h[0] == ("Content-Type", "application/json") && h[1..] == custom
  {
    [("Content-Type", "application/json")] + custom
  }

  /** The request `sendRequest` issues for a batch under the current settings. */
  function Emit(s: HttpSettings, batch: seq<HttpLog>): (q: Request)
    ensures q.logBuffer == batch && q.url == s.serverUrl
    ensures q.maxRetries == s.retryOptions.maxRetries && q.retryDelay == s.retryOptions.retryDelay
  {
    Request(s.serverUrl, batch, s.retryOptions.maxRetries, s.retryOptions.retryDelay,
            CredentialsMode(s.setCredentials), RequestHeaders(s.headers))
  }

  /** `sendBatchRequest`: sends the given batch, or with none given sends the whole bucket and empties it. */
  function SendBatch(s: HttpSettings, t: Transport, payload: Option<seq<HttpLog>>): (t': Transport)
    ensures t'.outbox == t.outbox + [Emit(s, payload.GetOr(t.bucket))]
    ensures t'.bucket == (if payload.None? then [] else t.bucket) && t'.armed == t.armed
  {
    match payload
    case Some(batch) => t.(outbox := t.outbox + [Emit(s, batch)])
    case None => t.(bucket := [], outbox := t.outbox + [Emit(s, t.bucket)])
  }

  /** The entry is severe enough to skip the bucket: its rank is at most the priority level's. */
  predicate Bypasses(s: HttpSettings, e: HttpLog) {
    Rank(s.highPriority) >= e.logData.level.rank
  }

  /** With batching on: a priority entry is sent alone, any other one joins the bucket. */
  function Place(s: HttpSettings, t: Transport, e: HttpLog): Transport {
    if Bypasses(s, e) then SendBatch(s, t, Some([e])) else t.(bucket := t.bucket + [e])
  }

  /** `log`, once the entry is built: what the transport does with it. */
  function Submit(s: HttpSettings, t: Transport, e: HttpLog): Transport {
    match s.batchOptions
    case None => SendBatch(s, t, Some([e]))
    case Some(b) =>
      var t1 := Place(s, t, e);
      var t2 := if |t1.bucket| >= b.batchSize then SendBatch(s, t1, None) else t1;
      t2.(armed := true)
  }

  /** The flush timer's callback: it clears itself and sends the bucket when anything is in it. */
  function Fire(s: HttpSettings, t: Transport): Transport
    requires t.armed
  {
    var t1 := t.(armed := false);
    if |t1.bucket| > 0 then SendBatch(s, t1, None) else t1
  }

  /** All entries handed to the server so far, request after request. */
  function Sent(outbox: seq<Request>): seq<HttpLog> {
    if outbox == [] then [] else Sent(outbox[..|outbox| - 1]) + outbox[|outbox| - 1].logBuffer
  }

  lemma SentAppend(outbox: seq<Request>, q: Request)
    ensures Sent(outbox + [q]) == Sent(outbox) + q.logBuffer
  {
    assert (outbox + [q])[..|outbox|] == outbox;
  }

  /** Every entry ever submitted, either already sent or still in the bucket. */
  function Pending(t: Transport): seq<HttpLog> {
    Sent(t.outbox) + t.bucket
  }

  /** Without batch options every entry is sent alone, at once; the bucket and the timer are untouched. */
  lemma UnbatchedSendsAtOnce(s: HttpSettings, t: Transport, e: HttpLog)
    requires s.batchOptions.None?
    ensures Submit(s, t, e).outbox == t.outbox + [Emit(s, [e])]
    ensures Submit(s, t, e).bucket == t.bucket && Submit(s, t, e).armed == t.armed
  {
  }

  /**
   * With batch options, an entry at least as severe as the priority level is sent alone
   * before anything else happens, and the bucket is left as it was unless it has reached the batch size.
   */
  lemma PriorityBypassesBucket(s: HttpSettings, t: Transport, e: HttpLog)
    requires s.batchOptions.Some? && Bypasses(s, e)
    ensures var t' := Submit(s, t, e);
      && |t'.outbox| >= |t.outbox| + 1 && t'.outbox[..|t.outbox| + 1] == t.outbox + [Emit(s, [e])]
      && (|t.bucket| < s.batchOptions.value.batchSize ==> t'.bucket == t.bucket && t'.outbox == t.outbox + [Emit(s, [e])])
      && t'.armed
  {
    var t1 := SendBatch(s, t, Some([e]));
    var t' := Submit(s, t, e);
    if |t1.bucket| >= s.batchOptions.value.batchSize {
      assert t'.outbox == t1.outbox + [Emit(s, t.bucket)];
      assert t'.outbox[..|t.outbox| + 1] == t1.outbox;
    }
  }

  /** A less severe entry is queued; when that fills the bucket, the whole bucket goes out as one request. */
  lemma LowPriorityIsQueued(s: HttpSettings, t: Transport, e: HttpLog)
    requires s.batchOptions.Some? && !Bypasses(s, e)
    ensures var t' := Submit(s, t, e);
      && t'.armed
      && (|t.bucket| + 1 < s.batchOptions.value.batchSize ==> t'.bucket == t.bucket + [e] && t'.outbox == t.outbox)
      && (|t.bucket| + 1 >= s.batchOptions.value.batchSize ==>
            t'.bucket == [] && t'.outbox == t.outbox + [Emit(s, t.bucket + [e])])
  {
  }

  /** With a positive batch size the bucket never reaches the batch size after a call returns. */
  lemma BucketStaysBelowBatchSize(s: HttpSettings, t: Transport, e: HttpLog)
    requires s.batchOptions.Some? && s.batchOptions.value.batchSize >= 1
    requires |t.bucket| < s.batchOptions.value.batchSize
    ensures |Submit(s, t, e).bucket| < s.batchOptions.value.batchSize
  {
  }

  /**
   * A batch size of zero or less flushes on every call, so a priority entry is followed by a
   * request with an empty batch.
   */
  lemma NonPositiveBatchSizeSendsEmptyBatches(s: HttpSettings, t: Transport, e: HttpLog)
    requires s.batchOptions.Some? && s.batchOptions.value.batchSize <= 0 && Bypasses(s, e)
    ensures Submit(s, t, e).outbox == t.outbox + [Emit(s, [e]), Emit(s, t.bucket)]
  {
  }

  /** Sending a given batch adds exactly its entries to those sent; flushing only moves the bucket. */
  lemma SendBatchConserves(s: HttpSettings, t: Transport, payload: Option<seq<HttpLog>>)
    ensures payload.Some? ==> Pending(SendBatch(s, t, payload)) == Sent(t.outbox) + payload.value + t.bucket
    ensures payload.None? ==> Pending(SendBatch(s, t, payload)) == Pending(t)
  {
    SentAppend(t.outbox, Emit(s, payload.GetOr(t.bucket)));
  }

  lemma PlaceConserves(s: HttpSettings, t: Transport, e: HttpLog)
    ensures multiset(Pending(Place(s, t, e))) == multiset(Pending(t)) + multiset{e}
  {
    if Bypasses(s, e) {
      SendBatchConserves(s, t, Some([e]));
    } else {
      assert Pending(Place(s, t, e)) == Pending(t) + [e];
    }
  }

  /** Submitting loses nothing and duplicates nothing: the entry joins the sent-or-queued entries once. */
  lemma SubmitConservesEntries(s: HttpSettings, t: Transport, e: HttpLog)
    ensures multiset(Pending(Submit(s, t, e))) == multiset(Pending(t)) + multiset{e}
  {
    if s.batchOptions.None? {
      SendBatchConserves(s, t, Some([e]));
    } else {
      var t1 := Place(s, t, e);
      PlaceConserves(s, t, e);
      SendBatchConserves(s, t1, None);
      var t2 := if |t1.bucket| >= s.batchOptions.value.batchSize then SendBatch(s, t1, None) else t1;
      assert Pending(t2) == Pending(t1);
      assert Pending(Submit(s, t, e)) == Pending(t2);
    }
  }

  /** When the timer fires the bucket is emptied into one request, unless it is empty; the order is kept. */
  lemma FireFlushesBucket(s: HttpSettings, t: Transport)
    requires t.armed
    ensures !Fire(s, t).armed && Fire(s, t).bucket == []
    ensures |t.bucket| > 0 <==> Fire(s, t).outbox == t.outbox + [Emit(s, t.bucket)]
    ensures t.bucket == [] ==> Fire(s, t).outbox == t.outbox
    ensures Pending(Fire(s, t)) == Pending(t)
  {
    if |t.bucket| > 0 {
      SentAppend(t.outbox, Emit(s, t.bucket));
    }
  }

  /** A batched call always leaves the timer pending, and a pending timer is not restarted. */
  lemma BatchedCallArmsTimer(s: HttpSettings, t: Transport, e: HttpLog)
    requires s.batchOptions.Some?
    ensures Submit(s, t, e).armed
  {
  }

  /** The status codes that are retried. */
  const RetryCodes: set<int> := {408, 500, 502, 503, 504, 522, 404, 400, 405}

  /** `response.ok`. */
  predicate IsOk(status: int) {
    200 <= status <= 299
  }

  /** What a POST gets back: a status, or a rejected `fetch`. */
  datatype Response = Status(code: int) | NetworkError

  /**
   * How a request ends: the server accepted it, the response error was raised, `fetch`
   * itself failed, or the supplied responses ran out while it was still being retried.
   */
  datatype Outcome = Delivered(code: int) | Raised(code: int) | FetchFailed | Unfinished

  /** The course of a request: the back-off waited before each resend, the POSTs made and the end. */
  datatype Attempt = Attempt(waits: seq<int>, posts: nat, outcome: Outcome)

  /**
   * `sendRequest` against the server's successive responses: a retry code with retries
   * left waits `backoff` and resends with one retry fewer and twice the back-off.
   */
  function Attempts(retries: int, backoff: int, responses: seq<Response>): Attempt
    decreases |responses|
  {
    if responses == [] then Attempt([], 0, Unfinished)
    else match responses[0]
      case NetworkError => Attempt([], 1, FetchFailed)
      case Status(c) =>
        if IsOk(c) then Attempt([], 1, Delivered(c))
        else if retries > 0 && c in RetryCodes then
          var rest := Attempts(retries - 1, backoff * 2, responses[1..]);
          Attempt([backoff] + rest.waits, 1 + rest.posts, rest.outcome)
        else Attempt([], 1, Raised(c))
  }

  function Pow2(k: nat): (p: nat)
    ensures p >= 1
  {
    if k == 0 then 1 else 2 * Pow2(k - 1)
  }

  /** At most `maxRetries + 1` POSTs, one per response consumed, and one wait before every resend. */
  lemma {:induction false} AttemptsCount(retries: int, backoff: int, responses: seq<Response>)
    ensures var a := Attempts(retries, backoff, responses);
      && a.posts <= |responses|
      && a.posts <= (if retries > 0 then retries else 0) + 1
      && (responses != [] ==> a.posts >= 1)
      && |a.waits| == (if a.outcome == Unfinished then a.posts else a.posts - 1)
    decreases |responses|
  {
    if responses != [] && responses[0].Status? && !IsOk(responses[0].code)
       && retries > 0 && responses[0].code in RetryCodes {
      AttemptsCount(retries - 1, backoff * 2, responses[1..]);
    }
  }

  /** The k-th wait is the initial delay times 2^k. */
  lemma {:induction false} AttemptsWaits(retries: int, backoff: int, responses: seq<Response>)
    ensures var a := Attempts(retries, backoff, responses);
      forall k :: 0 <= k < |a.waits| ==> a.waits[k] == backoff * Pow2(k)
    decreases |responses|
  {
    if responses != [] && responses[0].Status? && !IsOk(responses[0].code)
       && retries > 0 && responses[0].code in RetryCodes {
      var rest := Attempts(retries - 1, backoff * 2, responses[1..]);
      AttemptsWaits(retries - 1, backoff * 2, responses[1..]);
      var a := Attempts(retries, backoff, responses);
      assert a.waits == [backoff] + rest.waits;
      forall k | 0 <= k < |a.waits| ensures a.waits[k] == backoff * Pow2(k) {
        if k > 0 {
          assert a.waits[k] == rest.waits[k - 1];
          assert backoff * 2 * Pow2(k - 1) == backoff * Pow2(k);
        }
      }
    }
  }

  /** Every response that was followed by a wait carried a retried status. */
  lemma {:induction false} AttemptsRetried(retries: int, backoff: int, responses: seq<Response>)
    ensures |Attempts(retries, backoff, responses).waits| <= |responses|
    ensures var a := Attempts(retries, backoff, responses);
      forall k :: 0 <= k < |a.waits| ==>
        responses[k].Status? && !IsOk(responses[k].code) && responses[k].code in RetryCodes
    decreases |responses|
  {
    AttemptsCount(retries, backoff, responses);
    if responses != [] && responses[0].Status? && !IsOk(responses[0].code)
       && retries > 0 && responses[0].code in RetryCodes {
      var rest := Attempts(retries - 1, backoff * 2, responses[1..]);
      AttemptsRetried(retries - 1, backoff * 2, responses[1..]);
      var a := Attempts(retries, backoff, responses);
      assert a.waits == [backoff] + rest.waits;
      forall k | 0 <= k < |a.waits|
        ensures responses[k].Status? && !IsOk(responses[k].code) && responses[k].code in RetryCodes
      {
        if k > 0 {
          assert responses[k] == responses[1..][k - 1];
        }
      }
    }
  }

  /**
   * At most `maxRetries + 1` POSTs, one per response consumed; the k-th wait is the initial
   * delay times 2^k; and every response but the last was a retry code.
   */
  lemma AttemptsShape(retries: int, backoff: int, responses: seq<Response>)
    ensures var a := Attempts(retries, backoff, responses);
      && a.posts <= |responses|
      && a.posts <= (if retries > 0 then retries else 0) + 1
      && (responses != [] ==> a.posts >= 1)
      && |a.waits| == (if a.outcome == Unfinished then a.posts else a.posts - 1)
      && (forall k :: 0 <= k < |a.waits| ==> a.waits[k] == backoff * Pow2(k))
      && (forall k :: 0 <= k < |a.waits| ==>
            responses[k].Status? && !IsOk(responses[k].code) && responses[k].code in RetryCodes)
  {
    AttemptsCount(retries, backoff, responses);
    AttemptsWaits(retries, backoff, responses);
    AttemptsRetried(retries, backoff, responses);
  }

  /** The request ends on the last response consumed, and ends on an error only when it may not retry. */
  lemma {:induction false} AttemptsOutcome(retries: int, backoff: int, responses: seq<Response>)
    ensures var a := Attempts(retries, backoff, responses);
      && a.posts <= |responses|
      && (a.outcome == Unfinished ==> a.posts == |responses|)
      && (a.outcome.Delivered? ==> a.posts >= 1 && responses[a.posts - 1] == Status(a.outcome.code) && IsOk(a.outcome.code))
      && (a.outcome.Raised? ==>
            && a.posts >= 1 && responses[a.posts - 1] == Status(a.outcome.code) && !IsOk(a.outcome.code)
            && (a.outcome.code !in RetryCodes || retries - (a.posts - 1) <= 0))
      && (a.outcome == FetchFailed ==> a.posts >= 1 && responses[a.posts - 1] == NetworkError)
    decreases |responses|
  {
    if responses != [] && responses[0].Status? && !IsOk(responses[0].code)
       && retries > 0 && responses[0].code in RetryCodes {
      AttemptsOutcome(retries - 1, backoff * 2, responses[1..]);
      AttemptsCount(retries - 1, backoff * 2, responses[1..]);
      var rest := Attempts(retries - 1, backoff * 2, responses[1..]);
      if rest.posts >= 1 {
        assert responses[1..][rest.posts - 1] == responses[rest.posts];
      }
    }
  }

  /** One step of Attempts, read at position `i` of the responses. */
  lemma AttemptsStep(retries: int, backoff: int, responses: seq<Response>, i: nat)
    requires i < |responses|
    ensures var a := Attempts(retries, backoff, responses[i..]);
      && (responses[i].NetworkError? ==> a == Attempt([], 1, FetchFailed))
      && (responses[i].Status? && IsOk(responses[i].code) ==> a == Attempt([], 1, Delivered(responses[i].code)))
      && (responses[i].Status? && !IsOk(responses[i].code) && retries > 0 && responses[i].code in RetryCodes ==>
            var rest := Attempts(retries - 1, backoff * 2, responses[i + 1..]);
            a == Attempt([backoff] + rest.waits, 1 + rest.posts, rest.outcome))
      && (responses[i].Status? && !IsOk(responses[i].code) && !(retries > 0 && responses[i].code in RetryCodes) ==>
            a == Attempt([], 1, Raised(responses[i].code)))
  {
    assert responses[i..][0] == responses[i];
    assert responses[i..][1..] == responses[i + 1..];
  }

  /**
   * `sendRequest` and its resends, one round per POST: a round stops on success, on a failed
   * `fetch` or on a response it may not retry, and otherwise waits the back-off and resends
   * with one retry fewer and twice the back-off.
   */
  method SendRequest(maxRetries: int, backoffTimeout: int, responses: seq<Response>) returns (a: Attempt)
    ensures a == Attempts(maxRetries, backoffTimeout, responses)
  {
    var retries, backoff := maxRetries, backoffTimeout;
    var waits: seq<int> := [];
    var i: nat := 0;
    var outcome := Unfinished;
    assert responses[0..] == responses;
    while i < |responses|
      invariant 0 <= i <= |responses|
      invariant outcome == Unfinished && retries == maxRetries - i
      invariant
        var rest := Attempts(retries, backoff, responses[i..]);
        Attempts(maxRetries, backoffTimeout, responses) == Attempt(waits + rest.waits, i + rest.posts, rest.outcome)
    {
      var response := responses[i];
      AttemptsStep(retries, backoff, responses, i);
      i := i + 1;
      if response.NetworkError? {
        outcome := FetchFailed;
        assert waits + [] == waits;
        break;
      }
      if IsOk(response.code) {
        outcome := Delivered(response.code);
        assert waits + [] == waits;
        break;
      }
      if retries > 0 && response.code in RetryCodes {
        var rest := Attempts(retries - 1, backoff * 2, responses[i..]);
        assert waits + ([backoff] + rest.waits) == waits + [backoff] + rest.waits;
        waits := waits + [backoff];
        retries, backoff := retries - 1, backoff * 2;
      } else {
        outcome := Raised(response.code);
        assert waits + [] == waits;
        break;
      }
    }
    if outcome == Unfinished {
      assert responses[i..] == [];
      assert waits + [] == waits;
    }
    a := Attempt(waits, i, outcome);
  }

  /** A 503 answered twice and then accepted, with two retries from one second. */
  lemma RetriedTwiceThenDelivered()
    ensures Attempts(2, 1000, [Status(503), Status(503), Status(200)]) == Attempt([1000, 2000], 3, Delivered(200))
  {
    var rs := [Status(503), Status(503), Status(200)];
    assert rs[1..] == [Status(503), Status(200)];
    assert rs[1..][1..] == [Status(200)];
  }

  /** With the default three retries a request is posted at most four times, waiting 1, 2 and 4 seconds. */
  lemma DefaultRetriesGiveUpAfterFourPosts()
    ensures Attempts(3, 1000, [Status(500), Status(500), Status(500), Status(500), Status(500)])
      == Attempt([1000, 2000, 4000], 4, Raised(500))
  {
    var rs := [Status(500), Status(500), Status(500), Status(500), Status(500)];
    assert rs[1..] == [Status(500), Status(500), Status(500), Status(500)];
    assert rs[1..][1..] == [Status(500), Status(500), Status(500)];
    assert rs[1..][1..][1..] == [Status(500), Status(500)];
  }

  /** A status outside the retry codes, such as 403, and a failed `fetch` are never retried. */
  lemma NoRetryOutsideRetryCodes(retries: int, backoff: int, rest: seq<Response>)
    ensures Attempts(retries, backoff, [Status(403)] + rest) == Attempt([], 1, Raised(403))
    ensures Attempts(retries, backoff, [NetworkError] + rest) == Attempt([], 1, FetchFailed)
  {
    assert ([Status(403)] + rest)[0] == Status(403);
    assert ([NetworkError] + rest)[0] == NetworkError;
  }

  /** The entry `log` builds for a record: its log object and, when asked for, its rendered text. */
  function Entry(d: RecordData, r: Renderers, showFormattedLog: bool, loggerFormatter: Option<string>,
                 m: Placeholders): (e: HttpLog)
    ensures e.logData == BuildLogObject(d, r)
    ensures e.formattedLog.Some? <==> showFormattedLog && (d.formatter.Some? || loggerFormatter.Some?)
  {
    HttpLog(BuildLogObject(d, r), if showFormattedLog then Formatted(d.formatter, loggerFormatter, m) else None)
  }

  class HttpLogger {
    const base: BaseLogger
    var serverUrl: string
    var batchOptions: Option<BatchOptions>
    var retryOptions: RetryOptions
    var highPriority: Level
    var headers: Headers
    var setCredentials: bool
    var showFormattedLog: bool
    var logBucket: seq<HttpLog>
    /** The flush timer is pending (`timeoutRef != null`). */
    var timerArmed: bool
    /** Every request handed to `fetch`, oldest first. */
    var requests: seq<Request>

    function Settings(): HttpSettings
      reads this
    {
      HttpSettings(serverUrl, batchOptions, retryOptions, highPriority, setCredentials, showFormattedLog, headers)
    }

    function State(): Transport
      reads this
    {
      Transport(logBucket, timerArmed, requests)
    }

    /** An HTTP logger always has a template of its own. */
    predicate Valid()
      reads this, base
    {
      base.formatter.Some?
    }

    constructor(config: HttpConfig)
      ensures fresh(base) && Valid() && base.level == Some(Debug) && base.formatter == Some(DefaultFormatter)
      ensures Settings() == SettingsOf(config) && State() == Transport([], false, [])
    {
      base := new BaseLogger();
      serverUrl := config.serverUrl.GetOr(DefaultServerUrl);
      batchOptions := config.batchOptions;
      retryOptions := config.retryOptions.GetOr(DefaultRetry);
      highPriority := config.highPriority.GetOr(Critical);
      setCredentials := config.setCredentials.GetOr(false);
      showFormattedLog := config.showFormattedLog.GetOr(false);
      headers := [];
      logBucket := [];
      timerArmed := false;
      requests := [];
    }

    method SetPriorityLog(l: Level)
      modifies this
      ensures Settings() == old(Settings()).(highPriority := l) && State() == old(State())
    {
      highPriority := l;
    }

    method SetHeaders(h: Headers)
      modifies this
      ensures Settings() == old(Settings()).(headers := h) && State() == old(State())
    {
      headers := h;
    }

    /** `sendBatchRequest`: issues one request for the given batch, or for the whole bucket. */
    method SendBatchRequest(payload: Option<seq<HttpLog>>)
      modifies this
      ensures Settings() == old(Settings()) && State() == SendBatch(Settings(), old(State()), payload)
    {
      var buffer: seq<HttpLog>;
      if payload.None? {
        buffer := logBucket;
        logBucket := [];
      } else {
        buffer := payload.value;
      }
      requests := requests + [Request(serverUrl, buffer, retryOptions.maxRetries, retryOptions.retryDelay,
                                      CredentialsMode(setCredentials), RequestHeaders(headers))];
    }

    /** The start of `log`: the entry for the record, with the rendered text when it is asked for. */
    method BuildEntry(rec: LogRecord, r: Renderers) returns (entry: HttpLog)
      requires Valid()
      modifies rec
      ensures entry == Entry(old(rec.Data()), r, showFormattedLog, base.formatter, old(rec.CurrentPlaceholders(r)))
      ensures rec.Data() == old(rec.Data())
      ensures rec.formatPlaceholders
        == (if showFormattedLog then Some(old(rec.CurrentPlaceholders(r))) else old(rec.formatPlaceholders))
    {
      var logData := BuildLogObject(rec.Data(), r);
      var formatted: Option<string> := None;
      if showFormattedLog {
        formatted := base.FormatLog(rec, r);
      }
      entry := HttpLog(logData, formatted);
    }

    /** `log`: builds the entry for the record and sends it, queues it, flushes and arms the timer as Submit says. */
    method Log(rec: LogRecord, r: Renderers)
      requires Valid()
      modifies this, rec
      ensures Valid() && Settings() == old(Settings())
      ensures State() == Submit(Settings(), old(State()),
        Entry(old(rec.Data()), r, showFormattedLog, base.formatter, old(rec.CurrentPlaceholders(r))))
      ensures rec.Data() == old(rec.Data())
      ensures rec.formatPlaceholders
        == (if showFormattedLog then Some(old(rec.CurrentPlaceholders(r))) else old(rec.formatPlaceholders))
    {
      var entry := BuildEntry(rec, r);
      ghost var s, t0 := Settings(), State();
      if batchOptions.None? {
        SendBatchRequest(Some([entry]));
        return;
      }
      if Rank(highPriority) >= entry.logData.level.rank {
        SendBatchRequest(Some([entry]));
      } else {
        logBucket := logBucket + [entry];
      }
      assert State() == Place(s, t0, entry);
      if |logBucket| >= batchOptions.value.batchSize {
        SendBatchRequest(None);
      }
      if timerArmed {
        return;
      }
      timerArmed := true;
    }

    /** The flush timer's callback. */
    method TimerFires()
      requires timerArmed
      modifies this
      ensures Settings() == old(Settings()) && State() == Fire(Settings(), old(State()))
    {
      timerArmed := false;
      if |logBucket| > 0 {
        SendBatchRequest(None);
      }
    }
  }
}
