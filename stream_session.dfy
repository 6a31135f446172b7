/**
 * The outer shape of `stream_chat`: the pre-flight credential check, then at
 * most two attempts (one retry) at sending the request and relaying the
 * stream, and the closing `data: [DONE]` line.
 *
 * What each attempt meets (missing credentials, a body that cannot be built,
 * a non-200 answer, a stream that ends or raises, whether a refresh arrived in
 * time) is given as a script; the network, the browser refresh and the waits
 * are outside the model. The chunk lines a stream yields are those of the
 * frame decoder and the response translator.
 */
module StreamSession {
  import opened Wrappers

  /** `max_retries`: one retry after the first attempt. */
  const MaxRetries: nat := 1

  /** How the relayed stream of one attempt ended. */
  datatype StreamEnd =
    | Finished
      // AuthError raised while relaying, whether new credentials and then the page arrived in time, and
      // the exception raised on reading the new credentials' `headers` and `url`, if any
    | AuthRaised(message: string, refreshed: bool, uiReady: bool, rereadError: Option<string>)
    | OtherRaised(message: string)

  /** What one attempt meets. */
  datatype Attempt =
    | NoCredentials                                    // `get_credentials()` returned None
    | BuildRaised(error: string)                       // building the body raised (outside the try block)
    | Rejected(status: int, text: string, refreshed: bool)  // a non-200 answer; whether a refresh arrived
    | Streamed(lines: seq<string>, end: StreamEnd)     // the chunk lines yielded, then how the stream ended

  /** One line the generator yields. */
  datatype Event =
    | Chunk(line: string)
    | NoCredentialsNotice                  // the pre-flight `error-no-creds` chunk
    | UpstreamError(status: int, text: string)
    | AuthenticationError(message: string)
    | RequestError(message: string)
    | Done                                 // `data: [DONE]`

  /** The lines yielded and the exception the generator ends with, if any. */
  datatype Session = Session(events: seq<Event>, raised: Option<string>)

  /** The statuses after which the gateway refreshes credentials and retries. */
  predicate IsAuthStatus(status: int) {
    status == 400 || status == 401 || status == 403
  }

  predicate IsErrorEvent(e: Event) {
    e.UpstreamError? || e.AuthenticationError? || e.RequestError?
  }

  function Yielded(lines: seq<string>): (r: seq<Event>)
    ensures |r| == |lines| && forall i :: 0 <= i < |lines| ==> r[i] == Chunk(lines[i])
  {
    seq(|lines|, i requires 0 <= i < |lines| => Chunk(lines[i]))
  }

  /** `events` yielded before the session `s`. */
  function After(events: seq<Event>, s: Session): Session {
    Session(events + s.events, s.raised)
  }

  /** How an attempt leaves the loop: on to the retry, out of the loop to `[DONE]`, or out of the generator. */
  datatype Verdict = Retry | Close | Stop(raised: Option<string>)

  /** Attempt number `i`: the lines it yields and where it leaves the loop. */
  function Attempted(a: Attempt, i: nat): (r: (seq<Event>, Verdict))
    ensures i >= MaxRetries ==> !r.1.Retry?
    ensures Done !in r.0
    ensures !r.1.Stop? ==> forall k :: 0 <= k < |r.0| ==> r.0[k].Chunk?
    ensures r.1.Stop? && r.1.raised.Some? ==> r.0 == [] || (a.Streamed? && r.0 == Yielded(a.lines))
  {
    match a
    case NoCredentials => if i > 0 then ([], Close) else ([], Stop(None))
    case BuildRaised(e) => ([], Stop(Some(e)))
    case Rejected(status, text, refreshed) =>
      // a refreshed harvest without `headers` or `url` raises inside the try block,
      // whose generic handler retries as well
      if IsAuthStatus(status) && i < MaxRetries && refreshed then ([], Retry)
      else ([UpstreamError(status, text)], Stop(None))
    case Streamed(lines, end) =>
      match end
      case Finished => (Yielded(lines), Close)
      case AuthRaised(m, refreshed, uiReady, rereadError) =>
        if i < MaxRetries && refreshed && uiReady then
          // raised inside the AuthError handler, so no other handler of the attempt catches it
          if rereadError.Some? then (Yielded(lines), Stop(rereadError)) else (Yielded(lines), Retry)
        else (Yielded(lines) + [AuthenticationError(m)], Stop(None))
      case OtherRaised(m) =>
        if i < MaxRetries then (Yielded(lines), Retry)
        else (Yielded(lines) + [RequestError(m)], Stop(None))
  }

  /** The attempts from number `i` on. */
  function Run(attempts: seq<Attempt>, i: nat): Session
    requires i <= |attempts|
    decreases |attempts| - i
  {
    if i == |attempts| then Session([Done], None)
    else
      var (yielded, verdict) := Attempted(attempts[i], i);
      match verdict
      case Retry => After(yielded, Run(attempts, i + 1))
      case Close => Session(yielded + [Done], None)
      case Stop(raised) => Session(yielded, raised)
  }

  /**
   * The whole session. `needsRefresh` is the pre-flight test (no credentials,
   * or credentials older than 3000 seconds), `refreshed` whether new ones
   * arrived in time, `presentAfter` whether any credentials are held then.
   */
  function Chat(needsRefresh: bool, refreshed: bool, presentAfter: bool, attempts: seq<Attempt>): Session
    requires |attempts| == MaxRetries + 1
  {
    if needsRefresh && !refreshed && !presentAfter then Session([NoCredentialsNotice, Done], None)
    else Run(attempts, 0)
  }

  /** `stream_chat`, attempt by attempt. */
  method StreamChat(needsRefresh: bool, refreshed: bool, presentAfter: bool, attempts: seq<Attempt>)
    returns (events: seq<Event>, raised: Option<string>)
    requires |attempts| == MaxRetries + 1
    ensures Session(events, raised) == Chat(needsRefresh, refreshed, presentAfter, attempts)
  {
    events := [];
    raised := None;
    if needsRefresh && !refreshed && !presentAfter {
      events := [NoCredentialsNotice, Done];
      return;
    }
    ghost var total := Run(attempts, 0);
    var attempt := 0;
    while attempt < |attempts|
      invariant 0 <= attempt <= |attempts|
      invariant After(events, Run(attempts, attempt)) == total
      decreases |attempts| - attempt
    {
      var (yielded, verdict) := Attempted(attempts[attempt], attempt);
      RunAt(attempts, attempt, yielded, verdict);
      match verdict {
        case Retry =>
          AfterAfter(events, yielded, Run(attempts, attempt + 1));
          events := events + yielded;
          attempt := attempt + 1;
        case Close =>
          AfterAfter(events, yielded, Session([Done], None));
          events := events + yielded;
          break;
        case Stop(r) =>
          AfterAfter(events, yielded, Session([], r));
          events := events + yielded;
          raised := r;
          return;
      }
    }
    if attempt == |attempts| {
      AfterAfter(events, [], Session([Done], None));
    }
    events := events + [Done];
  }

  /** One attempt of the run: where its verdict sends the rest of the session. */
  lemma RunAt(attempts: seq<Attempt>, i: nat, yielded: seq<Event>, verdict: Verdict)
    requires i < |attempts| && Attempted(attempts[i], i) == (yielded, verdict)
    ensures verdict.Retry? ==> Run(attempts, i) == After(yielded, Run(attempts, i + 1))
    ensures verdict.Close? ==> Run(attempts, i) == After(yielded, Session([Done], None))
    ensures verdict.Stop? ==> Run(attempts, i) == After(yielded, Session([], verdict.raised))
  {
    assert yielded + [] == yielded;
  }

  lemma AfterAfter(a: seq<Event>, b: seq<Event>, s: Session)
    ensures After(a, After(b, s)) == After(a + b, s)
  {
    assert a + (b + s.events) == (a + b) + s.events;
  }

  /**
   * `[DONE]` closes the session properly: when it is yielded it is the last
   * line, no error line and no other `[DONE]` precede it, and the generator
   * does not raise.
   */
  predicate ClosedProperly(s: Session) {
    Done in s.events ==>
      s.raised.None? && s.events[|s.events| - 1] == Done &&
      forall k :: 0 <= k < |s.events| - 1 ==> s.events[k] != Done && !IsErrorEvent(s.events[k])
  }

  /** Every session from attempt `i` on is closed properly: the three error exits return without `[DONE]`. */
  lemma {:induction false} RunClosedProperly(attempts: seq<Attempt>, i: nat)
    requires i <= |attempts|
    ensures ClosedProperly(Run(attempts, i))
    decreases |attempts| - i
  {
    if i < |attempts| {
      var (yielded, verdict) := Attempted(attempts[i], i);
      if verdict.Retry? {
        RunClosedProperly(attempts, i + 1);
        ChunksThen(yielded, Run(attempts, i + 1));
      }
    }
  }

  /** Chunk lines put before a properly closed session leave it properly closed. */
  lemma ChunksThen(chunks: seq<Event>, rest: Session)
    requires forall k :: 0 <= k < |chunks| ==> chunks[k].Chunk?
    requires ClosedProperly(rest)
    ensures ClosedProperly(After(chunks, rest))
  {
    var s := After(chunks, rest);
    var n := |chunks|;
    if Done in s.events {
      assert Done !in chunks;
      assert Done in rest.events;
      forall k | 0 <= k < |s.events| - 1 ensures s.events[k] != Done && !IsErrorEvent(s.events[k]) {
        if k >= n {
          assert s.events[k] == rest.events[k - n];
        }
      }
    }
  }

  /** The whole session, the pre-flight notice included, is closed properly. */
  lemma ChatClosedProperly(needsRefresh: bool, refreshed: bool, presentAfter: bool, attempts: seq<Attempt>)
    requires |attempts| == MaxRetries + 1
    ensures ClosedProperly(Chat(needsRefresh, refreshed, presentAfter, attempts))
  {
    RunClosedProperly(attempts, 0);
  }

  /** A stream that ends normally on the first attempt is relayed and closed with `[DONE]`. */
  lemma FirstStreamRelayed(lines: seq<string>, second: Attempt)
    ensures Run([Streamed(lines, Finished), second], 0) == Session(Yielded(lines) + [Done], None)
  {
  }

  /**
   * An AuthError in the first stream, with credentials and page back in time,
   * starts the second attempt; the lines the first stream already yielded stay
   * in front of the second attempt's.
   */
  lemma AuthErrorRetried(lines: seq<string>, m: string, second: Attempt)
    ensures Run([Streamed(lines, AuthRaised(m, true, true, None)), second], 0) ==
      After(Yielded(lines), Run([Streamed(lines, AuthRaised(m, true, true, None)), second], 1))
  {
  }

  /**
   * When the refreshed credentials lack `headers` or `url`, the KeyError escapes
   * the generator after the lines already relayed: no retry, no error line and no `[DONE]`.
   */
  lemma UnreadableRefreshEndsGenerator(lines: seq<string>, m: string, e: string, second: Attempt)
    ensures Run([Streamed(lines, AuthRaised(m, true, true, Some(e))), second], 0) == Session(Yielded(lines), Some(e))
  {
  }

  /** An error on the last attempt is reported as an error line with no `[DONE]` after it. */
  lemma LastAttemptErrorReported(first: Attempt, status: int, text: string, refreshed: bool)
    ensures Run([first, Rejected(status, text, refreshed)], 1) == Session([UpstreamError(status, text)], None)
  {
  }

  /** Missing credentials on the retry end the loop, and the session closes with `[DONE]`. */
  lemma MissingCredentialsOnRetryClose(first: Attempt)
    ensures Run([first, NoCredentials], 1) == Session([Done], None)
  {
  }

  /** Missing credentials on the first attempt end the generator with no line at all. */
  lemma MissingCredentialsFirstSilent(second: Attempt)
    ensures Run([NoCredentials, second], 0) == Session([], None)
  {
  }
}
