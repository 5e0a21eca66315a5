/**
 * The home page's submit-and-poll flow: the form values become the request to
 * `/api/get_recs`, whose reply names two backend jobs; `/api/results` is then polled
 * with that job pair until it answers with the result list (stored for the
 * recommendations page, followed by navigation) or with anything that counts as a failure.
 * Every fetch response is an input.
 */
module HomePage {
  import opened Movies
  import BrowserStorage

  /** The four form values the page keeps in its state. */
  datatype Form = Form(username: string, performanceRatio: int, popularityThreshold: int, contributeRatings: bool)

  /** The form's values when the page is first shown. */
  const INITIAL_FORM: Form := Form("", 500000, -1, false)

  /** A request parameter value, before URLSearchParams turns it into text. */
  datatype ParamValue = Text(text: string) | Number(number: int) | Flag(flag: bool)

  /** The request parameters object, keyed by parameter name. */
  type Params = map<string, ParamValue>

  const USERNAME_KEY: string := "username"
  const TRAINING_DATA_SIZE_KEY: string := "training_data_size"
  const POPULARITY_FILTER_KEY: string := "popularity_filter"
  const DATA_OPT_IN_KEY: string := "data_opt_in"

  /** The route the page navigates to once the results are stored. */
  const RECOMMENDATIONS_ROUTE: string := "/recommendations"

  const STATUS_OK: int := 200
  const STATUS_ACCEPTED: int := 202

  /** Delay before the next poll after a "still computing" reply. */
  const RETRY_DELAY_MS: nat := 1000

  /** The parameters sent with the submit request, one per form value. */
  function BuildParams(form: Form): (p: Params)
    ensures p.Keys == {USERNAME_KEY, TRAINING_DATA_SIZE_KEY, POPULARITY_FILTER_KEY, DATA_OPT_IN_KEY}
  {
    map[USERNAME_KEY := Text(form.username),
        TRAINING_DATA_SIZE_KEY := Number(form.performanceRatio),
        POPULARITY_FILTER_KEY := Number(form.popularityThreshold),
        DATA_OPT_IN_KEY := Flag(form.contributeRatings)]
  }

  /** Reads the form values back from a parameters object; `None` when one is missing or of the wrong kind. */
  function FormOf(p: Params): Option<Form>
  {
    if && USERNAME_KEY in p && p[USERNAME_KEY].Text?
       && TRAINING_DATA_SIZE_KEY in p && p[TRAINING_DATA_SIZE_KEY].Number?
       && POPULARITY_FILTER_KEY in p && p[POPULARITY_FILTER_KEY].Number?
       && DATA_OPT_IN_KEY in p && p[DATA_OPT_IN_KEY].Flag?
    then Some(Form(p[USERNAME_KEY].text, p[TRAINING_DATA_SIZE_KEY].number,
                   p[POPULARITY_FILTER_KEY].number, p[DATA_OPT_IN_KEY].flag))
    else None
  }

  /** The request carries every form value unchanged: the form can be read back from it. */
  lemma ParamsRoundTrip(form: Form)
    ensures FormOf(BuildParams(form)) == Some(form)
  {
  }

  /** The request carries nothing else: a parameters object with exactly these keys is the one built from its form. */
  lemma ParamsCarryNothingElse(p: Params)
    requires p.Keys == {USERNAME_KEY, TRAINING_DATA_SIZE_KEY, POPULARITY_FILTER_KEY, DATA_OPT_IN_KEY}
    requires FormOf(p).Some?
    ensures BuildParams(FormOf(p).value) == p
  {
  }

  /** The body of the submit reply, as read by `.json()` and destructured. */
  datatype SubmitBody =
    | SubmitBodyUnreadable   // `.json()` rejected, or the JSON was null, so destructuring threw
    | SubmitBodyJson(userDataJobId: Option<string>, buildModelJobId: Option<string>)

  /** What the submit fetch produced. */
  datatype SubmitResponse =
    | SubmitNetworkError     // the fetch promise rejected
    | SubmitReply(ok: bool, body: SubmitBody)

  /** The two backend job handles every poll is sent with; a handle may be undefined. */
  datatype JobIds = JobIds(buildModelJobId: Option<string>, userDataJobId: Option<string>)

  /** The `result` field of a finished poll's JSON body. */
  datatype ResultField =
    | ResultMissing          // absent or falsy
    | ResultNotArray         // present but not an array
    | ResultArray(items: seq<Item>)

  /** The body of a poll reply; it is only read when the status is 200. */
  datatype PollBody = PollBodyUnreadable | PollBodyJson(result: ResultField)

  /** What one poll fetch produced. */
  datatype PollResponse =
    | PollNetworkError
    | PollReply(status: int, body: PollBody)

  /** Why polling ended without results; the page only logs it. */
  datatype FailureReason =
    | NetworkError
    | UnreadableBody
    | InvalidResultsFormat
    | BadStatus(status: int)

  /** How one poll response is handled. */
  datatype PollOutcome = Pending | Ready(items: seq<Item>) | Failed(reason: FailureReason)

  /** The job pair a submit response yields, or `None` when the submit step fails. */
  function SubmitJobIds(r: SubmitResponse): (ids: Option<JobIds>)
    ensures ids.Some? <==> r.SubmitReply? && r.ok && r.body.SubmitBodyJson?
    ensures ids.Some? ==> ids.value.buildModelJobId == r.body.buildModelJobId
                          && ids.value.userDataJobId == r.body.userDataJobId
  {
    match r
    case SubmitNetworkError => None
    case SubmitReply(ok, body) =>
      if !ok then None
      else match body
        case SubmitBodyUnreadable => None
        case SubmitBodyJson(userData, buildModel) => Some(JobIds(buildModel, userData))
  }

  /** Dispatch on one poll response by status code and body shape. */
  function Classify(r: PollResponse): (o: PollOutcome)
    ensures o.Pending? <==> r.PollReply? && r.status == STATUS_ACCEPTED
    ensures o.Ready? <==> r.PollReply? && r.status == STATUS_OK && r.body.PollBodyJson? && r.body.result.ResultArray?
    ensures o.Ready? ==> o.items == r.body.result.items
    ensures r.PollReply? && r.status == STATUS_OK && r.body.PollBodyJson? && !r.body.result.ResultArray?
            ==> o == Failed(InvalidResultsFormat)
    ensures r.PollReply? && r.status != STATUS_OK && r.status != STATUS_ACCEPTED ==> o == Failed(BadStatus(r.status))
  {
    match r
    case PollNetworkError => Failed(NetworkError)
    case PollReply(status, body) =>
      if status == STATUS_OK then
        match body
        case PollBodyUnreadable => Failed(UnreadableBody)
        case PollBodyJson(result) =>
          if result.ResultArray? then Ready(result.items) else Failed(InvalidResultsFormat)
      else if status == STATUS_ACCEPTED then Pending
      else Failed(BadStatus(status))
  }

  /** Every one of the first `n` responses says "still computing". */
  predicate AllPending(script: seq<PollResponse>, n: nat)
    requires n <= |script|
  {
    forall j | 0 <= j < n :: Classify(script[j]).Pending?
  }

  /** Where the polling stands once the script has been used. */
  datatype PollEnd = StillPolling | Succeeded(items: seq<Item>) | Stopped(reason: FailureReason)

  datatype PollRun = PollRun(end: PollEnd, consumed: nat)

  function EndOf(o: PollOutcome): PollEnd
  {
    match o
    case Pending => StillPolling
    case Ready(items) => Succeeded(items)
    case Failed(reason) => Stopped(reason)
  }

  /**
   * The poll loop over a finite script of responses (the i-th poll gets the i-th response).
   * It ends at the first response that is not "still computing"; if there is none, it
   * consumes the whole script and is still polling: there is no attempt limit.
   */
  function PollLoop(script: seq<PollResponse>): (run: PollRun)
    ensures run.consumed <= |script|
    ensures run.end.StillPolling? <==> AllPending(script, |script|)
    ensures run.end.StillPolling? ==> run.consumed == |script|
    ensures !run.end.StillPolling? ==>
              && 1 <= run.consumed
              && AllPending(script, run.consumed - 1)
              && !Classify(script[run.consumed - 1]).Pending?
              && run.end == EndOf(Classify(script[run.consumed - 1]))
    decreases |script|
  {
    if script == [] then PollRun(StillPolling, 0)
    else
      var o := Classify(script[0]);
      if o.Pending? then
        var rest := PollLoop(script[1..]);
        assert forall j | 1 <= j < |script| :: script[j] == script[1..][j - 1];
        PollRun(rest.end, rest.consumed + 1)
      else
        PollRun(EndOf(o), 1)
  }

  /** The loop ends exactly at the first response that is not "still computing". */
  lemma PollLoopEndsAt(script: seq<PollResponse>, k: nat)
    requires 1 <= k <= |script|
    requires AllPending(script, k - 1)
    requires !Classify(script[k - 1]).Pending?
    ensures PollLoop(script) == PollRun(EndOf(Classify(script[k - 1])), k)
  {
  }

  /** Responses after the one that ended the loop are never looked at. */
  lemma {:induction false} PollLoopIgnoresLaterResponses(script: seq<PollResponse>, more: seq<PollResponse>)
    requires !PollLoop(script).end.StillPolling?
    ensures PollLoop(script + more) == PollLoop(script)
  {
    var k := PollLoop(script).consumed;
    assert forall j | 0 <= j < |script| :: (script + more)[j] == script[j];
    PollLoopEndsAt(script + more, k);
  }

  /** The page's phase: which event it is waiting for, if any. */
  datatype Phase =
    | Idle                          // nothing in flight; the submit button is enabled
    | AwaitingSubmit                // the submit fetch is in flight
    | AwaitingPoll                  // one poll fetch is in flight
    | RetryScheduled(delayMs: nat)  // one timer is set to poll again
    | Navigated                     // results stored, router pushed to the recommendations page

  /** The whole observable state after one submission has been driven through a script. */
  datatype FlowEnd = FlowEnd(
    isLoading: bool,
    entries: map<string, seq<Item>>,
    navigatedTo: Option<string>,
    jobIds: Option<JobIds>,
    polls: seq<JobIds>,
    phase: Phase,
    consumed: nat)

  /**
   * One submission from an idle page: storage before it, the submit response and the
   * script of poll responses determine everything that follows.
   */
  function Flow(entries: map<string, seq<Item>>, submit: SubmitResponse, script: seq<PollResponse>): (f: FlowEnd)
    ensures f.consumed <= |script|
    // a failed submit: no poll, no store, no navigation, and the page is no longer loading
    ensures SubmitJobIds(submit).None? ==>
              !f.isLoading && f.polls == [] && f.consumed == 0 && f.entries == entries && f.navigatedTo == None
    // every poll is sent with the pair the single submit returned
    ensures forall j | 0 <= j < |f.polls| :: Some(f.polls[j]) == SubmitJobIds(submit)
    ensures f.jobIds == SubmitJobIds(submit)
    // the loading state ends exactly on a failure, of the submit or of a poll
    ensures !f.isLoading <==> SubmitJobIds(submit).None? || PollLoop(script).end.Stopped?
    // results are stored and the page navigates exactly when a poll succeeded
    ensures f.navigatedTo.Some? <==> SubmitJobIds(submit).Some? && PollLoop(script).end.Succeeded?
    ensures f.navigatedTo.Some? ==>
              f.navigatedTo.value == RECOMMENDATIONS_ROUTE
              && f.entries == entries[BrowserStorage.RECOMMENDATIONS_KEY := PollLoop(script).end.items]
    ensures f.navigatedTo.None? ==> f.entries == entries
    // one poll for the first attempt and one more per "still computing" reply
    ensures SubmitJobIds(submit).Some? ==>
              f.consumed == PollLoop(script).consumed
              && |f.polls| == if PollLoop(script).end.StillPolling? then f.consumed + 1 else f.consumed
    // while polling goes on, exactly one poll is in flight
    ensures f.phase.AwaitingPoll? <==> SubmitJobIds(submit).Some? && PollLoop(script).end.StillPolling?
  {
    match SubmitJobIds(submit)
    case None => FlowEnd(false, entries, None, None, [], Idle, 0)
    case Some(ids) =>
      var run := PollLoop(script);
      match run.end
      case StillPolling =>
        FlowEnd(true, entries, None, Some(ids), seq(run.consumed + 1, _ => ids), AwaitingPoll, run.consumed)
      case Succeeded(items) =>
        FlowEnd(true, entries[BrowserStorage.RECOMMENDATIONS_KEY := items], Some(RECOMMENDATIONS_ROUTE),
                Some(ids), seq(run.consumed, _ => ids), Navigated, run.consumed)
      case Stopped(_) =>
        FlowEnd(false, entries, None, Some(ids), seq(run.consumed, _ => ids), Idle, run.consumed)
  }

  /** Once the flow has ended, further responses change nothing: no attempt follows a terminal one. */
  lemma FlowIgnoresLaterResponses(entries: map<string, seq<Item>>, submit: SubmitResponse,
                                  script: seq<PollResponse>, more: seq<PollResponse>)
    requires !Flow(entries, submit, script).phase.AwaitingPoll?
    ensures Flow(entries, submit, script + more) == Flow(entries, submit, script)
  {
    if SubmitJobIds(submit).Some? {
      PollLoopIgnoresLaterResponses(script, more);
    }
  }

  /** A "still computing" reply changes nothing except that one more poll is sent. */
  lemma FlowAfterPending(entries: map<string, seq<Item>>, submit: SubmitResponse,
                          r: PollResponse, script: seq<PollResponse>)
    requires SubmitJobIds(submit).Some?
    requires Classify(r).Pending?
    ensures var before := Flow(entries, submit, script);
            var after := Flow(entries, submit, [r] + script);
            && after.isLoading == before.isLoading
            && after.entries == before.entries
            && after.navigatedTo == before.navigatedTo
            && after.phase == before.phase
            && after.consumed == before.consumed + 1
            && after.polls == [SubmitJobIds(submit).value] + before.polls
  {
  }

  /**
   * The home page. The four form values, the loading flag, the job pair of the current
   * submission, the polls it has sent and the route pushed are its state; the storage
   * object is shared with the recommendations page.
   */
  class Home {
    var username: string
    var performanceRatio: int
    var popularityThreshold: int
    var contributeRatings: bool
    var isLoading: bool
    var phase: Phase
    var jobIds: Option<JobIds>
    var polls: seq<JobIds>
    var navigatedTo: Option<string>
    const storage: BrowserStorage.LocalStorage

    /**
     * The page keeps loading from submit until a failure; at most one attempt is pending
     * (the phase is a single value); every poll of a submission carries its one job pair.
     */
    ghost predicate Valid()
      reads this
    {
      && (isLoading <==> !phase.Idle?)
      && (navigatedTo.Some? <==> phase.Navigated?)
      && (navigatedTo.Some? ==> navigatedTo.value == RECOMMENDATIONS_ROUTE)
      && (phase.AwaitingSubmit? ==> jobIds.None? && polls == [])
      && (phase.AwaitingPoll? || phase.RetryScheduled? || phase.Navigated? ==> jobIds.Some? && |polls| >= 1)
      && (phase.RetryScheduled? ==> phase.delayMs == RETRY_DELAY_MS)
      && (forall j | 0 <= j < |polls| :: Some(polls[j]) == jobIds)
    }

    function CurrentForm(): Form
      reads this
    {
      Form(username, performanceRatio, popularityThreshold, contributeRatings)
    }

    constructor (storage: BrowserStorage.LocalStorage)
      ensures Valid()
      ensures CurrentForm() == INITIAL_FORM
      ensures !isLoading && phase == Idle && jobIds == None && polls == [] && navigatedTo == None
      ensures this.storage == storage
    {
      username, performanceRatio, popularityThreshold, contributeRatings := "", 500000, -1, false;
      isLoading, phase, jobIds, polls, navigatedTo := false, Idle, None, [], None;
      this.storage := storage;
    }

    method SetUsername(value: string)
      modifies this`username
      ensures username == value
    {
      username := value;
    }

    method SetPerformanceRatio(value: int)
      modifies this`performanceRatio
      ensures performanceRatio == value
    {
      performanceRatio := value;
    }

    method SetPopularityThreshold(value: int)
      modifies this`popularityThreshold
      ensures popularityThreshold == value
    {
      popularityThreshold := value;
    }

    method SetContributeRatings(value: bool)
      modifies this`contributeRatings
      ensures contributeRatings == value
    {
      contributeRatings := value;
    }

    /**
     * The form's submit event. While loading the submit button is disabled, and while the
     * username is empty the `required` input blocks the submit: in both cases no event
     * arrives. Otherwise the page starts loading and sends the submit request.
     */
    method Submit() returns (request: Option<Params>)
      requires Valid()
      modifies this
      ensures Valid()
      ensures old(isLoading) || old(username) == "" ==> request == None && unchanged(this)
      ensures !old(isLoading) && old(username) != "" ==>
                && request == Some(BuildParams(old(CurrentForm())))
                && isLoading && phase == AwaitingSubmit && jobIds == None && polls == [] && navigatedTo == None
      ensures CurrentForm() == old(CurrentForm())
    {
      if isLoading || username == "" {
        request := None;
        return;
      }
      isLoading := true;
      request := Some(BuildParams(CurrentForm()));
      phase, jobIds, polls := AwaitingSubmit, None, [];
    }

    /** The submit fetch settled: either reset the loading state, or send the first poll. */
    method OnSubmitResponse(response: SubmitResponse)
      requires Valid() && phase == AwaitingSubmit
      modifies this
      ensures Valid()
      ensures SubmitJobIds(response).None? ==> !isLoading && phase == Idle && jobIds == None && polls == []
      ensures SubmitJobIds(response).Some? ==>
                isLoading && phase == AwaitingPoll && jobIds == SubmitJobIds(response) && polls == [jobIds.value]
      ensures navigatedTo == None && CurrentForm() == old(CurrentForm())
    {
      var ids := SubmitJobIds(response);
      if ids.None? {
        isLoading := false;
        phase := Idle;
      } else {
        jobIds := ids;
        polls := [ids.value];
        phase := AwaitingPoll;
      }
    }

    /** A poll fetch settled: schedule one retry, store and navigate, or reset the loading state. */
    method OnPollResponse(response: PollResponse)
      requires Valid() && phase == AwaitingPoll
      modifies this, storage
      ensures Valid()
      ensures jobIds == old(jobIds) && polls == old(polls) && CurrentForm() == old(CurrentForm())
      ensures match Classify(response)
                case Pending =>
                  && phase == RetryScheduled(RETRY_DELAY_MS) && isLoading && navigatedTo == None
                  && storage.entries == old(storage.entries)
                case Ready(items) =>
                  && phase == Navigated && isLoading && navigatedTo == Some(RECOMMENDATIONS_ROUTE)
                  && storage.entries == old(storage.entries)[BrowserStorage.RECOMMENDATIONS_KEY := items]
                case Failed(_) =>
                  && phase == Idle && !isLoading && navigatedTo == None
                  && storage.entries == old(storage.entries)
    {
      match Classify(response)
      case Pending =>
        phase := RetryScheduled(RETRY_DELAY_MS);
      case Ready(items) =>
        storage.SetItem(BrowserStorage.RECOMMENDATIONS_KEY, items);
        navigatedTo := Some(RECOMMENDATIONS_ROUTE);
        phase := Navigated;
      case Failed(_) =>
        isLoading := false;
        phase := Idle;
    }

    /** The retry timer fired: send the next poll with the same job pair. */
    method OnRetryTimer()
      requires Valid() && phase.RetryScheduled?
      modifies this
      ensures Valid()
      ensures phase == AwaitingPoll && polls == old(polls) + [old(jobIds).value]
      ensures isLoading && jobIds == old(jobIds) && navigatedTo == None && CurrentForm() == old(CurrentForm())
    {
      polls := polls + [jobIds.value];
      phase := AwaitingPoll;
    }

    /**
     * One submission from an idle page with a non-empty username, driven by its submit
     * response and a script of poll responses; every scheduled retry fires before the next
     * response is delivered.
     */
    method HandleSubmit(submit: SubmitResponse, script: seq<PollResponse>) returns (request: Params, consumed: nat)
      requires Valid() && !isLoading && username != ""
      modifies this, storage
      ensures Valid()
      ensures request == BuildParams(old(CurrentForm()))
      ensures CurrentForm() == old(CurrentForm())
      ensures var f := Flow(old(storage.entries), submit, script);
              && isLoading == f.isLoading && storage.entries == f.entries && navigatedTo == f.navigatedTo
              && jobIds == f.jobIds && polls == f.polls && phase == f.phase && consumed == f.consumed
    {
      var sent := Submit();
      request := sent.value;
      OnSubmitResponse(submit);
      consumed := 0;
      if phase.Idle? {
        return;
      }
      ghost var ids := jobIds.value;
      while consumed < |script| && phase == AwaitingPoll
        invariant Valid()
        invariant consumed <= |script|
        invariant CurrentForm() == old(CurrentForm())
        invariant jobIds == Some(ids) == SubmitJobIds(submit)
        invariant phase.AwaitingPoll? || phase.Idle? || phase.Navigated?
        invariant phase.AwaitingPoll? ==>
                    AllPending(script, consumed) && |polls| == consumed + 1 && storage.entries == old(storage.entries)
        invariant !phase.AwaitingPoll? ==>
                    && 1 <= consumed && AllPending(script, consumed - 1) && |polls| == consumed
                    && match Classify(script[consumed - 1])
                       case Pending => false
                       case Ready(items) =>
                         phase.Navigated? && storage.entries == old(storage.entries)[BrowserStorage.RECOMMENDATIONS_KEY := items]
                       case Failed(_) => phase.Idle? && storage.entries == old(storage.entries)
        decreases |script| - consumed
      {
        OnPollResponse(script[consumed]);
        consumed := consumed + 1;
        if phase.RetryScheduled? {
          OnRetryTimer();
        }
      }
      if !phase.AwaitingPoll? {
        PollLoopEndsAt(script, consumed);
      }
    }
  }
}
