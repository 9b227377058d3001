/** `handleGenerate`: the single-flight generation lifecycle. The remote
    call is an outcome chosen by the environment; the interval that drives
    the countdown is a number of ticks that fire before the call settles. */
module Generation {
  import opened Wrappers
  import opened Types
  import opened Quota
  import opened Countdown

  /** The `App` component's state that generation reads or writes. */
  datatype Session = Session(
    app: AppState,
    isGenerating: bool,
    countdown: Option<int>,
    generatedImage: Option<string>,
    error: Option<string>,
    dailyCount: int,
    store: Stored)

  /** How the remote call settles: an image URL, or a thrown error with its
      `message` (None when the thrown value has none). */
  datatype Outcome = Success(imageUrl: string) | Failure(message: Option<string>)

  const LIMIT_REACHED := "Daily limit reached. Please come back tomorrow!"
  const NO_PROFILE := "Please upload a profile photo first."
  const GENERATION_FAILED := "Failed to generate outfit. Please try again."

  datatype Verdict = Proceed | QuotaExhausted | MissingProfile

  /** The two pre-flight checks, quota first. */
  function Preflight(s: Session): (v: Verdict)
    ensures v == Proceed <==> s.dailyCount < DAILY_LIMIT && s.app.HasProfile()
    ensures v == QuotaExhausted <==> s.dailyCount >= DAILY_LIMIT
  {
    if s.dailyCount >= DAILY_LIMIT then QuotaExhausted
    else if !s.app.HasProfile() then MissingProfile
    else Proceed
  }

  /** A generation is under way and its countdown shows 1 to 20 seconds. */
  predicate InFlight(s: Session) {
    s.isGenerating && s.countdown.Some? && 1 <= s.countdown.value <= INITIAL_ESTIMATE
  }

  /** The synchronous part of `handleGenerate`, up to the remote call: a
      rejected attempt only reports its reason; an accepted one clears the
      previous result and error and starts the countdown. */
  function Start(s: Session): (r: Session)
    ensures Preflight(s) == QuotaExhausted ==> r == s.(error := Some(LIMIT_REACHED))
    ensures Preflight(s) == MissingProfile ==> r == s.(error := Some(NO_PROFILE))
    ensures Preflight(s) == Proceed ==>
              && InFlight(r)
              && r.countdown == Some(INITIAL_ESTIMATE)
              && r.error.None? && r.generatedImage.None?
              && r.app == s.app && r.dailyCount == s.dailyCount && r.store == s.store
  {
    match Preflight(s)
    case QuotaExhausted => s.(error := Some(LIMIT_REACHED))
    case MissingProfile => s.(error := Some(NO_PROFILE))
    case Proceed =>
      s.(isGenerating := true, countdown := Some(INITIAL_ESTIMATE), error := None, generatedImage := None)
  }

  /** One firing of the countdown interval, which exists exactly while a
      generation is in flight. Only the countdown moves. */
  function TickSession(s: Session): (r: Session)
    ensures r == s.(countdown := r.countdown)
    ensures !s.isGenerating ==> r == s
    ensures InFlight(s) ==> InFlight(r) && r.countdown.value <= s.countdown.value
  {
    if s.isGenerating then s.(countdown := Some(Tick(s.countdown))) else s
  }

  /** `n` firings of the interval. */
  function TickSessions(s: Session, n: nat): (r: Session)
    ensures r == s.(countdown := r.countdown)
    ensures InFlight(s) ==> InFlight(r) && r.countdown == Some(Ticks(s.countdown.value, n))
  {
    if n == 0 then s else TickSession(TickSessions(s, n - 1))
  }

  /** The message `err.message || "Failed to generate ..."` shows. */
  function ErrorText(message: Option<string>): (text: string)
    ensures text != ""
    ensures Truthy(message) ==> text == message.value
    ensures !Truthy(message) ==> text == GENERATION_FAILED
  {
    if Truthy(message) then message.value else GENERATION_FAILED
  }

  /** The `try`/`catch`/`finally` after the remote call: success stores the
      image and spends one unit of quota, failure stores the message and
      spends nothing; either way the countdown stops and the flag drops. */
  function Settle(s: Session, outcome: Outcome, today: Day): (r: Session)
    ensures !r.isGenerating && r.countdown.None?
    ensures r.app == s.app
    ensures outcome.Success? ==>
              && r.generatedImage == Some(outcome.imageUrl) && r.error == s.error
              && r.dailyCount == s.dailyCount + 1
              && InSync(QuotaState(r.dailyCount, r.store), today)
    ensures outcome.Failure? ==>
              && r.generatedImage == s.generatedImage && r.error == Some(ErrorText(outcome.message))
              && r.dailyCount == s.dailyCount && r.store == s.store
  {
    var settled :=
      match outcome
      case Success(url) =>
        var q := IncrementLimit(s.dailyCount, today);
        s.(generatedImage := Some(url), dailyCount := q.count, store := q.store)
      case Failure(message) =>
        s.(error := Some(ErrorText(message)));
    settled.(countdown := None, isGenerating := false)
  }

  /** One click on "Generate": pre-flight, `ticks` countdown steps while
      the call is pending, then the outcome. */
  function HandleGenerate(s: Session, ticks: nat, outcome: Outcome, today: Day): (r: Session)
    ensures Preflight(s) == QuotaExhausted ==> r == s.(error := Some(LIMIT_REACHED))
    ensures Preflight(s) == MissingProfile ==> r == s.(error := Some(NO_PROFILE))
    ensures Preflight(s) == Proceed ==> !r.isGenerating && r.countdown.None? && r.app == s.app
    ensures Preflight(s) == Proceed && outcome.Success? ==>
              && r.generatedImage == Some(outcome.imageUrl) && r.error.None?
              && r.dailyCount == s.dailyCount + 1
              && r.store == Record(today, r.dailyCount)
    ensures Preflight(s) == Proceed && outcome.Failure? ==>
              && r.generatedImage.None? && r.error == Some(ErrorText(outcome.message))
              && r.dailyCount == s.dailyCount && r.store == s.store
    ensures r.dailyCount == s.dailyCount || (outcome.Success? && r.dailyCount == s.dailyCount + 1)
    ensures s.dailyCount <= DAILY_LIMIT ==> r.dailyCount <= DAILY_LIMIT
  {
    var started := Start(s);
    if Preflight(s) != Proceed then started
    else Settle(TickSessions(started, ticks), outcome, today)
  }

  /** While the call is pending the countdown runs down from 20, never below 1. */
  lemma PendingCountdown(s: Session, ticks: nat)
    requires Preflight(s) == Proceed
    ensures InFlight(TickSessions(Start(s), ticks))
    ensures TickSessions(Start(s), ticks).countdown == Some(if ticks < INITIAL_ESTIMATE then INITIAL_ESTIMATE - ticks else 1)
  {
  }

  /** A rejected attempt never reaches the remote call: its result does not
      depend on the outcome, the ticks or the date. */
  lemma RejectionIgnoresOutcome(s: Session, t1: nat, o1: Outcome, d1: Day, t2: nat, o2: Outcome, d2: Day)
    requires Preflight(s) != Proceed
    ensures HandleGenerate(s, t1, o1, d1) == HandleGenerate(s, t2, o2, d2)
  {
  }

  /** One click of a sequence of clicks, each with its own environment. */
  datatype Attempt = Attempt(ticks: nat, outcome: Outcome, today: Day)

  function SuccessCount(attempts: seq<Attempt>): nat {
    if |attempts| == 0 then 0
    else (if attempts[0].outcome.Success? then 1 else 0) + SuccessCount(attempts[1..])
  }

  /** A session of clicks on "Generate", one after another. */
  function Run(s: Session, attempts: seq<Attempt>): (r: Session)
    ensures r.app == s.app
    ensures s.dailyCount <= r.dailyCount <= s.dailyCount + SuccessCount(attempts)
    ensures s.dailyCount <= DAILY_LIMIT ==> r.dailyCount <= DAILY_LIMIT
    decreases |attempts|
  {
    if |attempts| == 0 then s
    else Run(HandleGenerate(s, attempts[0].ticks, attempts[0].outcome, attempts[0].today), attempts[1..])
  }

  /** Failed generations never consume quota, however many there are. */
  lemma {:induction false} FailuresKeepQuota(s: Session, attempts: seq<Attempt>)
    requires forall i :: 0 <= i < |attempts| ==> attempts[i].outcome.Failure?
    ensures Run(s, attempts).dailyCount == s.dailyCount
    ensures Run(s, attempts).store == s.store
    decreases |attempts|
  {
    if |attempts| > 0 {
      var a := attempts[0];
      FailuresKeepQuota(HandleGenerate(s, a.ticks, a.outcome, a.today), attempts[1..]);
    }
  }

  /** With a profile set and room left under the limit, quota rises by
      exactly the number of successful generations. */
  lemma {:induction false} QuotaCountsSuccesses(s: Session, attempts: seq<Attempt>)
    requires s.app.HasProfile()
    requires s.dailyCount + SuccessCount(attempts) <= DAILY_LIMIT
    ensures Run(s, attempts).dailyCount == s.dailyCount + SuccessCount(attempts)
    decreases |attempts|
  {
    if |attempts| > 0 {
      var a := attempts[0];
      QuotaCountsSuccesses(HandleGenerate(s, a.ticks, a.outcome, a.today), attempts[1..]);
    }
  }
}
