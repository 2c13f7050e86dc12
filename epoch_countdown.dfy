/**
 * The countdown hook with React taken away: five state cells, the `alive`
 * flag of each run of the fetching effect, and the events that change them
 * (a fetch starting, a fetch answering, the one-second tick, a manual
 * refresh, and teardown of the screen).
 */
module EpochCountdown {
  import opened Wrappers
  import opened Epoch

  /**
   * A snapshot of the hook's state. `effectRun` counts the runs of the
   * fetching effect (each refresh starts a new one) and `mounted` is false
   * after teardown; a fetch started by run `t` is still alive exactly when
   * the component is mounted and `t` is the current run.
   */
  datatype ClockState = ClockState(
    status: Option<EpochStatus>,
    eta: int,
    error: Option<string>,
    secondsSinceUpdate: int,
    refreshTick: nat,
    effectRun: nat,
    mounted: bool)

  /** What can happen to the hook. A fetch answers with a status or an error message. */
  datatype Event =
    | FetchStart
    | FetchDone(ticket: nat, outcome: Result<EpochStatus, string>)
    | Tick
    | Refresh
    | TearDown

  /** The state right after mounting (every `useState` initial value). */
  function Initial(): ClockState {
    ClockState(None, 0, None, 0, 0, 0, true)
  }

  /** The `alive` flag of the effect run that started fetch `ticket`. */
  predicate Alive(st: ClockState, ticket: nat) {
    st.mounted && ticket == st.effectRun
  }

  function Max0(x: int): int {
    if x > 0 then x else 0
  }

  /** One event. Intervals and effects stop with teardown, so a torn-down hook ignores everything. */
  function Step(st: ClockState, ev: Event): ClockState {
    if !st.mounted then st
    else
      match ev
      case FetchStart => st.(error := None)
      case FetchDone(ticket, outcome) =>
        if !Alive(st, ticket) then st
        else if outcome.Ok? then
          st.(status := Some(outcome.value), eta := outcome.value.etaSeconds, secondsSinceUpdate := 0)
        else
          st.(error := Some(outcome.error), status := None)
      case Tick =>
        if st.status.None? then st
        else st.(eta := Max0(st.eta - 1), secondsSinceUpdate := st.secondsSinceUpdate + 1)
      case Refresh =>
        // the effect re-runs: the old run is no longer alive and the new one starts a fetch
        st.(refreshTick := st.refreshTick + 1, effectRun := st.effectRun + 1, error := None)
      case TearDown => st.(mounted := false)
  }

  /** The state after a sequence of events, applied in order. */
  function Run(st: ClockState, evs: seq<Event>): ClockState
    decreases |evs|
  {
    if evs == [] then st else Run(Step(st, evs[0]), evs[1..])
  }

  /** `n` consecutive ticks. */
  function Ticks(st: ClockState, n: nat): ClockState {
    if n == 0 then st else Step(Ticks(st, n - 1), Tick)
  }

  // ----- properties of single events -----

  lemma InitialState()
    ensures var st := Initial();
            st.status == None && st.eta == 0 && st.error == None
            && st.secondsSinceUpdate == 0 && st.refreshTick == 0 && st.mounted
  {
  }

  /** A fetch start clears the error and nothing else. */
  lemma FetchStartClearsError(st: ClockState)
    requires st.mounted
    ensures Step(st, FetchStart) == st.(error := None)
  {
  }

  /** A live success adopts the status and its estimate and restarts the staleness counter. */
  lemma FetchSuccess(st: ClockState, ticket: nat, s: EpochStatus)
    requires Alive(st, ticket)
    ensures var r := Step(st, FetchDone(ticket, Ok(s)));
            r.status == Some(s) && r.eta == s.etaSeconds && r.secondsSinceUpdate == 0
            && r.error == st.error && r.refreshTick == st.refreshTick
  {
  }

  /**
   * A live failure records the message and drops the status, so the tick
   * stops; the last eta and the staleness counter stay as they were.
   */
  lemma FetchFailure(st: ClockState, ticket: nat, msg: string)
    requires Alive(st, ticket)
    ensures var r := Step(st, FetchDone(ticket, Err(msg)));
            r.error == Some(msg) && r.status == None
            && r.eta == st.eta && r.secondsSinceUpdate == st.secondsSinceUpdate
            && Step(r, Tick) == r
  {
  }

  /** An answer to a fetch whose effect run is over changes nothing. */
  lemma StaleAnswerIgnored(st: ClockState, ticket: nat, outcome: Result<EpochStatus, string>)
    requires !Alive(st, ticket)
    ensures Step(st, FetchDone(ticket, outcome)) == st
  {
  }

  /** A refresh bumps `refreshTick` by exactly one and retires every earlier fetch. */
  lemma RefreshRetiresEarlierFetches(st: ClockState, ticket: nat, outcome: Result<EpochStatus, string>)
    requires st.mounted && ticket <= st.effectRun
    ensures var r := Step(st, Refresh);
            r.refreshTick == st.refreshTick + 1 && r.error == None
            && Step(r, FetchDone(ticket, outcome)) == r
  {
  }

  /** The clock only ticks while there is a status. */
  lemma TickNeedsStatus(st: ClockState)
    ensures st.status.None? ==> Step(st, Tick) == st
    ensures st.status.Some? && st.mounted ==>
              Step(st, Tick) == st.(eta := Max0(st.eta - 1), secondsSinceUpdate := st.secondsSinceUpdate + 1)
  {
  }

  // ----- properties of event sequences -----

  /** After `n` ticks without a refresh the eta is `max(0, eta - n)` and the counter grew by `n`. */
  lemma {:induction false} TicksCountDown(st: ClockState, n: nat)
    requires st.status.Some? && st.mounted && st.eta >= 0
    ensures Ticks(st, n) == st.(eta := Max0(st.eta - n), secondsSinceUpdate := st.secondsSinceUpdate + n)
  {
    if n > 0 {
      TicksCountDown(st, n - 1);
      var prev := Ticks(st, n - 1);
      assert prev.status.Some? && prev.mounted;
      assert Max0(Max0(st.eta - (n - 1)) - 1) == Max0(st.eta - n);
    }
  }

  lemma TicksExamples(s: EpochStatus)
    ensures var st := Initial().(status := Some(s), eta := 10);
            Ticks(st, 3).eta == 7 && Ticks(st, 3).secondsSinceUpdate == 3
    ensures Ticks(Initial().(status := Some(s), eta := 2), 5).eta == 0
  {
    TicksCountDown(Initial().(status := Some(s), eta := 10), 3);
    TicksCountDown(Initial().(status := Some(s), eta := 2), 5);
  }

  /** Once torn down, no event (fetch answers included) changes the state. */
  lemma {:induction false} TornDownIsFinal(st: ClockState, evs: seq<Event>)
    requires !st.mounted
    ensures Run(st, evs) == st
    decreases |evs|
  {
    if evs != [] {
      TornDownIsFinal(Step(st, evs[0]), evs[1..]);
    }
  }

  /** Every status a fetch can deliver has a non-negative estimate. */
  predicate WellFormedEvents(evs: seq<Event>) {
    forall i :: 0 <= i < |evs| && evs[i].FetchDone? && evs[i].outcome.Ok? ==>
      evs[i].outcome.value.etaSeconds >= 0
  }

  /** The eta never goes negative, over any sequence of events from the initial state. */
  lemma {:induction false} EtaNeverNegative(st: ClockState, evs: seq<Event>)
    requires st.eta >= 0 && WellFormedEvents(evs)
    ensures Run(st, evs).eta >= 0
    decreases |evs|
  {
    if evs != [] {
      assert WellFormedEvents(evs[1..]) by {
        forall i | 0 <= i < |evs[1..]| ensures evs[1..][i] == evs[i + 1] { }
      }
      EtaNeverNegative(Step(st, evs[0]), evs[1..]);
    }
  }

  /** The hook's state cells, updated in place by the hook's callbacks. */
  class CountdownClock {
    var status: Option<EpochStatus>
    var eta: int
    var error: Option<string>
    var secondsSinceUpdate: int
    var refreshTick: nat
    var effectRun: nat
    var mounted: bool

    function State(): ClockState
      reads this
    {
      ClockState(status, eta, error, secondsSinceUpdate, refreshTick, effectRun, mounted)
    }

    /** Mounting: the initial values of the state cells. */
    constructor ()
      ensures State() == Initial()
    {
      status := None;
      eta := 0;
      error := None;
      secondsSinceUpdate := 0;
      refreshTick := 0;
      effectRun := 0;
      mounted := true;
    }

    /** `fetchNow` begins (on effect start or on the 30 s poll); its ticket is the current run. */
    method StartFetch() returns (ticket: nat)
      modifies this
      ensures State() == Step(old(State()), FetchStart)
      ensures ticket == effectRun
    {
      if mounted {
        error := None;
      }
      ticket := effectRun;
    }

    /** `fetchNow` resumes after `fetchEpochStatus` resolved or threw. */
    method FinishFetch(ticket: nat, outcome: Result<EpochStatus, string>)
      modifies this
      ensures State() == Step(old(State()), FetchDone(ticket, outcome))
    {
      var alive := mounted && ticket == effectRun;
      if !alive {
        return;
      }
      match outcome
      case Ok(s) =>
        status := Some(s);
        eta := s.etaSeconds;
        secondsSinceUpdate := 0;
      case Err(msg) =>
        error := Some(msg);
        status := None;
    }

    /** The one-second interval callback, installed only while there is a status. */
    method OnTick()
      modifies this
      ensures State() == Step(old(State()), Tick)
    {
      if mounted && status.Some? {
        eta := Max0(eta - 1);
        secondsSinceUpdate := secondsSinceUpdate + 1;
      }
    }

    /** `refresh`: bump the tick, which re-runs the fetching effect; returns the new fetch's ticket. */
    method DoRefresh() returns (ticket: nat)
      modifies this
      ensures State() == Step(old(State()), Refresh)
      ensures mounted ==> ticket == effectRun
    {
      if mounted {
        refreshTick := refreshTick + 1;
        effectRun := effectRun + 1;
        error := None;
      }
      ticket := effectRun;
    }

    /** Teardown: the effect's cleanup sets `alive` to false and clears both intervals. */
    method Unmount()
      modifies this
      ensures State() == Step(old(State()), TearDown)
    {
      mounted := false;
    }
  }
}
