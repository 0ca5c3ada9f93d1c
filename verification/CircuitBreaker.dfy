/** The circuit breaker (circuitbreaker/circuit_breaker.go). Times are ticks; 0 is the zero time. */
module CircuitBreaker {

  datatype State = Closed | HalfOpened | Opened

  datatype Config = Config(closedMaxErrors: int, halfOpenedMaxErrors: int, maxErrorsInterval: nat, maxWaitInterval: nat)

  datatype Breaker = Breaker(state: State, errorsCount: int, firstErr: int, nextAttempt: int)

  /** One call of `Run`: when it is made, whether a wait is cancelled, how late the function starts after
      the call or after the timer's duration, whether it succeeds and how long it takes. */
  datatype Call = Call(made: int, cancelled: bool, late: nat, ok: bool, took: nat)

  function New(): Breaker
  {
    Breaker(Closed, 0, 0, 0)
  }

  /** The wait is cut short only if there is one. */
  predicate Waits(b: Breaker, c: Call)
  {
    b.state != Closed && c.made < b.nextAttempt
  }

  predicate Cancelled(b: Breaker, c: Call)
  {
    Waits(b, c) && c.cancelled
  }

  /** A timer fires no earlier than its duration after it was set. */
  function Fires(since: int, duration: int, late: nat): int
  {
    since + duration + late
  }

  /** When the function runs, and when it is over. */
  function Ran(b: Breaker, c: Call): int
  {
    if Waits(b, c) then Fires(c.made, b.nextAttempt - c.made, c.late) else c.made + c.late
  }

  function Over(b: Breaker, c: Call): int
  {
    Ran(b, c) + c.took
  }

  /** Calls are made after the zero time. */
  predicate Possible(c: Call)
  {
    c.made > 0
  }

  function HalfOpen(b: Breaker, cfg: Config, now: int): Breaker
  {
    b.(state := HalfOpened, nextAttempt := now + 2 * cfg.maxErrorsInterval)
  }

  function ErrorInClosed(b: Breaker, cfg: Config, now: int): Breaker
  {
    var b := b.(errorsCount := b.errorsCount + 1);
    if b.firstErr == 0 then b.(firstErr := now)
    else if now - b.firstErr > cfg.maxWaitInterval then b.(errorsCount := 0, firstErr := 0, nextAttempt := 0)
    else if b.errorsCount >= cfg.closedMaxErrors then HalfOpen(b, cfg, now)
    else b
  }

  function ErrorInHalfOpen(b: Breaker, cfg: Config, now: int): Breaker
  {
    var b := b.(errorsCount := b.errorsCount + 1);
    if b.errorsCount >= cfg.halfOpenedMaxErrors then b.(state := Opened, nextAttempt := now + cfg.maxWaitInterval)
    else b.(nextAttempt := now + 2 * cfg.maxErrorsInterval)
  }

  function Step(b: Breaker, cfg: Config, c: Call): Breaker
  {
    if Cancelled(b, c) then b else
    match b.state
    case Closed => if c.ok then b else ErrorInClosed(b, cfg, Over(b, c))
    case HalfOpened => if c.ok then New() else ErrorInHalfOpen(b, cfg, Over(b, c))
    case Opened =>
      if c.ok then HalfOpen(b, cfg, Over(b, c))
      else b.(errorsCount := b.errorsCount + 1, nextAttempt := Over(b, c) + cfg.maxWaitInterval)
  }

  // ---- the object

  class CircuitBreaker {
    const cfg: Config
    var state: State
    var errorsCount: int
    var firstErr: int
    var nextAttempt: int

    ghost function View(): Breaker
      reads this
    {
      Breaker(state, errorsCount, firstErr, nextAttempt)
    }

    constructor (cfg: Config)
      ensures View() == New() && this.cfg == cfg
    {
      this.cfg, state, errorsCount, firstErr, nextAttempt := cfg, Closed, 0, 0, 0;
    }

    /** Outside Closed the function never runs before `nextAttempt`; a cancelled wait changes nothing. */
    method Run(c: Call) returns (executed: bool, ran: int)
      requires Possible(c)
      modifies this
      ensures View() == Step(old(View()), cfg, c)
      ensures executed == !Cancelled(old(View()), c) && (executed ==> ran == Ran(old(View()), c))
      ensures executed && old(state) != Closed ==> ran >= old(nextAttempt)
      ensures !executed ==> View() == old(View())
    {
      executed, ran := true, c.made + c.late;
      if state != Closed {
        executed, ran := WaitUntilNextAttempt(c);
        if !executed {
          return;
        }
      }
      var over := ran + c.took;
      match state
      case Closed =>
        if !c.ok { FailInClosed(over); }
      case HalfOpened =>
        if c.ok { TransitToClosed(); } else { FailInHalfOpen(over); }
      case Opened =>
        if c.ok {
          TransitToHalfOpened(over);
        } else {
          errorsCount := errorsCount + 1;
          nextAttempt := over + cfg.maxWaitInterval;
        }
    }

    /** Sets a timer for the time that is left, if any. */
    method WaitUntilNextAttempt(c: Call) returns (ok: bool, ran: int)
      ensures ok == !(c.made < nextAttempt && c.cancelled)
      ensures ok ==> ran >= nextAttempt && ran == if c.made < nextAttempt then nextAttempt + c.late else c.made + c.late
    {
      if c.made < nextAttempt {
        var d := nextAttempt - c.made;
        if c.cancelled {
          return false, c.made;
        }
        return true, Fires(c.made, d, c.late);
      }
      return true, c.made + c.late;
    }

    method FailInClosed(now: int)
      modifies this
      ensures View() == ErrorInClosed(old(View()), cfg, now)
    {
      errorsCount := errorsCount + 1;
      if firstErr == 0 {
        firstErr := now;
        return;
      }
      if now - firstErr > cfg.maxWaitInterval {
        Reset();
        return;
      }
      if errorsCount >= cfg.closedMaxErrors {
        TransitToHalfOpened(now);
      }
    }

    method FailInHalfOpen(now: int)
      modifies this
      ensures View() == ErrorInHalfOpen(old(View()), cfg, now)
    {
      errorsCount := errorsCount + 1;
      if errorsCount >= cfg.halfOpenedMaxErrors {
        state := Opened;
        nextAttempt := now + cfg.maxWaitInterval;
        return;
      }
      nextAttempt := now + 2 * cfg.maxErrorsInterval;
    }

    method Reset()
      modifies this
      ensures View() == Breaker(old(state), 0, 0, 0)
    {
      errorsCount, firstErr, nextAttempt := 0, 0, 0;
    }

    method TransitToClosed()
      modifies this
      ensures View() == New()
    {
      state := Closed;
      Reset();
    }

    method TransitToHalfOpened(now: int)
      modifies this
      ensures View() == HalfOpen(old(View()), cfg, now)
    {
      state := HalfOpened;
      nextAttempt := now + 2 * cfg.maxErrorsInterval;
    }
  }

  // ---- runs

  ghost predicate Runs(b: Breaker, cfg: Config, cs: seq<Call>, b': Breaker)
    decreases |cs|
  {
    if cs == [] then b == b' else Possible(cs[0]) && Runs(Step(b, cfg, cs[0]), cfg, cs[1..], b')
  }

  ghost predicate Inv(b: Breaker, cfg: Config)
  {
    && (b.state != Closed ==> b.errorsCount >= cfg.closedMaxErrors && b.firstErr != 0)
    && (b.state == Opened ==> b.errorsCount >= cfg.halfOpenedMaxErrors)
    && b.errorsCount >= 0 && (b.errorsCount > 0 <==> b.firstErr != 0)
  }

  /** The error thresholds hold in every reachable state. */
  lemma {:induction false} ThresholdsHold(b: Breaker, cfg: Config, cs: seq<Call>, b': Breaker)
    requires Inv(b, cfg) && Runs(b, cfg, cs, b')
    ensures Inv(b', cfg)
    decreases |cs|
  {
    if cs != [] {
      ThresholdsHold(Step(b, cfg, cs[0]), cfg, cs[1..], b');
    }
  }

  /** How the executions of a run ended; calls whose wait was cancelled do not count. */
  ghost function Outcomes(b: Breaker, cfg: Config, cs: seq<Call>): seq<bool>
    decreases |cs|
  {
    if cs == [] then [] else
    var rest := Outcomes(Step(b, cfg, cs[0]), cfg, cs[1..]);
    if Cancelled(b, cs[0]) then rest else [cs[0].ok] + rest
  }

  ghost predicate TwoInARow(os: seq<bool>)
  {
    exists i :: 0 <= i && i + 1 < |os| && os[i] && os[i + 1]
  }

  lemma TwoInTail(os: seq<bool>, head: bool)
    requires TwoInARow(os) || (head && os != [] && os[0])
    ensures TwoInARow([head] + os)
  {
    var all := [head] + os;
    if TwoInARow(os) {
      var i :| 0 <= i && i + 1 < |os| && os[i] && os[i + 1];
      assert all[i + 1] && all[i + 1 + 1];
    } else {
      assert all[0] && all[0 + 1];
    }
  }

  /** Opened returns to Closed only through two consecutive successful executions. */
  lemma {:induction false} OpenedCloses(b: Breaker, cfg: Config, cs: seq<Call>, b': Breaker)
    requires Inv(b, cfg) && Runs(b, cfg, cs, b') && b.state == Opened && b'.state == Closed
    ensures TwoInARow(Outcomes(b, cfg, cs))
    decreases |cs|
  {
    var next := Step(b, cfg, cs[0]);
    if Cancelled(b, cs[0]) {
      OpenedCloses(next, cfg, cs[1..], b');
    } else {
      if cs[0].ok {
        ProbeCloses(next, cfg, cs[1..], b');
      } else {
        OpenedCloses(next, cfg, cs[1..], b');
      }
      TwoInTail(Outcomes(next, cfg, cs[1..]), cs[0].ok);
    }
  }

  /** Half open with the errors of Opened still counted: a failure opens it again. */
  lemma {:induction false} ProbeCloses(b: Breaker, cfg: Config, cs: seq<Call>, b': Breaker)
    requires Inv(b, cfg) && b.errorsCount >= cfg.halfOpenedMaxErrors
    requires Runs(b, cfg, cs, b') && b.state == HalfOpened && b'.state == Closed
    ensures var os := Outcomes(b, cfg, cs); TwoInARow(os) || (os != [] && os[0])
    decreases |cs|
  {
    var next := Step(b, cfg, cs[0]);
    if Cancelled(b, cs[0]) {
      ProbeCloses(next, cfg, cs[1..], b');
    } else if !cs[0].ok {
      OpenedCloses(next, cfg, cs[1..], b');
      TwoInTail(Outcomes(next, cfg, cs[1..]), false);
    }
  }

  /** Cancelled waits change nothing. */
  lemma {:induction false} NothingExecuted(b: Breaker, cfg: Config, cs: seq<Call>, b': Breaker)
    requires Runs(b, cfg, cs, b') && Outcomes(b, cfg, cs) == []
    ensures b' == b
    decreases |cs|
  {
    if cs != [] {
      NothingExecuted(b, cfg, cs[1..], b');
    }
  }

  /** The pause after an execution that leaves the breaker in this state. */
  function Pause(cfg: Config, state: State): nat
  {
    if state == Opened then cfg.maxWaitInterval else 2 * cfg.maxErrorsInterval
  }

  /** While the breaker is not closed, executions keep their distance: the next one starts when it is
      called or when the pause after the last one is over, whichever is later, and so no sooner than the
      shorter of the two configured pauses. */
  lemma Spacing(b: Breaker, cfg: Config, c: Call, between: seq<Call>, b': Breaker, d: Call)
    requires Possible(c) && !Cancelled(b, c) && Step(b, cfg, c).state != Closed
    requires Runs(Step(b, cfg, c), cfg, between, b') && Outcomes(Step(b, cfg, c), cfg, between) == []
    requires Possible(d) && !Cancelled(b', d)
    ensures var due := Over(b, c) + Pause(cfg, b'.state);
      Ran(b', d) == (if d.made < due then due else d.made) + d.late
    ensures Ran(b', d) - Over(b, c) >= if 2 * cfg.maxErrorsInterval < cfg.maxWaitInterval
        then 2 * cfg.maxErrorsInterval else cfg.maxWaitInterval
  {
    NothingExecuted(Step(b, cfg, c), cfg, between, b');
  }

  // ---- when it leaves Closed

  /** When the failing calls of a closed breaker are over. */
  function FailureTimes(cs: seq<Call>): seq<int>
  {
    if cs == [] then [] else
    var before, c := FailureTimes(cs[..|cs| - 1]), cs[|cs| - 1];
    if c.ok then before else before + [c.made + c.late + c.took]
  }

  /** The failures that count together: a failure later than the interval after the first of them ends the
      window and is forgotten. */
  function Window(cfg: Config, ts: seq<int>): seq<int>
  {
    if ts == [] then [] else Widened(cfg, Window(cfg, ts[..|ts| - 1]), ts[|ts| - 1])
  }

  function Widened(cfg: Config, w: seq<int>, t: int): seq<int>
  {
    if w == [] then [t] else if t - w[0] > cfg.maxWaitInterval then [] else w + [t]
  }

  predicate Full(cfg: Config, w: seq<int>)
  {
    |w| >= 2 && |w| >= cfg.closedMaxErrors
  }

  ghost predicate NeverFull(cfg: Config, ts: seq<int>)
  {
    forall k {:trigger Window(cfg, ts[..k])} :: 0 <= k <= |ts| ==> !Full(cfg, Window(cfg, ts[..k]))
  }

  /** The state after the calls, from a new breaker. */
  function After(cfg: Config, cs: seq<Call>): Breaker
  {
    if cs == [] then New() else Step(After(cfg, cs[..|cs| - 1]), cfg, cs[|cs| - 1])
  }

  ghost predicate StaysClosed(cfg: Config, cs: seq<Call>)
  {
    forall k {:trigger After(cfg, cs[..k])} :: 0 <= k <= |cs| ==> After(cfg, cs[..k]).state == Closed
  }

  ghost predicate AllPossible(cs: seq<Call>)
  {
    forall c <- cs :: Possible(c)
  }

  /** Over every run from the start, the breaker stays closed if and only if the failures never fill a
      window; and while it does, it counts the failures of the window. */
  lemma {:induction false} TripsExactly(cfg: Config, cs: seq<Call>)
    requires AllPossible(cs)
    ensures StaysClosed(cfg, cs) <==> NeverFull(cfg, FailureTimes(cs))
    ensures StaysClosed(cfg, cs) ==> Counts(After(cfg, cs), Window(cfg, FailureTimes(cs)))
  {
    if cs == [] {
      assert cs[..0] == cs && FailureTimes(cs)[..0] == [];
    } else {
      var before, c := cs[..|cs| - 1], cs[|cs| - 1];
      assert c in cs && forall x <- before :: x in cs;
      TripsExactly(cfg, before);
      ClosedSplit(cfg, cs);
      FullSplit(cfg, cs);
      if StaysClosed(cfg, before) {
        WindowPositive(cfg, before);
        ClosedStep(cfg, Window(cfg, FailureTimes(before)), After(cfg, before), c);
        WindowSplit(cfg, cs);
      }
    }
  }

  /** What a closed breaker knows of the window. */
  predicate Counts(b: Breaker, w: seq<int>)
  {
    b == Breaker(Closed, |w|, if w == [] then 0 else w[0], 0)
  }

  lemma ClosedStep(cfg: Config, w: seq<int>, b: Breaker, c: Call)
    requires Counts(b, w) && (forall t <- w :: t > 0) && Possible(c)
    ensures var w', b' := if c.ok then w else Widened(cfg, w, c.made + c.late + c.took), Step(b, cfg, c);
      if !c.ok && Full(cfg, w') then b'.state == HalfOpened else Counts(b', w')
  {
    if w != [] {
      assert w[0] in w;
    }
  }

  lemma WindowSplit(cfg: Config, cs: seq<Call>)
    requires cs != []
    ensures var before, c := cs[..|cs| - 1], cs[|cs| - 1];
      Window(cfg, FailureTimes(cs)) == if c.ok then Window(cfg, FailureTimes(before))
        else Widened(cfg, Window(cfg, FailureTimes(before)), c.made + c.late + c.took)
  {
    var ts, past := FailureTimes(cs), FailureTimes(cs[..|cs| - 1]);
    if !cs[|cs| - 1].ok {
      assert ts[..|ts| - 1] == past;
    }
  }

  lemma ClosedSplit(cfg: Config, cs: seq<Call>)
    requires cs != []
    ensures StaysClosed(cfg, cs) <==> StaysClosed(cfg, cs[..|cs| - 1]) && After(cfg, cs).state == Closed
  {
    var before := cs[..|cs| - 1];
    assert cs[..|cs|] == cs;
    forall k | 0 <= k <= |before| ensures before[..k] == cs[..k] {}
  }

  lemma FullSplit(cfg: Config, cs: seq<Call>)
    requires cs != []
    ensures var ts, before := FailureTimes(cs), FailureTimes(cs[..|cs| - 1]);
      NeverFull(cfg, ts) <==> NeverFull(cfg, before) && !Full(cfg, Window(cfg, ts))
  {
    var ts, before := FailureTimes(cs), FailureTimes(cs[..|cs| - 1]);
    assert ts[..|ts|] == ts && before[..|before|] == before;
    forall k | 0 <= k <= |before| ensures before[..k] == ts[..k] {}
  }

  lemma {:induction false} WindowPositive(cfg: Config, cs: seq<Call>)
    requires AllPossible(cs)
    ensures forall t <- FailureTimes(cs) :: t > 0
    ensures forall t <- Window(cfg, FailureTimes(cs)) :: t > 0
  {
    if cs != [] {
      var before, c := cs[..|cs| - 1], cs[|cs| - 1];
      assert c in cs && forall x <- before :: x in cs;
      WindowPositive(cfg, before);
    }
  }

  /** Failures within the interval after the first of them. */
  ghost predicate Together(cfg: Config, ts: seq<int>)
  {
    forall t <- ts :: t - ts[0] <= cfg.maxWaitInterval
  }

  lemma {:induction false} WindowTogether(cfg: Config, ts: seq<int>, k: nat)
    requires Together(cfg, ts) && k <= |ts|
    ensures Window(cfg, ts[..k]) == ts[..k]
  {
    if k > 0 {
      WindowTogether(cfg, ts, k - 1);
      assert ts[..k][..k - 1] == ts[..k - 1] && ts[k - 1] in ts;
      assert ts[..k] == ts[..k - 1] + [ts[k - 1]];
    }
  }

  /** So n failures within the interval make it leave Closed if and only if n is at least 2 and at least the
      configured number. */
  lemma TripsTogether(cfg: Config, cs: seq<Call>)
    requires AllPossible(cs) && Together(cfg, FailureTimes(cs))
    ensures StaysClosed(cfg, cs) <==> |FailureTimes(cs)| < 2 || |FailureTimes(cs)| < cfg.closedMaxErrors
  {
    var ts := FailureTimes(cs);
    TripsExactly(cfg, cs);
    forall k | 0 <= k <= |ts| ensures Window(cfg, ts[..k]) == ts[..k] {
      WindowTogether(cfg, ts, k);
    }
    assert Window(cfg, ts[..|ts|]) == ts;
  }

  // ---- what executions lead to outside Closed

  ghost predicate AllFailed(os: seq<bool>)
  {
    forall o <- os :: !o
  }

  /** Failing executions outside Closed are all counted, and the breaker is opened, or stays so, if and only
      if the count has reached the configured number. */
  lemma {:induction false} OpensExactly(b: Breaker, cfg: Config, cs: seq<Call>, b': Breaker)
    requires Inv(b, cfg) && b.state != Closed && Runs(b, cfg, cs, b') && AllFailed(Outcomes(b, cfg, cs))
    ensures b'.errorsCount == b.errorsCount + |Outcomes(b, cfg, cs)| && b'.firstErr == b.firstErr
    ensures Outcomes(b, cfg, cs) == [] ==> b' == b
    ensures Outcomes(b, cfg, cs) != [] ==>
      b'.state == if b'.errorsCount >= cfg.halfOpenedMaxErrors then Opened else HalfOpened
    decreases |cs|
  {
    if cs != [] {
      var next, os := Step(b, cfg, cs[0]), Outcomes(b, cfg, cs);
      var rest := Outcomes(next, cfg, cs[1..]);
      if !Cancelled(b, cs[0]) {
        assert os[0] == cs[0].ok && os[0] in os;
        assert forall o <- rest :: o in os;
      }
      OpensExactly(next, cfg, cs[1..], b');
    }
  }

  /** One successful execution closes a half opened breaker and makes an opened one half opened, with its
      errors still counted. A closed breaker does not notice. */
  lemma {:induction false} SuccessCloses(b: Breaker, cfg: Config, cs: seq<Call>, b': Breaker)
    requires Runs(b, cfg, cs, b') && Outcomes(b, cfg, cs) == [true]
    ensures match b.state
      case Closed => b' == b
      case HalfOpened => b' == New()
      case Opened => b'.state == HalfOpened && b'.errorsCount == b.errorsCount && b'.firstErr == b.firstErr
    decreases |cs|
  {
    var next := Step(b, cfg, cs[0]);
    if Cancelled(b, cs[0]) {
      SuccessCloses(next, cfg, cs[1..], b');
    } else {
      FirstOutcome(b, cfg, cs);
      NothingExecuted(next, cfg, cs[1..], b');
    }
  }

  lemma FirstOutcome(b: Breaker, cfg: Config, cs: seq<Call>)
    requires cs != [] && !Cancelled(b, cs[0])
    ensures var os := Outcomes(b, cfg, cs);
      os != [] && os[0] == cs[0].ok && os[1..] == Outcomes(Step(b, cfg, cs[0]), cfg, cs[1..])
  {
  }

  /** Two in a row close it, with nothing left of what was counted. */
  lemma {:induction false} TwoSuccessesClose(b: Breaker, cfg: Config, cs: seq<Call>, b': Breaker)
    requires b.state != Closed && Runs(b, cfg, cs, b') && Outcomes(b, cfg, cs) == [true, true]
    ensures b' == New()
    decreases |cs|
  {
    var next := Step(b, cfg, cs[0]);
    if Cancelled(b, cs[0]) {
      TwoSuccessesClose(next, cfg, cs[1..], b');
    } else {
      FirstOutcome(b, cfg, cs);
      assert [true, true][1..] == [true];
      SuccessCloses(next, cfg, cs[1..], b');
    }
  }
}
