/** The HTML parser's yield decision: a pump session counts the tokens it has processed and
    only every 4097th token (or right after a script) looks at the clock, yielding once the
    session has run longer than the parser's time limit.

    Times are integer ticks of an abstract monotonic clock; the clock reading is passed in
    as `now`, and a start time of 0 means that the session has not read the clock yet. */
module HTMLParserScheduling {

  /** Tokens processed between two looks at the clock. */
  const NumberOfTokensBeforeCheckingForYield: nat := 4096

  /** The three counters of a pump session, as a value. */
  datatype SessionState = SessionState(processedTokens: nat, startTime: int, didSeeScript: bool)

  /** The largest token count a session reaches. */
  const MaximumProcessedTokens: nat := NumberOfTokensBeforeCheckingForYield + 1

  /** checkForYield: restart the token count; on the first look record the start time and
      go on, on later looks yield when the elapsed time exceeds the limit. */
  function CheckForYieldStep(s: SessionState, now: int, parserTimeLimit: int): (r: (SessionState, bool))
    ensures r.0.processedTokens == 1 && !r.0.didSeeScript
    ensures s.startTime == 0 ==> r.0.startTime == now && !r.1
    ensures s.startTime != 0 ==> r.0.startTime == s.startTime && (r.1 <==> now - s.startTime > parserTimeLimit)
  {
    var reset := s.(processedTokens := 1, didSeeScript := false);
    if s.startTime == 0 then (reset.(startTime := now), false)
    else (reset, now - s.startTime > parserTimeLimit)
  }

  /** Whether shouldYieldBeforeToken looks at the clock. */
  predicate ChecksClock(s: SessionState) {
    s.processedTokens > NumberOfTokensBeforeCheckingForYield || s.didSeeScript
  }

  /** shouldYieldBeforeToken: look at the clock after 4096 counted tokens or a script,
      otherwise count the token and go on. */
  function ShouldYieldStep(s: SessionState, now: int, parserTimeLimit: int): (r: (SessionState, bool))
    ensures ChecksClock(s) ==> r == CheckForYieldStep(s, now, parserTimeLimit)
    ensures !ChecksClock(s) ==> !r.1 && r.0 == s.(processedTokens := s.processedTokens + 1)
    // the count never goes past 4097, so an unsigned counter cannot wrap around
    ensures s.processedTokens <= MaximumProcessedTokens ==> r.0.processedTokens <= MaximumProcessedTokens
  {
    if ChecksClock(s) then CheckForYieldStep(s, now, parserTimeLimit)
    else (s.(processedTokens := s.processedTokens + 1), false)
  }

  /** The session after `k` tokens in a row with no script seen, the clock reading `now`
      at each of them, and whether any of them yielded. */
  function Run(s: SessionState, k: nat, now: int, parserTimeLimit: int): (r: (SessionState, bool))
    decreases k
  {
    if k == 0 then (s, false)
    else
      var step := ShouldYieldStep(s, now, parserTimeLimit);
      var rest := Run(step.0, k - 1, now, parserTimeLimit);
      (rest.0, step.1 || rest.1)
  }

  /** Between two looks at the clock a session passes tokens without yielding and without
      reading the clock: from a count of p, the next 4097 - p tokens are counted, and the
      one after them looks at the clock. */
  lemma {:induction false} CountsUpToCheck(s: SessionState, now: int, parserTimeLimit: int)
    requires 1 <= s.processedTokens <= MaximumProcessedTokens && !s.didSeeScript
    ensures var r := Run(s, MaximumProcessedTokens - s.processedTokens, now, parserTimeLimit);
      && !r.1
      && r.0 == s.(processedTokens := MaximumProcessedTokens)
      && ChecksClock(r.0)
    decreases MaximumProcessedTokens - s.processedTokens
  {
    if s.processedTokens < MaximumProcessedTokens {
      var next := ShouldYieldStep(s, now, parserTimeLimit);
      assert next == (s.(processedTokens := s.processedTokens + 1), false);
      CountsUpToCheck(next.0, now, parserTimeLimit);
    }
  }

  /** After a look at the clock the count restarts at 1, so the next look comes 4096
      tokens later unless a script intervenes. */
  lemma {:induction false} CheckRestartsCount(s: SessionState, now: int, later: int, parserTimeLimit: int)
    requires ChecksClock(s)
    ensures var checked := ShouldYieldStep(s, now, parserTimeLimit).0;
      && checked.processedTokens == 1
      && !Run(checked, NumberOfTokensBeforeCheckingForYield, later, parserTimeLimit).1
      && ChecksClock(Run(checked, NumberOfTokensBeforeCheckingForYield, later, parserTimeLimit).0)
  {
    var checked := ShouldYieldStep(s, now, parserTimeLimit).0;
    CountsUpToCheck(checked, later, parserTimeLimit);
  }

  /** The first look at the clock never shouldYield; it starts the session's time. */
  lemma FirstCheckStartsClock(s: SessionState, now: int, parserTimeLimit: int)
    requires ChecksClock(s) && s.startTime == 0
    ensures var r := ShouldYieldStep(s, now, parserTimeLimit);
      !r.1 && r.0.startTime == now
  {
  }

  /** A session that starts with a count above 4096 reads the clock at its first token:
      it records the start time, does not yield, and is from then on within the 4097 bound. */
  lemma FirstTokenStartsClock(s: SessionState, now: int, parserTimeLimit: int)
    requires s.processedTokens > NumberOfTokensBeforeCheckingForYield && s.startTime == 0
    ensures var r := ShouldYieldStep(s, now, parserTimeLimit);
      && !r.1
      && r.0 == SessionState(1, now, false)
      && r.0.processedTokens <= MaximumProcessedTokens
  {
  }

  /** A pump session's counters, updated in place by the scheduler. */
  class PumpSession {
    var processedTokens: nat
    var startTime: int
    var didSeeScript: bool

    /** A new session starts from a given token count, has not read the clock and has seen
        no script. */
    constructor (initialCount: nat)
      ensures processedTokens == initialCount && startTime == 0 && !didSeeScript
    {
      processedTokens := initialCount;
      startTime := 0;
      didSeeScript := false;
    }

    function State(): SessionState
      reads this
    {
      SessionState(processedTokens, startTime, didSeeScript)
    }

    predicate Valid()
      reads this
    {
      processedTokens <= MaximumProcessedTokens
    }
  }

  class HTMLParserScheduler {
    var parserTimeLimit: int
    var isSuspendedWithActiveTimer: bool
    /** Whether the continue-next-chunk timer is active. */
    var continueNextChunkTimerActive: bool

    constructor (parserTimeLimit: int)
      ensures this.parserTimeLimit == parserTimeLimit
      ensures !isSuspendedWithActiveTimer && !continueNextChunkTimerActive
    {
      this.parserTimeLimit := parserTimeLimit;
      isSuspendedWithActiveTimer := false;
      continueNextChunkTimerActive := false;
    }

    /** Whether parsing will resume by itself: suspended with a pending timer, or the
        continue timer is running. */
    function IsScheduledForResume(): bool
      reads this
    {
      isSuspendedWithActiveTimer || continueNextChunkTimerActive
    }

    method CheckForYield(session: PumpSession, now: int) returns (shouldYield: bool)
      modifies session
      ensures (session.State(), shouldYield) == CheckForYieldStep(old(session.State()), now, parserTimeLimit)
      ensures session.Valid()
    {
      session.processedTokens := 1;
      session.didSeeScript := false;
      if session.startTime == 0 {
        session.startTime := now;
        return false;
      }
      var elapsedTime := now - session.startTime;
      return elapsedTime > parserTimeLimit;
    }

    method ShouldYieldBeforeToken(session: PumpSession, now: int) returns (shouldYield: bool)
      modifies session
      ensures (session.State(), shouldYield) == ShouldYieldStep(old(session.State()), now, parserTimeLimit)
      ensures old(session.Valid()) ==> session.Valid()
    {
      if session.processedTokens > NumberOfTokensBeforeCheckingForYield || session.didSeeScript {
        shouldYield := CheckForYield(session, now);
        return;
      }
      session.processedTokens := session.processedTokens + 1;
      return false;
    }
  }
}
