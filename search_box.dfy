/** The search box's rate limiter (`debouncedSearch` in `CryptoSearch`): two
    refs, the time of the last send and a single pending timer, decide whether
    a query is passed on to `onSearch` at once or later. Time is a number of
    milliseconds handed in with each event; an `Input(now, value)` is a call of
    `debouncedSearch`, a `Fire(now)` is the pending timer's callback running.
    The queries passed on are logged in `sent`, in order.

    The limiter is first stated on values (`AfterInput`, `AfterFire`), where
    its invariant is proved, and then driven by the `SearchBox` class, whose
    fields are the component's state and refs. */
module SearchBoxes {
  import opened Wrappers
  import opened JsStrings
  import opened SearchInput

  /** `RATE_LIMIT_DELAY`. */
  const RateLimitDelayMs: nat := 500

  /** The timer in `searchTimeoutRef`: when it is due and the query it carries. */
  datatype Timer = Timer(fireAt: nat, query: string)

  /** One call of `onSearch`: when, and with which query. */
  datatype Sent = Sent(at: nat, query: string)

  /** `lastSearchTimeRef`, `searchTimeoutRef` (at most one timer) and the log of sends. */
  datatype Limiter = Limiter(lastSearchTime: nat, pending: Option<Timer>, sent: seq<Sent>)

  /** The refs as the component mounts: last send at time 0, no timer. */
  const InitialLimiter := Limiter(0, None, [])

  /** `debouncedSearch(value)` at time `now`, as written. Within 500 ms of the
      last send the pending timer is replaced by one carrying `value`, due
      `500 - elapsed` from now, which is exactly 500 ms after the last send;
      otherwise `value` is sent at once and `now` recorded, and a timer that
      is still pending is left alone. */
  function AfterInput(l: Limiter, now: nat, value: string): (r: Limiter)
    ensures now - l.lastSearchTime >= RateLimitDelayMs ==>
              r == Limiter(now, l.pending, l.sent + [Sent(now, value)])
    ensures now - l.lastSearchTime < RateLimitDelayMs ==>
              r == Limiter(l.lastSearchTime, Some(Timer(l.lastSearchTime + RateLimitDelayMs, value)), l.sent)
  {
    var elapsed := now - l.lastSearchTime;
    if elapsed < RateLimitDelayMs then
      l.(pending := Some(Timer(now + (RateLimitDelayMs - elapsed), value)))
    else
      l.(lastSearchTime := now, sent := l.sent + [Sent(now, value)])
  }

  /** `debouncedSearch` with the pending timer also cleared on the immediate
      path, so that no older query can be sent after a newer one. */
  function AfterInputCancelling(l: Limiter, now: nat, value: string): (r: Limiter)
    ensures r.pending.None? ==> r.sent == l.sent + [Sent(now, value)]
    ensures r.pending.Some? ==> r.sent == l.sent && r.pending.value.query == value
    ensures r.pending.None? <==> now - l.lastSearchTime >= RateLimitDelayMs
  {
    var r := AfterInput(l, now, value);
    if r.pending.Some? && now - l.lastSearchTime >= RateLimitDelayMs then r.(pending := None) else r
  }

  /** The pending timer's callback at time `now` (never before it is due):
      it records `now` as the last send and sends its query. */
  function AfterFire(l: Limiter, now: nat): (r: Limiter)
    requires l.pending.Some? && l.pending.value.fireAt <= now
    ensures r.pending.None? && r.lastSearchTime == now
    ensures r.sent == l.sent + [Sent(now, l.pending.value.query)]
  {
    Limiter(now, None, l.sent + [Sent(now, l.pending.value.query)])
  }

  /** The limiter's invariant: consecutive sends are at least 500 ms apart,
      the last one is the recorded send time, and a pending timer is due 500 ms
      after it. */
  predicate Spaced(l: Limiter) {
    (forall i :: 0 <= i < |l.sent| - 1 ==> l.sent[i].at + RateLimitDelayMs <= l.sent[i + 1].at)
    && (l.sent != [] ==> l.sent[|l.sent| - 1].at == l.lastSearchTime)
    && (l.pending.Some? ==> l.pending.value.fireAt == l.lastSearchTime + RateLimitDelayMs)
  }

  /** An input at `now` is timely when no timer is overdue: a timer that has
      come due has already run. */
  predicate Timely(l: Limiter, now: nat) {
    l.pending.None? || now < l.pending.value.fireAt
  }

  /** Appending a send at least 500 ms after the recorded last send keeps the
      sends spaced. */
  lemma SendKeepsSpacing(l: Limiter, now: nat, query: string, pending: Option<Timer>)
    requires Spaced(l) && l.lastSearchTime + RateLimitDelayMs <= now
    requires pending.Some? ==> pending.value.fireAt == now + RateLimitDelayMs
    ensures Spaced(Limiter(now, pending, l.sent + [Sent(now, query)]))
  {
    var s := l.sent + [Sent(now, query)];
    forall i | 0 <= i < |s| - 1 ensures s[i].at + RateLimitDelayMs <= s[i + 1].at {
      if i < |l.sent| - 1 {
        assert s[i] == l.sent[i] && s[i + 1] == l.sent[i + 1];
      } else {
        assert s[i] == l.sent[|l.sent| - 1];
      }
    }
  }

  /** As written, an input keeps the sends spaced provided no timer is overdue:
      then a pending timer means fewer than 500 ms have passed, so the
      immediate path never runs beside a pending timer. */
  lemma InputKeepsSpacing(l: Limiter, now: nat, value: string)
    requires Spaced(l) && Timely(l, now)
    ensures Spaced(AfterInput(l, now, value))
  {
    if now - l.lastSearchTime >= RateLimitDelayMs {
      SendKeepsSpacing(l, now, value, l.pending);
    }
  }

  /** A timer that runs when due keeps the sends spaced and leaves none pending. */
  lemma FireKeepsSpacing(l: Limiter, now: nat)
    requires Spaced(l) && l.pending.Some? && l.pending.value.fireAt <= now
    ensures Spaced(AfterFire(l, now))
  {
    SendKeepsSpacing(l, now, l.pending.value.query, None);
  }

  /** With the timer cleared on the immediate path, every input keeps the
      sends spaced, whenever it arrives. */
  lemma CancellingInputKeepsSpacing(l: Limiter, now: nat, value: string)
    requires Spaced(l)
    ensures Spaced(AfterInputCancelling(l, now, value))
  {
    if now - l.lastSearchTime >= RateLimitDelayMs {
      SendKeepsSpacing(l, now, value, None);
    }
  }

  /** In a spaced log any two sends `k` places apart are at least `k` times
      500 ms apart. */
  lemma {:induction false} SpacedApart(l: Limiter, i: nat, j: nat)
    requires Spaced(l) && i <= j < |l.sent|
    ensures l.sent[i].at + RateLimitDelayMs * (j - i) <= l.sent[j].at
  {
    if i < j {
      SpacedApart(l, i, j - 1);
    }
  }

  /** The limiter's part of `handleSearch` for a sanitised query: one of at
      least two characters goes to `debouncedSearch`; a shorter one clears the
      pending timer, so nothing is sent for it and nothing older is sent later. */
  function AfterSearchInput(l: Limiter, now: nat, query: string): (r: Limiter)
    ensures |query| < MinQueryLength ==>
              r.pending.None? && r.sent == l.sent && r.lastSearchTime == l.lastSearchTime
    ensures |query| >= MinQueryLength ==> r == AfterInput(l, now, query)
  {
    if |query| > 0 && |query| >= MinQueryLength then AfterInput(l, now, query)
    else l.(pending := None)
  }

  /** A search input keeps the sends spaced when no timer is overdue. */
  lemma SearchInputKeepsSpacing(l: Limiter, now: nat, query: string)
    requires Spaced(l) && Timely(l, now)
    ensures Spaced(AfterSearchInput(l, now, query))
  {
    if |query| >= MinQueryLength {
      InputKeepsSpacing(l, now, query);
    }
  }

  /** Events of the environment: a call of `debouncedSearch`, or the pending
      timer running. */
  datatype Event = Input(now: nat, value: string) | Fire(now: nat)

  /** An event can happen: a timer runs only when one is pending and due. */
  predicate Possible(l: Limiter, e: Event) {
    match e
    case Input(_, _) => true
    case Fire(now) => l.pending.Some? && l.pending.value.fireAt <= now
  }

  /** The limiter after one event, with `debouncedSearch` as written. */
  function Step(l: Limiter, e: Event): (r: Limiter)
    requires Possible(l, e)
    ensures |l.sent| <= |r.sent| && r.sent[..|l.sent|] == l.sent
  {
    match e
    case Input(now, value) => AfterInput(l, now, value)
    case Fire(now) => AfterFire(l, now)
  }

  /** The limiter after one event, with the cancelling `debouncedSearch`. */
  function StepCancelling(l: Limiter, e: Event): (r: Limiter)
    requires Possible(l, e)
    ensures |l.sent| <= |r.sent| && r.sent[..|l.sent|] == l.sent
  {
    match e
    case Input(now, value) => AfterInputCancelling(l, now, value)
    case Fire(now) => AfterFire(l, now)
  }

  /** Every event of a run is possible in the state it meets, and every
      input is timely. */
  predicate TimelyRun(l: Limiter, events: seq<Event>)
    decreases |events|
  {
    events == [] ||
    (Possible(l, events[0])
     && (events[0].Input? ==> Timely(l, events[0].now))
     && TimelyRun(Step(l, events[0]), events[1..]))
  }

  predicate PossibleRun(l: Limiter, events: seq<Event>)
    decreases |events|
  {
    events == [] ||
    (Possible(l, events[0]) && PossibleRun(StepCancelling(l, events[0]), events[1..]))
  }

  function Run(l: Limiter, events: seq<Event>): (r: Limiter)
    requires TimelyRun(l, events)
    decreases |events|
  {
    if events == [] then l else Run(Step(l, events[0]), events[1..])
  }

  function RunCancelling(l: Limiter, events: seq<Event>): (r: Limiter)
    requires PossibleRun(l, events)
    decreases |events|
  {
    if events == [] then l else RunCancelling(StepCancelling(l, events[0]), events[1..])
  }

  /** As written, a run of timely events from a spaced state stays spaced:
      sends are at least 500 ms apart and at most one is pending. */
  lemma {:induction false} TimelyRunSpaced(l: Limiter, events: seq<Event>)
    requires Spaced(l) && TimelyRun(l, events)
    ensures Spaced(Run(l, events))
    decreases |events|
  {
    if events != [] {
      match events[0] {
        case Input(now, value) => InputKeepsSpacing(l, now, value);
        case Fire(now) => FireKeepsSpacing(l, now);
      }
      TimelyRunSpaced(Step(l, events[0]), events[1..]);
    }
  }

  /** With the cancelling limiter, every possible run from a spaced state
      stays spaced, however late the timer runs. */
  lemma {:induction false} CancellingRunSpaced(l: Limiter, events: seq<Event>)
    requires Spaced(l) && PossibleRun(l, events)
    ensures Spaced(RunCancelling(l, events))
    decreases |events|
  {
    if events != [] {
      match events[0] {
        case Input(now, value) => CancellingInputKeepsSpacing(l, now, value);
        case Fire(now) => FireKeepsSpacing(l, now);
      }
      CancellingRunSpaced(StepCancelling(l, events[0]), events[1..]);
    }
  }

  /** As written, a timer that has come due but not yet run when the next
      input arrives is not cleared: "ab" is sent at 1000, "abc" is scheduled
      for 1500, "abcd" typed at 1500 is sent at once, and then the timer sends
      the older "abc" in the same millisecond, so the results shown are for a
      query the box no longer holds. */
  lemma StaleQueryAfterOverdueTimer()
    ensures var ab, abc, abcd := "ab", "abc", "abcd";
            var l1 := AfterInput(InitialLimiter, 1000, ab);
            var l2 := AfterInput(l1, 1100, abc);
            var l3 := AfterInput(l2, 1500, abcd);
            l3.pending == Some(Timer(1500, abc))
            && var l4 := AfterFire(l3, 1500);
            l4.sent == [Sent(1000, ab), Sent(1500, abcd), Sent(1500, abc)]
            && !Spaced(l4)
  {
    var ab, abc, abcd := "ab", "abc", "abcd";
    var l1 := AfterInput(InitialLimiter, 1000, ab);
    var l2 := AfterInput(l1, 1100, abc);
    var l3 := AfterInput(l2, 1500, abcd);
    var l4 := AfterFire(l3, 1500);
    assert l4.sent[1].at + RateLimitDelayMs > l4.sent[2].at;
  }

  /** The same inputs with the cancelling limiter: the newest query is the
      last one sent and no timer is left to send an older one. */
  lemma CancellingSendsNewestLast()
    ensures var ab, abc, abcd := "ab", "abc", "abcd";
            var l1 := AfterInputCancelling(InitialLimiter, 1000, ab);
            var l2 := AfterInputCancelling(l1, 1100, abc);
            var l3 := AfterInputCancelling(l2, 1500, abcd);
            l3.pending == None && l3.sent == [Sent(1000, ab), Sent(1500, abcd)]
  {
  }

  /** The search box: the input's state (`searchTerm`, `isOpen`,
      `showPopular`) and the two refs of the rate limiter, with the log of
      queries passed to `onSearch`. */
  class SearchBox {
    var searchTerm: string
    var isOpen: bool
    var showPopular: bool
    var lastSearchTime: nat
    var pending: Option<Timer>
    var sent: seq<Sent>

    /** The rate limiter's part of the state. */
    function State(): Limiter
      reads this
    {
      Limiter(lastSearchTime, pending, sent)
    }

    /** The initial state: an empty, closed box and the initial refs. */
    constructor ()
      ensures searchTerm == [] && !isOpen && !showPopular
      ensures State() == InitialLimiter && Spaced(State())
    {
      searchTerm := [];
      isOpen := false;
      showPopular := false;
      lastSearchTime := 0;
      pending := None;
      sent := [];
    }

    /** `debouncedSearch(value)` as written, at time `now`. */
    method DebouncedSearch(value: string, now: nat)
      modifies this
      ensures State() == AfterInput(old(State()), now, value)
      ensures old(Spaced(State())) && old(Timely(State(), now)) ==> Spaced(State())
      ensures searchTerm == old(searchTerm) && isOpen == old(isOpen) && showPopular == old(showPopular)
    {
      if Spaced(State()) && Timely(State(), now) {
        InputKeepsSpacing(State(), now, value);
      }
      var timeSinceLastSearch := now - lastSearchTime;
      if timeSinceLastSearch < RateLimitDelayMs {
        pending := Some(Timer(now + (RateLimitDelayMs - timeSinceLastSearch), value));
      } else {
        lastSearchTime := now;
        sent := sent + [Sent(now, value)];
      }
    }

    /** `debouncedSearch` with the pending timer cleared on the immediate path. */
    method DebouncedSearchCancelling(value: string, now: nat)
      modifies this
      ensures State() == AfterInputCancelling(old(State()), now, value)
      ensures old(Spaced(State())) ==> Spaced(State())
      ensures searchTerm == old(searchTerm) && isOpen == old(isOpen) && showPopular == old(showPopular)
    {
      if Spaced(State()) {
        CancellingInputKeepsSpacing(State(), now, value);
      }
      var timeSinceLastSearch := now - lastSearchTime;
      if timeSinceLastSearch < RateLimitDelayMs {
        pending := Some(Timer(now + (RateLimitDelayMs - timeSinceLastSearch), value));
      } else {
        pending := None;
        lastSearchTime := now;
        sent := sent + [Sent(now, value)];
      }
    }

    /** The pending timer's callback, run at time `now`, when it is due. */
    method FireTimer(now: nat)
      requires pending.Some? && pending.value.fireAt <= now
      modifies this
      ensures State() == AfterFire(old(State()), now)
      ensures old(Spaced(State())) ==> Spaced(State())
      ensures searchTerm == old(searchTerm) && isOpen == old(isOpen) && showPopular == old(showPopular)
    {
      if Spaced(State()) {
        FireKeepsSpacing(State(), now);
      }
      lastSearchTime := now;
      sent := sent + [Sent(now, pending.value.query)];
      pending := None;
    }

    /** `handleSearch(value)`: the box shows the sanitised value and the
        results open exactly when it has at least two characters; the rate
        limiter then moves as `AfterSearchInput` says. */
    method HandleSearch(value: string, now: nat)
      modifies this
      ensures searchTerm == Sanitize(value) && !showPopular
      ensures isOpen <==> |Sanitize(value)| >= MinQueryLength
      ensures State() == AfterSearchInput(old(State()), now, Sanitize(value))
    {
      var finalValue := Sanitize(value);
      ShowQuery(finalValue, now);
    }

    /** The rest of `handleSearch`, once the value is sanitised. */
    method ShowQuery(finalValue: string, now: nat)
      modifies this
      ensures searchTerm == finalValue && !showPopular
      ensures isOpen <==> |finalValue| >= MinQueryLength
      ensures State() == AfterSearchInput(old(State()), now, finalValue)
    {
      searchTerm := finalValue;
      if |finalValue| > 0 && |finalValue| >= MinQueryLength {
        isOpen := true;
        showPopular := false;
        DebouncedSearch(finalValue, now);
      } else {
        isOpen := false;
        showPopular := false;
        pending := None;
      }
    }

    /** `handleFocus()`: an empty box opens the list of popular coins. */
    method HandleFocus()
      modifies this
      ensures AllWhiteSpace(old(searchTerm)) ==> isOpen && showPopular
      ensures !AllWhiteSpace(old(searchTerm)) ==> isOpen == old(isOpen) && showPopular == old(showPopular)
      ensures searchTerm == old(searchTerm) && State() == old(State())
    {
      if |Trim(searchTerm)| == 0 {
        showPopular := true;
        isOpen := true;
      }
    }

    /** `clearSearch()` and `handleSelect(crypto)`: the box is emptied and
        closed; the rate limiter is not touched, so a pending timer still runs. */
    method ClearSearch()
      modifies this
      ensures searchTerm == [] && !isOpen && !showPopular
      ensures State() == old(State())
    {
      searchTerm := [];
      isOpen := false;
      showPopular := false;
    }
  }
}
