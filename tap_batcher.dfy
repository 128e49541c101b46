/** The tap batcher of the PenguinTap component: presses are counted into a
    pending counter, a single 300 ms debounce timer flushes that counter to
    the backend's `increment_taps` procedure, and the counter is also flushed
    directly when the tab is hidden and when the component is torn down.

    The state is given twice: as the value `BatcherState`, on which every
    event is a step function and on which the properties over arbitrary
    interleavings of events are proved, and as the class `Batcher`, whose
    fields are the component's refs and whose methods are proved to take
    exactly those steps. A remote call is an `Rpc` record appended to the
    log of calls issued. The 300 ms debounce delay does not appear: the
    timer's expiry is an event. */
module TapBatcher {
  import opened Wrappers
  import opened CountryFlag

  /** Country sent when no country code was resolved. */
  const UnknownCountry: string := "ZZ"

  /** The globe emoji (U+1F30D) shown until, or instead of, a country flag. */
  const Globe: seq<int> := [0x1F30D]

  /** One call of `increment_taps(in_country_code, in_amount)`. */
  datatype Rpc = Rpc(country: string, amount: int)

  /** The component's batching state:
      backend      -- a backend client is configured (it never changes);
      countryCode  -- `countryCodeRef`, "" until a code is resolved;
      countryFlag  -- the flag on screen, as code points;
      pending      -- `pendingIncrementsRef`, taps not yet sent;
      timerArmed   -- `flushTimeoutRef` holds a timer;
      pressActive  -- `pressActiveRef`, the press gate;
      pops         -- the component's `pops` state: one per accepted press (not displayed);
      listening    -- the `visibilitychange` listener is attached;
      log          -- every remote call issued so far, oldest first. */
  datatype BatcherState = BatcherState(
    backend: bool,
    countryCode: string,
    countryFlag: seq<int>,
    pending: int,
    timerArmed: bool,
    pressActive: bool,
    pops: int,
    listening: bool,
    log: seq<Rpc>)

  /** Everything that can happen to the batcher. `CountryResolved(None)` is a
      failed location lookup; `CountryResolved(Some(c))` a lookup whose
      `country_code` field read `c` ("" when it was absent). */
  datatype Event =
    | PressStart
    | PressEnd
    | TimerFires
    | VisibilityChange(hidden: bool)
    | Teardown
    | CountryResolved(lookup: Option<string>)

  /** Total amount carried by a sequence of calls. */
  function SumAmounts(log: seq<Rpc>): int
  {
    if log == [] then 0 else SumAmounts(log[..|log| - 1]) + log[|log| - 1].amount
  }

  lemma SumAmountsAppend(log: seq<Rpc>, r: Rpc)
    ensures SumAmounts(log + [r]) == SumAmounts(log) + r.amount
  {
    assert (log + [r])[..|log|] == log;
  }

  /** A string that upper-casing leaves unchanged (`UpperCasedFixed`). */
  predicate IsUpperCased(s: string) {
    forall i :: 0 <= i < |s| ==> UpperChar(s[i]) == s[i]
  }

  /** `IsUpperCased` says exactly that `ToUpper` leaves the string unchanged. */
  lemma UpperCasedFixed(s: string)
    ensures IsUpperCased(s) <==> ToUpper(s) == s
  {
  }

  /** The part of the invariant that holds between any two statements:
      - conservation: every accepted press was either sent or is still pending;
      - the stored country code is upper-cased;
      - every call carries a positive amount and a non-empty upper-cased country;
      - without a backend nothing is ever sent. */
  ghost predicate Conserved(s: BatcherState) {
    && s.pending >= 0
    && s.pops == SumAmounts(s.log) + s.pending
    && IsUpperCased(s.countryCode)
    && (forall i :: 0 <= i < |s.log| ==>
          s.log[i].amount > 0 && s.log[i].country != "" && IsUpperCased(s.log[i].country))
    && (!s.backend ==> s.log == [])
  }

  /** The invariant between events: in addition, no stranded taps -- with a
      backend, pending taps always have a timer armed that will flush them. */
  ghost predicate Valid(s: BatcherState) {
    Conserved(s) && (s.backend && s.pending > 0 ==> s.timerArmed)
  }

  /** State when the component mounts. */
  function Initial(backend: bool): (s: BatcherState)
    ensures Valid(s) && s.pending == 0 && s.log == [] && !s.timerArmed && !s.pressActive
    ensures s.backend == backend && s.listening && s.countryCode == "" && s.countryFlag == Globe && s.pops == 0
  {
    BatcherState(backend, "", Globe, 0, false, false, 0, true, [])
  }

  /** The country a call carries: the stored code, or "ZZ" when none was resolved. */
  function RpcCountry(code: string): (c: string)
    ensures c != ""
    ensures code != "" ==> c == code
    ensures code == "" ==> c == UnknownCountry
  {
    if code == "" then UnknownCountry else code
  }

  /** `flushIncrements`: without a backend nothing happens; otherwise pending is
      captured and zeroed before the call, and a call is made only for a
      positive captured amount. */
  function FlushStep(s: BatcherState): (t: BatcherState)
    ensures !s.backend ==> t == s
    ensures s.backend ==> t.pending == 0
    ensures s.backend && s.pending > 0 ==>
              t.log == s.log + [Rpc(RpcCountry(s.countryCode), s.pending)]
    ensures s.pending <= 0 ==> t.log == s.log
    ensures t.(pending := s.pending, log := s.log) == s
  {
    if !s.backend then s
    else
      var amount := s.pending;
      var cleared := s.(pending := 0);
      if amount <= 0 then cleared
      else cleared.(log := cleared.log + [Rpc(RpcCountry(cleared.countryCode), amount)])
  }

  /** `scheduleFlush`: arms the debounce timer unless one is already armed. */
  function ScheduleStep(s: BatcherState): (t: BatcherState)
    ensures t.timerArmed
    ensures s.timerArmed ==> t == s
    ensures t.(timerArmed := s.timerArmed) == s
  {
    if s.timerArmed then s else s.(timerArmed := true)
  }

  /** The debounce timer expires: the slot is emptied first, then the batch is flushed. */
  function FireTimer(s: BatcherState): (t: BatcherState)
    ensures !s.timerArmed ==> t == s
    ensures s.timerArmed ==> !t.timerArmed
    ensures s.timerArmed && s.backend ==>
              t.pending == 0 &&
              t.log == s.log + (if s.pending > 0 then [Rpc(RpcCountry(s.countryCode), s.pending)] else [])
    ensures s.timerArmed && !s.backend ==> t.pending == s.pending && t.log == s.log
    ensures t.(timerArmed := s.timerArmed, pending := s.pending, log := s.log) == s
  {
    if s.timerArmed then FlushStep(s.(timerArmed := false)) else s
  }

  /** The counter and gate part of `handlePressStart`: a press while the gate
      is set is ignored; otherwise the gate is set, exactly one tap is added to
      the local count and to pending, and a flush is scheduled. */
  function PressStartStep(s: BatcherState): (t: BatcherState)
    ensures s.pressActive ==> t == s
    ensures !s.pressActive ==>
              t.pressActive && t.pops == s.pops + 1 && t.pending == s.pending + 1 && t.timerArmed
    ensures t.(pressActive := s.pressActive, pops := s.pops, pending := s.pending, timerArmed := s.timerArmed) == s
  {
    if s.pressActive then s
    else ScheduleStep(s.(pressActive := true, pops := s.pops + 1, pending := s.pending + 1))
  }

  /** `handlePressEnd`: the gate is cleared and nothing else changes. */
  function PressEndStep(s: BatcherState): (t: BatcherState)
    ensures !t.pressActive
    ensures t.(pressActive := s.pressActive) == s
    ensures PressStartStep(t).pops == s.pops + 1
  {
    s.(pressActive := false)
  }

  /** The `visibilitychange` listener: flushes directly when the page is hidden. */
  function VisibilityStep(s: BatcherState, hidden: bool): (t: BatcherState)
    ensures s.listening && hidden && s.backend ==>
              t.pending == 0 &&
              t.log == s.log + (if s.pending > 0 then [Rpc(RpcCountry(s.countryCode), s.pending)] else [])
    ensures !(s.listening && hidden && s.backend) ==> t == s
    ensures t.(pending := s.pending, log := s.log) == s
  {
    if s.listening && hidden then FlushStep(s) else s
  }

  /** Cleanup of the visibility effect: the listener is removed and the batch
      is flushed directly. The debounce timer is not cancelled. */
  function TeardownStep(s: BatcherState): (t: BatcherState)
    ensures !t.listening && t.timerArmed == s.timerArmed
    ensures t == FlushStep(s).(listening := false)
  {
    FlushStep(s.(listening := false))
  }

  /** Outcome of the location lookup: a non-empty `country_code` is stored
      upper-cased and its flag shown; a failed lookup shows the globe; an
      absent or empty code changes nothing. */
  function ResolveCountry(s: BatcherState, lookup: Option<string>): (t: BatcherState)
    ensures lookup.None? ==> t.countryFlag == Globe && t.countryCode == s.countryCode
    ensures lookup == Some("") ==> t == s
    ensures lookup.Some? && lookup.value != "" ==>
              t.countryCode == ToUpper(lookup.value) && t.countryFlag == CountryCodeToFlag(lookup.value) &&
              IsUpperCased(t.countryCode) && t.countryFlag == CountryCodeToFlag(t.countryCode)
    ensures IsUpperCased(s.countryCode) ==> IsUpperCased(t.countryCode)
    ensures t.(countryCode := s.countryCode, countryFlag := s.countryFlag) == s
  {
    match lookup
    case None => s.(countryFlag := Globe)
    case Some(code) =>
      if code != "" then s.(countryCode := ToUpper(code), countryFlag := CountryCodeToFlag(code))
      else s
  }

  function Step(s: BatcherState, e: Event): BatcherState
  {
    match e
    case PressStart => PressStartStep(s)
    case PressEnd => PressEndStep(s)
    case TimerFires => FireTimer(s)
    case VisibilityChange(hidden) => VisibilityStep(s, hidden)
    case Teardown => TeardownStep(s)
    case CountryResolved(lookup) => ResolveCountry(s, lookup)
  }

  /** The state after a sequence of events, in order. */
  function Run(s: BatcherState, events: seq<Event>): BatcherState
    decreases |events|
  {
    if events == [] then s else Run(Step(s, events[0]), events[1..])
  }

  lemma {:induction false} RunAppend(s: BatcherState, a: seq<Event>, b: seq<Event>)
    ensures Run(s, a + b) == Run(Run(s, a), b)
    decreases |a|
  {
    if a != [] {
      assert a + b != [];
      assert (a + b)[0] == a[0];
      assert (a + b)[1..] == a[1..] + b;
      RunAppend(Step(s, a[0]), a[1..], b);
    } else {
      assert a + b == b;
    }
  }

  /** Flushing restores the invariant, even from the moment inside the timer's
      callback when the slot is already empty: the captured amount moves from
      pending into the log. */
  lemma FlushValid(s: BatcherState)
    requires Conserved(s)
    ensures Valid(FlushStep(s))
  {
    if s.backend && s.pending > 0 {
      SumAmountsAppend(s.log, Rpc(RpcCountry(s.countryCode), s.pending));
    }
  }

  /** Every single event keeps the invariant. */
  lemma StepValid(s: BatcherState, e: Event)
    requires Valid(s)
    ensures Valid(Step(s, e))
  {
    match e
    case PressStart =>
    case PressEnd =>
    case TimerFires =>
      if s.timerArmed { FlushValid(s.(timerArmed := false)); }
    case VisibilityChange(hidden) =>
      if s.listening && hidden { FlushValid(s); }
    case Teardown =>
      FlushValid(s.(listening := false));
    case CountryResolved(lookup) =>
      if lookup.Some? && lookup.value != "" { UpperIdempotent(lookup.value); }
  }

  /** Conservation over any interleaving of presses, timer expiries,
      visibility flushes, teardown and the location lookup: accepted presses
      equal the amounts sent plus the amount still pending. */
  lemma {:induction false} RunValid(s: BatcherState, events: seq<Event>)
    requires Valid(s)
    ensures Valid(Run(s, events))
    ensures Run(s, events).pops == SumAmounts(Run(s, events).log) + Run(s, events).pending
    decreases |events|
  {
    if events != [] {
      StepValid(s, events[0]);
      RunValid(Step(s, events[0]), events[1..]);
    }
  }

  function CountPressEnds(events: seq<Event>): nat
  {
    if events == [] then 0 else (if events[0] == PressEnd then 1 else 0) + CountPressEnds(events[1..])
  }

  /** Presses still available before the next press-end: one while the gate is open. */
  function Allowance(s: BatcherState): int {
    s.pops + (if s.pressActive then 0 else 1)
  }

  /** The press gate: whatever happens in between, the local count (and with it
      the amount ever made pending) grows by at most one per press-end, plus
      one for a press already allowed at the start. */
  lemma {:induction false} PressesBoundedByPressEnds(s: BatcherState, events: seq<Event>)
    ensures Run(s, events).pops <= s.pops + CountPressEnds(events) + (if s.pressActive then 0 else 1)
    decreases |events|
  {
    if events != [] {
      var t := Step(s, events[0]);
      assert Allowance(t) <= Allowance(s) + (if events[0] == PressEnd then 1 else 0) by {
        match events[0]
        case TimerFires =>
        case VisibilityChange(_) =>
        case Teardown =>
        case _ =>
      }
      PressesBoundedByPressEnds(t, events[1..]);
    }
  }

  /** `n` taps, each a press-start followed by a press-end. */
  function Taps(n: nat): (events: seq<Event>)
    ensures |events| == 2 * n
  {
    if n == 0 then [] else Taps(n - 1) + [PressStart, PressEnd]
  }

  lemma {:induction false} RunTaps(s: BatcherState, n: nat)
    requires !s.pressActive
    ensures Run(s, Taps(n)) ==
              s.(pops := s.pops + n, pending := s.pending + n, timerArmed := s.timerArmed || n > 0)
  {
    if n > 0 {
      RunAppend(s, Taps(n - 1), [PressStart, PressEnd]);
      RunTaps(s, n - 1);
    }
  }

  /** Rapid taps inside one debounce window coalesce: with a backend client,
      starting with nothing pending and no timer, `n` taps followed by the timer's expiry issue
      exactly one call carrying `n` (none when `n` is 0), and leave nothing
      pending and no timer armed. */
  lemma BurstCoalesces(s: BatcherState, n: nat)
    requires s.backend && s.pending == 0 && !s.timerArmed && !s.pressActive
    ensures Run(s, Taps(n) + [TimerFires]).log ==
              s.log + (if n > 0 then [Rpc(RpcCountry(s.countryCode), n)] else [])
    ensures Run(s, Taps(n) + [TimerFires]).pending == 0
    ensures !Run(s, Taps(n) + [TimerFires]).timerArmed
  {
    RunAppend(s, Taps(n), [TimerFires]);
    RunTaps(s, n);
  }

  /** With a backend client, a forced flush on hiding the page sends the
      pending amount once; the
      debounce timer, still armed, then expires without sending it again. */
  lemma HiddenFlushSendsOnce(s: BatcherState)
    requires Valid(s) && s.backend && s.listening && s.pending > 0
    ensures Run(s, [VisibilityChange(true), TimerFires]).log ==
              s.log + [Rpc(RpcCountry(s.countryCode), s.pending)]
    ensures Run(s, [VisibilityChange(true), TimerFires]).pending == 0
  {
    assert s.timerArmed;
    assert [VisibilityChange(true), TimerFires][1..] == [TimerFires];
  }

  /** With a backend client nothing is pending after teardown (without one,
      pending stays as it was), and the detached listener no longer reacts to
      the page being hidden. */
  lemma TeardownFlushesAll(s: BatcherState, hidden: bool)
    ensures s.backend ==> TeardownStep(s).pending == 0
    ensures !s.backend ==> TeardownStep(s).pending == s.pending
    ensures VisibilityStep(TeardownStep(s), hidden) == TeardownStep(s)
  {
  }

  /** Without a backend client a flush never touches pending and sends nothing. */
  lemma NoBackendKeepsPending(s: BatcherState)
    requires !s.backend
    ensures FlushStep(s).pending == s.pending && FlushStep(s).log == s.log
  {
  }

  /** The class form: the component's refs as fields, each handler a method. */
  class Batcher {
    const backend: bool
    var countryCode: string
    var countryFlag: seq<int>
    var pending: int
    var timerArmed: bool
    var pressActive: bool
    var pops: int
    var listening: bool
    ghost var rpcLog: seq<Rpc>

    ghost function State(): BatcherState
      reads this
    {
      BatcherState(backend, countryCode, countryFlag, pending, timerArmed, pressActive, pops, listening, rpcLog)
    }

    ghost predicate Inv()
      reads this
    {
      Valid(State())
    }

    /** The invariant as it holds inside a callback. */
    ghost predicate InvWithinStep()
      reads this
    {
      Conserved(State())
    }

    /** Mounting: the fields hold exactly `Initial(hasBackend)`, and `Inv()` holds. */
    constructor (hasBackend: bool)
      ensures backend == hasBackend && countryCode == "" && countryFlag == Globe
      ensures pending == 0 && !timerArmed && !pressActive && pops == 0 && listening && rpcLog == []
      ensures Inv()
    {
      backend := hasBackend;
      countryCode := "";
      countryFlag := Globe;
      pending := 0;
      timerArmed := false;
      pressActive := false;
      pops := 0;
      listening := true;
      rpcLog := [];
    }

    /** `flushIncrements`. */
    method FlushIncrements()
      requires InvWithinStep()
      modifies this
      ensures Inv() && State() == FlushStep(old(State()))
      ensures backend ==> pending == 0
      ensures !backend ==> pending == old(pending)
      ensures rpcLog == old(rpcLog) + (if backend && old(pending) > 0
                                       then [Rpc(RpcCountry(countryCode), old(pending))] else [])
    {
      if !backend {
        return;
      }
      var amount := pending;
      pending := 0;
      if amount <= 0 {
        return;
      }
      rpcLog := rpcLog + [Rpc(RpcCountry(countryCode), amount)];
      FlushValid(old(State()));
    }

    /** `scheduleFlush`. */
    method ScheduleFlush()
      modifies this
      ensures State() == ScheduleStep(old(State()))
      ensures timerArmed && pending == old(pending) && rpcLog == old(rpcLog)
    {
      if timerArmed {
        return;
      }
      timerArmed := true;
    }

    /** The debounce timer's callback; it runs only while the slot holds it. */
    method OnFlushTimer()
      requires Inv() && timerArmed
      modifies this
      ensures Inv() && State() == FireTimer(old(State()))
      ensures !timerArmed
      ensures backend ==> pending == 0
      ensures rpcLog == old(rpcLog) + (if backend && old(pending) > 0
                                       then [Rpc(RpcCountry(countryCode), old(pending))] else [])
    {
      timerArmed := false;
      FlushIncrements();
    }

    /** `handlePressStart`, its counter and gate part. */
    method HandlePressStart()
      requires Inv()
      modifies this
      ensures old(pressActive) ==> pending == old(pending) && pops == old(pops)
      ensures !old(pressActive) ==> pending == old(pending) + 1 && pops == old(pops) + 1 && timerArmed
      ensures pressActive && rpcLog == old(rpcLog)
      ensures Inv() && State() == PressStartStep(old(State()))
    {
      if pressActive {
        return;
      }
      pressActive := true;
      pops := pops + 1;
      pending := pending + 1;
      ScheduleFlush();
    }

    /** `handlePressEnd`. */
    method HandlePressEnd()
      requires Inv()
      modifies this
      ensures Inv() && State() == PressEndStep(old(State()))
      ensures !pressActive && pending == old(pending) && timerArmed == old(timerArmed)
    {
      pressActive := false;
    }

    /** A `visibilitychange` event reaching the document. */
    method OnVisibilityChange(hidden: bool)
      requires Inv()
      modifies this
      ensures Inv() && State() == VisibilityStep(old(State()), hidden)
      ensures old(listening) && hidden && backend ==> pending == 0
      ensures rpcLog == old(rpcLog) + (if old(listening) && hidden && backend && old(pending) > 0
                                       then [Rpc(RpcCountry(countryCode), old(pending))] else [])
    {
      if listening && hidden {
        FlushIncrements();
      }
    }

    /** Cleanup of the visibility effect on unmount. */
    method Unmount()
      requires Inv()
      modifies this
      ensures Inv() && State() == TeardownStep(old(State()))
      ensures !listening && timerArmed == old(timerArmed)
      ensures backend ==> pending == 0
      ensures rpcLog == old(rpcLog) + (if backend && old(pending) > 0
                                       then [Rpc(RpcCountry(countryCode), old(pending))] else [])
    {
      listening := false;
      FlushIncrements();
    }

    /** Completion of the location lookup. */
    method OnCountryLookup(lookup: Option<string>)
      requires Inv()
      modifies this
      ensures Inv() && State() == ResolveCountry(old(State()), lookup)
    {
      match lookup
      case None =>
        countryFlag := Globe;
      case Some(code) =>
        if code != "" {
          countryCode := ToUpper(code);
          countryFlag := CountryCodeToFlag(code);
          UpperIdempotent(code);
        }
    }
  }
}
