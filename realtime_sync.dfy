/** The remote-sync part of the PenguinTap component: the initial read of the
    global total and the top-20 leaderboard, the realtime channel on the
    `global_state` and `country_taps` tables, and the fallback that starts
    polling every 2 s when no realtime event has arrived 5 s after mounting.

    As for the batcher, the state is a value `SyncState` with one step
    function per event, on which properties of whole event sequences are
    proved, and a class `SyncClient` whose methods take those steps. A query
    result is an event carrying what the query returned (`None` when it
    returned no usable data); the latest result shown wins. The 5 s grace
    period and the 2 s polling period do not appear: the timeout's expiry
    and each tick are events. The 20-row limit is the backend query's and is
    not checked by the client. */
module RealtimeSync {
  import opened Wrappers
  import opened CountryFlag

  /** A row of the `country_taps` query: `country_code` and `taps`. */
  datatype Row = Row(countryCode: string, taps: int)

  /** A rendered leaderboard entry: the flag (as code points), the country
      name, and the count. */
  datatype Entry = Entry(flag: seq<int>, countryName: string, taps: int)

  /** The sync state:
      backend        -- a backend client is configured (it never changes);
      mounted        -- the component is mounted, so its view state still updates;
      channelOpen    -- the realtime channel is subscribed;
      received       -- `realtimeReceivedRef`: some realtime event has arrived;
      fallbackArmed  -- the 5 s fallback timeout is pending;
      polling        -- the 2 s polling interval runs (`stopPolling` is set);
      globalTaps     -- the displayed global total;
      leaderboard    -- the displayed leaderboard. */
  datatype SyncState = SyncState(
    backend: bool,
    mounted: bool,
    channelOpen: bool,
    received: bool,
    fallbackArmed: bool,
    polling: bool,
    globalTaps: int,
    leaderboard: seq<Entry>)

  /** What can happen to the sync client. `TotalPushed` is an UPDATE of the
      `global_state` row (with `total_taps` when it is a number),
      `CountryChanged` any change of `country_taps`; `TotalLoaded` and
      `LeaderboardLoaded` are results of one-shot reads (the initial load or
      the refresh a country change triggers); `PollTick` is one tick of the
      polling interval with the results of its two reads. */
  datatype Event =
    | TotalPushed(newTotal: Option<int>)
    | CountryChanged
    | TotalLoaded(total: Option<int>)
    | LeaderboardLoaded(rows: Option<seq<Row>>)
    | FallbackFires
    | PollTick(total: Option<int>, rows: Option<seq<Row>>)
    | Teardown
  {
    /** A realtime event, one that proves the push channel works. */
    predicate IsPush() {
      TotalPushed? || CountryChanged?
    }
  }

  /** The country name shown for a code. The source asks `Intl.DisplayNames`
      and falls back to the upper-cased code; the model always takes that
      fallback. */
  function CountryName(code: string): (name: string)
    ensures |name| == |code|
  {
    ToUpper(code)
  }

  /** The rows of a leaderboard query, as rendered: same length, same order,
      each entry built from the row at the same position. */
  function ToEntries(rows: seq<Row>): (entries: seq<Entry>)
    ensures |entries| == |rows|
    ensures forall i :: 0 <= i < |rows| ==>
              entries[i].taps == rows[i].taps &&
              entries[i].flag == CountryCodeToFlag(rows[i].countryCode) &&
              entries[i].countryName == CountryName(rows[i].countryCode)
  {
    if rows == [] then []
    else [Entry(CountryCodeToFlag(rows[0].countryCode), CountryName(rows[0].countryCode), rows[0].taps)]
         + ToEntries(rows[1..])
  }

  /** The state right after mounting: without a backend the effect returns
      before subscribing; with one, the channel is open and the fallback
      timeout armed. */
  function Mount(backend: bool): (s: SyncState)
    ensures s.mounted && !s.received && !s.polling && s.globalTaps == 0 && s.leaderboard == []
    ensures s.channelOpen == backend && s.fallbackArmed == backend
    ensures s.backend == backend && Valid(s)
  {
    SyncState(backend, true, backend, false, backend, false, 0, [])
  }

  /** Shows a read total, when the read produced one and the view is live. */
  function ApplyTotal(s: SyncState, total: Option<int>): (t: SyncState)
    ensures t.(globalTaps := s.globalTaps) == s
    ensures s.mounted && total.Some? ==> t.globalTaps == total.value
    ensures !(s.mounted && total.Some?) ==> t == s
  {
    if s.mounted && total.Some? then s.(globalTaps := total.value) else s
  }

  /** Shows a read leaderboard, when the read produced rows and the view is live. */
  function ApplyRows(s: SyncState, rows: Option<seq<Row>>): (t: SyncState)
    ensures t.(leaderboard := s.leaderboard) == s
    ensures s.mounted && rows.Some? ==> t.leaderboard == ToEntries(rows.value)
    ensures !(s.mounted && rows.Some?) ==> t == s
  {
    if s.mounted && rows.Some? then s.(leaderboard := ToEntries(rows.value)) else s
  }

  /** The 5 s timeout: polling starts exactly when no realtime event has been received. */
  function FireFallback(s: SyncState): (t: SyncState)
    ensures !s.fallbackArmed ==> t == s
    ensures s.fallbackArmed ==> !t.fallbackArmed && t.polling == (s.polling || !s.received)
    ensures t.(fallbackArmed := s.fallbackArmed, polling := s.polling) == s
  {
    if !s.fallbackArmed then s
    else if !s.received then s.(fallbackArmed := false, polling := true)
    else s.(fallbackArmed := false)
  }

  /** Cleanup: the channel is removed, the timeout cleared and polling stopped. */
  function TeardownStep(s: SyncState): (t: SyncState)
    ensures !t.mounted && !t.channelOpen && !t.fallbackArmed && !t.polling
    ensures t.(mounted := s.mounted, channelOpen := s.channelOpen, fallbackArmed := s.fallbackArmed, polling := s.polling) == s
    ensures Valid(t)
    ensures FireFallback(t) == t
    ensures forall total :: ApplyTotal(t, total) == t
    ensures forall rows :: ApplyRows(t, rows) == t
  {
    s.(mounted := false, channelOpen := false, fallbackArmed := false, polling := false)
  }

  /** One event. Events that cannot occur in a state (a realtime event on a
      removed channel, a cleared timeout firing, a tick of a cleared interval)
      leave it unchanged. */
  function Step(s: SyncState, e: Event): SyncState
  {
    match e
    case TotalPushed(newTotal) =>
      if s.channelOpen then ApplyTotal(s.(received := true), newTotal) else s
    case CountryChanged =>
      if s.channelOpen then s.(received := true) else s
    case TotalLoaded(total) => ApplyTotal(s, total)
    case LeaderboardLoaded(rows) => ApplyRows(s, rows)
    case FallbackFires => FireFallback(s)
    case PollTick(total, rows) =>
      if s.polling then ApplyRows(ApplyTotal(s, total), rows) else s
    case Teardown => TeardownStep(s)
  }

  function Run(s: SyncState, events: seq<Event>): SyncState
    decreases |events|
  {
    if events == [] then s else Run(Step(s, events[0]), events[1..])
  }

  /** The invariant: polling only runs after the timeout has fired, and only
      while mounted with a backend; nothing runs without a backend or after
      unmounting. */
  ghost predicate Valid(s: SyncState) {
    && (s.polling ==> !s.fallbackArmed && s.backend && s.mounted)
    && (s.channelOpen || s.fallbackArmed ==> s.backend && s.mounted)
  }

  lemma {:induction false} RunValid(s: SyncState, events: seq<Event>)
    requires Valid(s)
    ensures Valid(Run(s, events))
    decreases |events|
  {
    if events != [] {
      assert Valid(Step(s, events[0]));
      RunValid(Step(s, events[0]), events[1..]);
    }
  }

  /** The 5 s timeout fires before any realtime event arrives. */
  predicate TimeoutBeforePush(events: seq<Event>)
    decreases |events|
  {
    if events == [] then false
    else if events[0] == FallbackFires then true
    else if events[0].IsPush() then false
    else TimeoutBeforePush(events[1..])
  }

  lemma {:induction false} PollingIffGeneral(s: SyncState, events: seq<Event>)
    requires s.channelOpen && s.mounted
    requires Teardown !in events
    ensures Run(s, events).polling <==>
              s.polling || (s.fallbackArmed && !s.received && TimeoutBeforePush(events))
    decreases |events|
  {
    if events != [] {
      var e := events[0];
      assert Teardown !in events[1..] by {
        assert forall x :: x in events[1..] ==> x in events;
      }
      var t := Step(s, e);
      PollingIffGeneral(t, events[1..]);
      if !s.polling && s.fallbackArmed && !s.received && e == FallbackFires {
        assert t.polling;
      }
    }
  }

  /** The fallback decision: on a mounted client with a backend, and as long
      as it is not torn down, polling runs exactly when the 5 s timeout fired
      before any realtime event arrived. */
  lemma PollingIffTimeoutBeforePush(events: seq<Event>)
    requires Teardown !in events
    ensures Run(Mount(true), events).polling <==> TimeoutBeforePush(events)
  {
    PollingIffGeneral(Mount(true), events);
  }

  /** A realtime event received while the timeout is pending suppresses
      polling for good: no later sequence of events starts it. */
  lemma {:induction false} PushSuppressesPolling(s: SyncState, events: seq<Event>)
    requires s.received && !s.polling
    ensures !Run(s, events).polling
    decreases |events|
  {
    if events != [] {
      var t := Step(s, events[0]);
      assert t.received && !t.polling;
      PushSuppressesPolling(t, events[1..]);
    }
  }

  /** Once polling runs, only teardown stops it. */
  lemma {:induction false} PollingIsFinal(s: SyncState, events: seq<Event>)
    requires s.polling
    requires Teardown !in events
    ensures Run(s, events).polling
    decreases |events|
  {
    if events != [] {
      assert Teardown !in events[1..] by {
        assert forall x :: x in events[1..] ==> x in events;
      }
      PollingIsFinal(Step(s, events[0]), events[1..]);
    }
  }

  /** After teardown the channel stays removed, the timeout and the interval
      stay cancelled and the view no longer changes, whatever arrives later. */
  lemma {:induction false} TeardownIsFinal(s: SyncState, events: seq<Event>)
    ensures var t := Run(TeardownStep(s), events);
            !t.channelOpen && !t.fallbackArmed && !t.polling && !t.mounted
    ensures Run(TeardownStep(s), events).globalTaps == s.globalTaps
    ensures Run(TeardownStep(s), events).leaderboard == s.leaderboard
    decreases |events|
  {
    if events != [] {
      var u := TeardownStep(s);
      assert Step(u, events[0]) == u;
      assert TeardownStep(u) == u;
      TeardownIsFinal(s, events[1..]);
    }
  }

  /** The class form: the effect's locals and the component's view state as fields. */
  class SyncClient {
    const backend: bool
    var mounted: bool
    var channelOpen: bool
    var received: bool
    var fallbackArmed: bool
    var polling: bool
    var globalTaps: int
    var leaderboard: seq<Entry>

    ghost function State(): SyncState
      reads this
    {
      SyncState(backend, mounted, channelOpen, received, fallbackArmed, polling, globalTaps, leaderboard)
    }

    /** Mounting: subscribe and arm the fallback timeout, unless there is no backend. */
    constructor (hasBackend: bool)
      ensures backend == hasBackend && mounted && channelOpen == hasBackend && !received
      ensures fallbackArmed == hasBackend && !polling && globalTaps == 0 && leaderboard == []
      ensures State() == Mount(hasBackend) && Valid(State())
    {
      backend := hasBackend;
      mounted := true;
      channelOpen := hasBackend;
      received := false;
      fallbackArmed := hasBackend;
      polling := false;
      globalTaps := 0;
      leaderboard := [];
    }

    /** Result of a read of the global total; React drops it after unmounting. */
    method OnTotalLoaded(total: Option<int>)
      requires Valid(State())
      modifies this
      ensures Valid(State()) && State() == Step(old(State()), TotalLoaded(total))
    {
      if mounted && total.Some? {
        globalTaps := total.value;
      }
    }

    /** Result of a leaderboard read; React drops it after unmounting. */
    method OnLeaderboardLoaded(rows: Option<seq<Row>>)
      requires Valid(State())
      modifies this
      ensures Valid(State()) && State() == Step(old(State()), LeaderboardLoaded(rows))
    {
      if mounted && rows.Some? {
        leaderboard := ToEntries(rows.value);
      }
    }

    /** Realtime UPDATE of the `global_state` row; delivered only while subscribed. */
    method OnTotalPushed(newTotal: Option<int>)
      requires channelOpen && Valid(State())
      modifies this
      ensures Valid(State()) && State() == Step(old(State()), TotalPushed(newTotal))
    {
      received := true;
      if newTotal.Some? {
        globalTaps := newTotal.value;
      }
    }

    /** Realtime change of `country_taps`; it also starts a leaderboard
      refresh, whose result arrives later as `OnLeaderboardLoaded`. */
    method OnCountryChanged()
      requires channelOpen && Valid(State())
      modifies this
      ensures Valid(State()) && State() == Step(old(State()), CountryChanged)
    {
      received := true;
    }

    /** The 5 s fallback timeout; it fires only while still pending. */
    method OnFallbackTimeout()
      requires fallbackArmed && Valid(State())
      modifies this
      ensures Valid(State()) && State() == Step(old(State()), FallbackFires)
      ensures polling <==> !old(received)
    {
      fallbackArmed := false;
      if !received {
        polling := true;
      }
    }

    /** One tick of the polling interval, with the results of its two reads. */
    method OnPollTick(total: Option<int>, rows: Option<seq<Row>>)
      requires polling && Valid(State())
      modifies this
      ensures Valid(State()) && State() == Step(old(State()), PollTick(total, rows))
    {
      if total.Some? {
        globalTaps := total.value;
      }
      if rows.Some? {
        leaderboard := ToEntries(rows.value);
      }
    }

    /** The effect's cleanup on unmount. */
    method Unmount()
      requires Valid(State())
      modifies this
      ensures Valid(State()) && State() == Step(old(State()), Teardown)
      ensures !channelOpen && !fallbackArmed && !polling
    {
      channelOpen := false;
      fallbackArmed := false;
      polling := false;
      mounted := false;
    }
  }
}
