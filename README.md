# Gooner Tap: tap batching, realtime fallback and consent, in Dafny

This project models the client-side logic of a single-page tap game. Taps on a character add to a
global counter kept by a backend, and a leaderboard ranks countries by taps. Two parts of the
client are modelled:

- **The PenguinTap component** (`src/components/PenguinTap.tsx`).
  - The tap batcher. A press gate lets through one tap per press. A pending counter collects taps.
    A single 300 ms debounce timer flushes the counter with one `increment_taps(country, amount)`
    call. The counter is also flushed directly when the page is hidden and when the component
    unmounts. The flush captures and zeroes the counter before the call is made.
  - The sync client. It reads the total and the top-20 rows, subscribes to a realtime channel, and
    starts polling every 2 s if no realtime event has arrived when a 5 s timeout fires.
  - `countryCodeToFlag`, which turns a country code into regional-indicator code points.
- **The consent manager** (`src/lib/consentManager.ts`). It keeps one versioned consent record
  under the `gooner-tap-consent` key of local storage. A record for another version is deleted
  when read. A record that cannot be parsed reads as "no consent" and stays stored.

Files and modules:

- `wrappers.dfy`, module `Wrappers`: `Option`, for JavaScript's `null`/`undefined`.
- `country_flag.dfy`, module `CountryFlag`: `countryCodeToFlag` and upper-casing, with a decoder
  used to prove the mapping injective.
- `tap_batcher.dfy`, module `TapBatcher`:
  - the batcher's state as a value `BatcherState`, with one step function per event;
  - `Run` over any sequence of events, and the lemmas about it;
  - the class `Batcher`, whose fields are the component's refs. Each handler is a method proved to
    take its step (`ensures State() == Step(old(State()))`) and to keep the invariant.
- `realtime_sync.dfy`, module `RealtimeSync`: the same shape for the sync client, with the class
  `SyncClient`, whose methods each take their step and keep the invariant `Valid`.
- `consent_manager.dfy`, module `Consent`: pure functions that give the storage after each
  operation and the value `getConsent` returns, lemmas about them, and the class `ConsentManager`.
  Its `storage: map<string, StoredValue>` field is local storage, and its methods are proved to
  follow those functions.

How the outside world appears in the model:

- Timers are events. The debounce timer, the 5 s fallback timeout and the polling interval each
  become a method that can only be called while the timer is pending.
- A backend call is an `Rpc(country, amount)` appended to a log of issued calls.
- Query results, realtime events and the location lookup's result are parameters of event methods.
  The latest result shown wins.
- The clock reading stored in a consent record is a parameter (`now`).
- Local storage that throws on every access is the constant `available == false`.

## Model

| member | source | states |
|---|---|---|
| `CountryFlag.ToUpper` | src/components/PenguinTap.tsx:23 | upper-casing keeps the length and upper-cases each character in place |
| `CountryFlag.CountryCodeToFlag` | src/components/PenguinTap.tsx:23 | one code point per input character; each is 127397 + the upper-cased character's code, except that line terminators (not matched by `.`) pass through unchanged |
| `CountryFlag.FlagOfLetters` | src/components/PenguinTap.tsx:23 | every letter of a code, in either case, maps into the regional indicator letters U+1F1E6..U+1F1FF |
| `CountryFlag.FlagRoundTrip` | src/components/PenguinTap.tsx:23 | reading the flag of a letter code back as letters gives the upper-cased code |
| `CountryFlag.FlagsEqualIff` | src/components/PenguinTap.tsx:23 | two letter codes have the same flag if and only if they are equal up to case |
| `CountryFlag.FlagInjective` | src/components/PenguinTap.tsx:23 | on upper-case codes, equal flags imply equal codes |
| `CountryFlag.FlagIgnoresCase` | src/components/PenguinTap.tsx:66-68 | the flag drawn from the raw `country_code` equals the flag of the stored, upper-cased code |
| `TapBatcher.Initial` | src/components/PenguinTap.tsx:36-37 | on mount nothing is pending, no press was counted, no timer is armed, the gate is open, the listener is attached, no code is stored and the globe is shown, the log is empty, and the invariant holds |
| `TapBatcher.UpperCasedFixed` | src/components/PenguinTap.tsx:67 | a stored code counts as upper-cased exactly when `toUpperCase` leaves it unchanged |
| `TapBatcher.RpcCountry` | src/components/PenguinTap.tsx:46 | a call carries the stored code when one was resolved and `"ZZ"` otherwise, and never an empty country |
| `TapBatcher.FlushStep` | src/components/PenguinTap.tsx:39-49 | without a backend nothing changes; otherwise pending becomes 0, and exactly one call carrying the captured amount is logged when that amount is positive, none otherwise |
| `TapBatcher.ScheduleStep` | src/components/PenguinTap.tsx:51-53 | afterwards a timer is armed; if one was already armed nothing changes, so there is never a second timer |
| `TapBatcher.FireTimer` | src/components/PenguinTap.tsx:53-56 | an armed timer's expiry leaves no timer armed; with a backend nothing stays pending and one call carrying the old pending amount is logged if it was positive; without one pending and the log are unchanged; nothing else changes; an expiry with no timer armed changes nothing |
| `TapBatcher.PressStartStep` | src/components/PenguinTap.tsx:206-210 | a press while the gate is set changes nothing; otherwise the gate is set, the local count and pending each grow by exactly 1, and a timer is armed; nothing else changes |
| `TapBatcher.PressEndStep` | src/components/PenguinTap.tsx:247-250 | press-end clears the gate and changes nothing else, so the next press is accepted again |
| `TapBatcher.VisibilityStep` | src/components/PenguinTap.tsx:178-183 | while the listener is attached and a backend exists, hiding the page leaves nothing pending and logs the pending amount once if positive; nothing else changes (the timer stays armed as it was); any other visibility change changes nothing |
| `TapBatcher.TeardownStep` | src/components/PenguinTap.tsx:184-187 | unmounting detaches the listener and flushes directly; the debounce timer is left as it was |
| `TapBatcher.ResolveCountry` | src/components/PenguinTap.tsx:62-75 | a non-empty `country_code` is stored as `ToUpper(country_code)` and the flag shown is `CountryCodeToFlag(country_code)`, which is also the stored code's flag; a failed lookup shows the globe and keeps the code; an absent code changes nothing; only the code and the flag ever change |
| `TapBatcher.FlushValid` | src/components/PenguinTap.tsx:41-48 | a flush moves the captured amount from pending into the log and restores the invariant, even from inside the timer callback after the slot was emptied |
| `TapBatcher.StepValid` | src/components/PenguinTap.tsx:39-250 | every event keeps the invariant: conservation, with a backend client no pending taps without an armed timer, an upper-cased stored code, and positive amounts with a non-empty country in every call |
| `TapBatcher.RunValid` | src/components/PenguinTap.tsx:240 | conservation over any interleaving of presses, timer expiries, visibility flushes, teardown and the lookup: accepted presses = sum of amounts sent + pending |
| `TapBatcher.PressesBoundedByPressEnds` | src/components/PenguinTap.tsx:204-250 | over any sequence of events, accepted presses grow by at most one per press-end, plus one if the gate was open at the start |
| `TapBatcher.BurstCoalesces` | src/components/PenguinTap.tsx:51-57 | with a backend client, n taps inside one debounce window, then the timer's expiry, issue exactly one call carrying n (none for n = 0) and leave nothing pending and no timer armed |
| `TapBatcher.HiddenFlushSendsOnce` | src/components/PenguinTap.tsx:178-181 | with a backend client, hiding the page sends the pending amount once; the still-armed timer then expires without sending it again |
| `TapBatcher.TeardownFlushesAll` | src/components/PenguinTap.tsx:183-187 | with a backend client nothing is pending after teardown (without one pending stays as it was), and the detached listener ignores the page being hidden |
| `TapBatcher.NoBackendKeepsPending` | src/components/PenguinTap.tsx:40 | without a backend client a flush leaves pending and the log unchanged |
| `TapBatcher.Batcher.constructor` | src/components/PenguinTap.tsx:36-37 | each ref starts at its value in `Initial` (empty code, globe, nothing pending, no timer, gate open, listener attached, no calls), and the invariant holds |
| `TapBatcher.Batcher.FlushIncrements` | src/components/PenguinTap.tsx:39-49 | the new state is `FlushStep` of the old one, and the invariant holds afterwards; with a backend pending becomes 0 and the call log grows by the captured amount if positive |
| `TapBatcher.Batcher.ScheduleFlush` | src/components/PenguinTap.tsx:51-57 | the new state is `ScheduleStep` of the old one |
| `TapBatcher.Batcher.OnFlushTimer` | src/components/PenguinTap.tsx:53-56 | callable only while the timer is armed; the new state is `FireTimer` of the old one, the invariant is kept, the slot is empty, and with a backend the pending amount is sent if positive |
| `TapBatcher.Batcher.HandlePressStart` | src/components/PenguinTap.tsx:206-245 | the new state is `PressStartStep` of the old one, and the invariant is kept; an accepted press adds one to pending and to the local count and arms the timer, an ignored one changes neither count |
| `TapBatcher.Batcher.HandlePressEnd` | src/components/PenguinTap.tsx:247-250 | the new state is `PressEndStep` of the old one, and the invariant is kept; the gate is open and pending and the timer are unchanged |
| `TapBatcher.Batcher.OnVisibilityChange` | src/components/PenguinTap.tsx:178-183 | the new state is `VisibilityStep` of the old one, and the invariant is kept; hiding the page while listening sends the pending amount, if positive, when a backend exists |
| `TapBatcher.Batcher.Unmount` | src/components/PenguinTap.tsx:184-187 | the new state is `TeardownStep` of the old one, and the invariant is kept; the listener is detached, the timer is left as it was, and with a backend the pending amount is sent |
| `TapBatcher.Batcher.OnCountryLookup` | src/components/PenguinTap.tsx:62-75 | the new state is `ResolveCountry` of the old one, and the invariant is kept |
| `RealtimeSync.CountryName` | src/components/PenguinTap.tsx:27-33 | the name shown for a code has the code's length (it is the upper-cased code) |
| `RealtimeSync.ToEntries` | src/components/PenguinTap.tsx:99-106 | rendering keeps the rows' number and order; each entry has its row's count, the flag of its row's code and its name |
| `RealtimeSync.Mount` | src/components/PenguinTap.tsx:79-153 | the backend flag is kept; without a backend nothing is subscribed or armed; with one the channel is open, the 5 s timeout armed, no event received and no polling; the invariant holds |
| `RealtimeSync.ApplyTotal` | src/components/PenguinTap.tsx:89-91 | a read total replaces the shown total while mounted; a missing total changes nothing |
| `RealtimeSync.ApplyRows` | src/components/PenguinTap.tsx:99-107 | read rows replace the shown leaderboard while mounted; a missing result changes nothing |
| `RealtimeSync.FireFallback` | src/components/PenguinTap.tsx:153-167 | when the pending timeout fires it is disarmed, and polling starts if and only if no realtime event was received |
| `RealtimeSync.TeardownStep` | src/components/PenguinTap.tsx:169-173 | teardown removes the channel, clears the timeout, stops polling and unmounts, and changes nothing else; it keeps the invariant, and afterwards the timeout, query results and pushes have no effect |
| `RealtimeSync.RunValid` | src/components/PenguinTap.tsx:152-173 | over any event sequence, polling runs only after the timeout was disarmed and only while mounted with a backend |
| `RealtimeSync.PollingIffTimeoutBeforePush` | src/components/PenguinTap.tsx:113-167 | before teardown, polling runs if and only if the 5 s timeout fired before any realtime event arrived |
| `RealtimeSync.PushSuppressesPolling` | src/components/PenguinTap.tsx:119-129 | once a realtime event has been received and polling has not started, no later events start it |
| `RealtimeSync.PollingIsFinal` | src/components/PenguinTap.tsx:155-165 | once polling runs, only teardown stops it |
| `RealtimeSync.TeardownIsFinal` | src/components/PenguinTap.tsx:169-173 | after teardown the channel, timeout and interval stay cancelled and the shown total and leaderboard no longer change |
| `RealtimeSync.SyncClient.constructor` | src/components/PenguinTap.tsx:79-167 | the fields start as in `Mount` |
| `RealtimeSync.SyncClient.OnTotalLoaded` | src/components/PenguinTap.tsx:84-91 | the new state is the `TotalLoaded` step of the old one, and the invariant is kept |
| `RealtimeSync.SyncClient.OnLeaderboardLoaded` | src/components/PenguinTap.tsx:131-146 | the new state is the `LeaderboardLoaded` step of the old one, and the invariant is kept |
| `RealtimeSync.SyncClient.OnTotalPushed` | src/components/PenguinTap.tsx:119-123 | delivered only while subscribed; sets the received flag and shows a numeric total |
| `RealtimeSync.SyncClient.OnCountryChanged` | src/components/PenguinTap.tsx:128-130 | delivered only while subscribed; sets the received flag |
| `RealtimeSync.SyncClient.OnFallbackTimeout` | src/components/PenguinTap.tsx:153-167 | polling runs afterwards if and only if no realtime event had been received |
| `RealtimeSync.SyncClient.OnPollTick` | src/components/PenguinTap.tsx:155-164 | only while polling; shows whichever of the two reads returned data |
| `RealtimeSync.SyncClient.Unmount` | src/components/PenguinTap.tsx:169-173 | the channel is removed, the timeout cleared and polling stopped |
| `Consent.Written` | src/lib/consentManager.ts:12-20 | after `setConsent` the key holds a current-version record carrying the answer, and no other key changes |
| `Consent.Cleared` | src/lib/consentManager.ts:57-62 | after `clearConsent` the key is absent, and every other key keeps its value |
| `Consent.ReadConsent` | src/lib/consentManager.ts:26-45 | `getConsent` returns the stored record exactly when it parses and its version is `'1.0'` |
| `Consent.AfterRead` | src/lib/consentManager.ts:33-37 | reading deletes a stale-version record and changes nothing otherwise; no stale record remains |
| `Consent.SetThenGet` | src/lib/consentManager.ts:12-40 | after `setConsent(b)`, `getConsent` returns a `'1.0'` record with `hasConsented == b` and deletes nothing |
| `Consent.NothingStored` | src/lib/consentManager.ts:28-29 | with no stored value, `getConsent` returns null and leaves storage unchanged |
| `Consent.StaleDeletedOnRead` | src/lib/consentManager.ts:34-37 | a stale-version record reads as null and is deleted, so a second read is null too |
| `Consent.MalformedKept` | src/lib/consentManager.ts:41-44 | a value that fails to parse reads as null and the key is not removed |
| `Consent.ReadIsStable` | src/lib/consentManager.ts:26-45 | a second `getConsent` returns what the first did and deletes nothing more |
| `Consent.ValidAndDeclinedExclusive` | src/lib/consentManager.ts:47-55 | valid and declined consent are never both reported |
| `Consent.ExactlyOneAnswer` | src/lib/consentManager.ts:47-68 | when a stored answer is a boolean, exactly one of needs, valid and declined holds |
| `Consent.NonBooleanAnswersNothing` | src/lib/consentManager.ts:47-68 | a current record whose answer is not a boolean satisfies none of the three queries |
| `Consent.ClearIdempotent` | src/lib/consentManager.ts:57-62 | clearing twice is clearing once |
| `Consent.LastWriteWins` | src/lib/consentManager.ts:12-20 | a second `setConsent` overwrites the first; the read returns the last answer |
| `Consent.ConsentManager.SetConsent` | src/lib/consentManager.ts:12-24 | storage becomes `Written`; if storage throws, nothing changes |
| `Consent.ConsentManager.ClearConsent` | src/lib/consentManager.ts:57-63 | storage becomes `Cleared`; if storage throws, nothing changes |
| `Consent.ConsentManager.GetConsent` | src/lib/consentManager.ts:26-45 | returns `ReadConsent` of the old storage and leaves `AfterRead` of it; if storage throws, returns null and changes nothing |
| `Consent.ConsentManager.HasValidConsent` | src/lib/consentManager.ts:47-50 | true exactly when the read record has `hasConsented === true`; a stale record is deleted on the way |
| `Consent.ConsentManager.HasDeclinedConsent` | src/lib/consentManager.ts:52-55 | true exactly when the read record has `hasConsented === false`; a stale record is deleted on the way |
| `Consent.ConsentManager.NeedsConsent` | src/lib/consentManager.ts:65-68 | true exactly when the read returns null; a stale record is deleted on the way |

Behaviour of the code worth noting:

- The component never consults the consent manager. A declined consent does not replace the country
  sent with increments; a missing code is sent as `"ZZ"`.
- The leaderboard order comes from the backend query (`order('taps', descending)`). The client only
  maps rows, keeping their order and number (`ToEntries`).
- Unmounting does not clear the debounce timer. It only flushes and removes the visibility
  listener. A timer still armed may fire later; it then flushes whatever is pending.
- The realtime state is two booleans plus the polling handle, not a named three-state machine.
  `PollingIffTimeoutBeforePush`, `PushSuppressesPolling` and `PollingIsFinal` state the same
  transitions.

## Left out

- Rendering, animations, the pop effect and its 150 ms timer, the audio oscillator and
  `navigator.vibrate`: presentation and browser APIs.
- The primary-pointer filter on the pointer events: it only decides whether the handlers run.
- The Supabase client: the RPC is a logged record and does not model its success or failure (a
  failed call is dropped by the source anyway). Reads are result parameters. The realtime channel
  is a set of event methods.
- The `ipapi.co` request: its outcome is the parameter of `OnCountryLookup`.
- `Intl.DisplayNames`, `toLocaleString`, and the clipboard copy with its toasts: foreign library and
  browser calls.
- Real timers and promise scheduling: each timer is an explicit event, each query result arrives
  as an event, and the latest result shown wins.
- `Number(...)` conversions of query fields: totals and counts are integers; NaN and fractional
  values are not modelled.
- `Date().toISOString()`, `JSON.stringify` and `JSON.parse`: the date is an opaque string, and a
  stored value is a parsed record or a malformed marker.
- Storage that fails only for some operations (a quota error on write alone): storage is either
  always available or always throws.
- `src/components/ConsentModal.tsx`, `src/components/PrivacyPolicy.tsx`, `src/main.tsx` and
  `vite.config.ts`: static UI, service-worker cleanup and build configuration.
- CountryFlag.ToUpper: upper-cases only `a`-`z`. JavaScript's Unicode case mapping, which can
  change the length (`ß` becomes `SS`), is not modelled.
- CountryFlag.CountryCodeToFlag: treats each character as one UTF-16 code unit. Characters outside
  the Basic Multilingual Plane, which are two code units in JavaScript, are not modelled.
- RealtimeSync.CountryName: always takes the source's fallback, the upper-cased code, instead of
  `Intl.DisplayNames`.
