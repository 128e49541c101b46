/** The consent manager: one versioned consent record kept as JSON under the
    `gooner-tap-consent` key of the browser's local storage. A record written
    for another consent version is deleted when read, and an unreadable
    record reads as "no consent" but stays stored.

    Storage is a map from keys to stored values; what `JSON.parse` makes of a
    stored string is part of the stored value (`Record` or `Malformed`). The
    pure functions below give the storage after each operation and the value
    `getConsent` returns; the class `ConsentManager` holds the storage as a
    field and its methods are proved to follow them. */
module Consent {
  import opened Wrappers

  const ConsentKey: string := "gooner-tap-consent"
  const CurrentConsentVersion: string := "1.0"

  /** A parsed consent record. `hasConsented` is `None` when the stored field
      is not a boolean (JSON written by someone else); the date is the opaque
      ISO string taken when the record was written. */
  datatype ConsentData = ConsentData(hasConsented: Option<bool>, consentDate: string, consentVersion: string)

  /** A stored string, as parsed: a value whose fields can be read (a missing
      or non-string version reads as a version other than the current one),
      or one that reads as no consent without being deleted (a parse error,
      the empty string, `null`). */
  datatype StoredValue = Record(data: ConsentData) | Malformed

  type Storage = map<string, StoredValue>

  /** The record `setConsent` writes. */
  function NewRecord(hasConsented: bool, now: string): ConsentData {
    ConsentData(Some(hasConsented), now, CurrentConsentVersion)
  }

  /** A stored record written for another consent version. */
  predicate IsStale(m: Storage) {
    ConsentKey in m && m[ConsentKey].Record? && m[ConsentKey].data.consentVersion != CurrentConsentVersion
  }

  /** Storage after `setConsent(hasConsented)`: the key holds a fresh record for
      the current version, and no other key changes. */
  function Written(m: Storage, hasConsented: bool, now: string): (w: Storage)
    ensures ConsentKey in w && w[ConsentKey] == Record(NewRecord(hasConsented, now))
    ensures w.Keys == m.Keys + {ConsentKey}
    ensures forall k :: k in m && k != ConsentKey ==> w[k] == m[k]
  {
    m[ConsentKey := Record(NewRecord(hasConsented, now))]
  }

  /** Storage after `clearConsent`: the key is gone and no other key changes. */
  function Cleared(m: Storage): (c: Storage)
    ensures ConsentKey !in c
    ensures c.Keys == m.Keys - {ConsentKey}
    ensures forall k :: k in c ==> c[k] == m[k]
  {
    m - {ConsentKey}
  }

  /** What `getConsent` returns: the stored record when it parses and is for
      the current version, and nothing otherwise. */
  function ReadConsent(m: Storage): (r: Option<ConsentData>)
    ensures r.Some? <==> ConsentKey in m && m[ConsentKey].Record? && !IsStale(m)
    ensures r.Some? ==> r.value == m[ConsentKey].data && r.value.consentVersion == CurrentConsentVersion
  {
    if ConsentKey !in m then None
    else match m[ConsentKey]
      case Malformed => None
      case Record(data) =>
        if data.consentVersion != CurrentConsentVersion then None else Some(data)
  }

  /** Storage after `getConsent`: a stale record is deleted, anything else stays. */
  function AfterRead(m: Storage): (a: Storage)
    ensures IsStale(m) ==> a == Cleared(m)
    ensures !IsStale(m) ==> a == m
    ensures !IsStale(a)
  {
    if IsStale(m) then Cleared(m) else m
  }

  /** `hasValidConsent`, `hasDeclinedConsent` and `needsConsent` on a storage. */
  predicate ConsentValid(m: Storage) {
    ReadConsent(m).Some? && ReadConsent(m).value.hasConsented == Some(true)
  }

  predicate ConsentDeclined(m: Storage) {
    ReadConsent(m).Some? && ReadConsent(m).value.hasConsented == Some(false)
  }

  predicate ConsentNeeded(m: Storage) {
    ReadConsent(m).None?
  }

  /** Round trip: after `setConsent(b)`, `getConsent` returns a current-version
      record carrying `b`, and deletes nothing. */
  lemma SetThenGet(m: Storage, hasConsented: bool, now: string)
    ensures ReadConsent(Written(m, hasConsented, now)) == Some(NewRecord(hasConsented, now))
    ensures ReadConsent(Written(m, hasConsented, now)).value.hasConsented == Some(hasConsented)
    ensures AfterRead(Written(m, hasConsented, now)) == Written(m, hasConsented, now)
  {
  }

  /** With nothing stored, `getConsent` returns nothing and changes nothing. */
  lemma NothingStored(m: Storage)
    requires ConsentKey !in m
    ensures ReadConsent(m).None? && AfterRead(m) == m
  {
  }

  /** A stale record reads as nothing and is deleted, so a second read also
      returns nothing. */
  lemma StaleDeletedOnRead(m: Storage)
    requires IsStale(m)
    ensures ReadConsent(m).None?
    ensures ConsentKey !in AfterRead(m)
    ensures ReadConsent(AfterRead(m)).None?
  {
  }

  /** A malformed value reads as nothing but is not deleted. */
  lemma MalformedKept(m: Storage)
    requires ConsentKey in m && m[ConsentKey].Malformed?
    ensures ReadConsent(m).None? && AfterRead(m) == m && ConsentKey in AfterRead(m)
  {
  }

  /** Reading twice is reading once: the second read sees the same answer and
      changes nothing more. */
  lemma ReadIsStable(m: Storage)
    ensures ReadConsent(AfterRead(m)) == ReadConsent(m)
    ensures AfterRead(AfterRead(m)) == AfterRead(m)
  {
  }

  /** Valid and declined consent are never both reported. */
  lemma ValidAndDeclinedExclusive(m: Storage)
    ensures !(ConsentValid(m) && ConsentDeclined(m))
  {
  }

  /** When the stored answer, if any, is a boolean, exactly one of the three
      queries holds. */
  lemma ExactlyOneAnswer(m: Storage)
    requires ReadConsent(m).Some? ==> ReadConsent(m).value.hasConsented.Some?
    ensures ConsentNeeded(m) || ConsentValid(m) || ConsentDeclined(m)
    ensures !(ConsentNeeded(m) && ConsentValid(m))
    ensures !(ConsentNeeded(m) && ConsentDeclined(m))
    ensures !(ConsentValid(m) && ConsentDeclined(m))
  {
    var r := ReadConsent(m);
    if r.Some? {
      if r.value.hasConsented.value {
        assert ConsentValid(m);
      } else {
        assert ConsentDeclined(m);
      }
    }
  }

  /** A current-version record whose answer is not a boolean satisfies none of
      the three queries: the strict comparisons with `true` and `false` fail and
      the record is not null. */
  lemma NonBooleanAnswersNothing(m: Storage, date: string)
    requires ConsentKey in m && m[ConsentKey] == Record(ConsentData(None, date, CurrentConsentVersion))
    ensures !ConsentNeeded(m) && !ConsentValid(m) && !ConsentDeclined(m)
  {
  }

  /** `clearConsent` is idempotent. */
  lemma ClearIdempotent(m: Storage)
    ensures Cleared(Cleared(m)) == Cleared(m)
  {
  }

  /** The last `setConsent` wins. */
  lemma LastWriteWins(m: Storage, first: bool, firstDate: string, second: bool, secondDate: string)
    ensures Written(Written(m, first, firstDate), second, secondDate) == Written(m, second, secondDate)
    ensures ReadConsent(Written(Written(m, first, firstDate), second, secondDate)) ==
              Some(NewRecord(second, secondDate))
  {
  }

  /** The static class, with local storage as its one field. `available` is
      false when every storage access throws (storage disabled); each method
      then swallows the exception, as the source's `catch` blocks do. */
  class ConsentManager {
    const available: bool
    var storage: Storage

    constructor (storageAvailable: bool, initial: Storage)
      ensures available == storageAvailable && storage == initial
    {
      available := storageAvailable;
      storage := initial;
    }

    /** `setConsent`; the clock's reading is the parameter `now`. */
    method SetConsent(hasConsented: bool, now: string)
      modifies this
      ensures storage == if available then Written(old(storage), hasConsented, now) else old(storage)
    {
      if available {
        storage := storage[ConsentKey := Record(NewRecord(hasConsented, now))];
      }
    }

    /** `clearConsent`. */
    method ClearConsent()
      modifies this
      ensures storage == if available then Cleared(old(storage)) else old(storage)
    {
      if available {
        storage := storage - {ConsentKey};
      }
    }

    /** `getConsent`. */
    method GetConsent() returns (r: Option<ConsentData>)
      modifies this
      ensures r == if available then ReadConsent(old(storage)) else None
      ensures storage == if available then AfterRead(old(storage)) else old(storage)
    {
      if !available || ConsentKey !in storage {
        return None;
      }
      match storage[ConsentKey]
      case Malformed =>
        r := None;
      case Record(data) =>
        if data.consentVersion != CurrentConsentVersion {
          ClearConsent();
          r := None;
        } else {
          r := Some(data);
        }
    }

    /** `hasValidConsent`. */
    method HasValidConsent() returns (b: bool)
      modifies this
      ensures b == (available && ConsentValid(old(storage)))
      ensures storage == if available then AfterRead(old(storage)) else old(storage)
    {
      var consent := GetConsent();
      b := consent.Some? && consent.value.hasConsented == Some(true);
    }

    /** `hasDeclinedConsent`. */
    method HasDeclinedConsent() returns (b: bool)
      modifies this
      ensures b == (available && ConsentDeclined(old(storage)))
      ensures storage == if available then AfterRead(old(storage)) else old(storage)
    {
      var consent := GetConsent();
      b := consent.Some? && consent.value.hasConsented == Some(false);
    }

    /** `needsConsent`. */
    method NeedsConsent() returns (b: bool)
      modifies this
      ensures b == (!available || ConsentNeeded(old(storage)))
      ensures storage == if available then AfterRead(old(storage)) else old(storage)
    {
      var consent := GetConsent();
      b := consent.None?;
    }
  }
}
