/** The webhook solver's Present and CleanUp (main.go:107-194) and its
    findTxtRecords (main.go:256-279), run against the record store. */
module Solver {
  import opened Wrappers
  import opened Errors
  import opened Credentials
  import opened Zones
  import opened Records

  /** What cert-manager hands the solver per call. */
  datatype ChallengeRequest = ChallengeRequest(
    resolvedFqdn: string,       // e.g. "_acme-challenge.example.com."
    resolvedZone: string,       // e.g. "example.com."
    key: string,                // the TXT value to publish
    resourceNamespace: string,
    config: Option<Bytes>)      // the raw JSON config, nil when absent

  /** The collaborators outside the model: JSON decoding, the Kubernetes secret
      store and SoftLayer's filtered domain listing. */
  datatype Collaborators = Collaborators(decode: Decoder, secrets: SecretStore, domains: DomainQuery)

  /** The steps Present and CleanUp share before touching records: load the
      config, build the session, find the zone; the first failure wins. */
  function Resolve(env: Collaborators, ch: ChallengeRequest): (r: Result<int, Error>)
    ensures var cfg := LoadConfig(ch.config, env.decode);
      && (cfg.Err? ==> r == Err(cfg.error))
      && (cfg.Ok? ==>
            var session := Provider(cfg.value, ch.resourceNamespace, env.secrets);
            && (session.Err? ==> r == Err(session.error))
            && (session.Ok? ==> r == GetHostedZone(session.value, ch.resolvedZone, env.domains)))
  {
    var cfg :- LoadConfig(ch.config, env.decode);
    var session :- Provider(cfg, ch.resourceNamespace, env.secrets);
    GetHostedZone(session, ch.resolvedZone, env.domains)
  }

  /** The record label of the challenge inside its zone. */
  function EntryOf(ch: ChallengeRequest): string
  {
    HostEntry(ch.resolvedFqdn, ch.resolvedZone)
  }

  /** findTxtRecords: list the zone's records (server-side filtered by type and
      host) and keep, in listing order, exactly those whose type is "txt", host
      is `entry` and data is `key`. `reachable` is whether the provider answers
      the listing; `listing` is what it returned: records of the zone, among
      them every txt record on `entry`. */
  method FindTxtRecords(store: RecordStore, zone: int, entry: string, key: string, reachable: bool)
    returns (r: Result<seq<ResourceRecord>, string>, ghost listing: seq<ResourceRecord>)
    ensures r.Ok? <==> reachable
    ensures r.Ok? ==> forall x :: x in listing ==> x in store.records && x.domainId == zone
    ensures r.Ok? ==> forall x :: x in store.records && x.domainId == zone && x.recordType == TxtType && x.host == entry
                        ==> x in listing
    ensures r.Ok? ==> r.value == Matches(listing, entry, key)
    ensures r.Ok? ==> forall x :: x in r.value <==>
                        x in store.records && x.domainId == zone && IsChallenge(x, entry, key)
  {
    var recs := store.GetFilteredResourceRecords(zone, TxtType, entry, reachable);
    if recs.Err? {
      return Err(recs.error), [];
    }
    var candidates := recs.value;
    listing := candidates;
    var found := [];
    var i := 0;
    while i < |candidates|
      invariant 0 <= i <= |candidates|
      invariant found == Matches(candidates[..i], entry, key)
    {
      var rec := candidates[i];
      assert candidates[..i + 1] == candidates[..i] + [rec];
      Seqs.FilterSnoc(candidates[..i], rec, ChallengeOf(entry, key));
      if rec.recordType == TxtType && rec.host == entry && rec.data == key {
        found := found + [rec];
      }
      i := i + 1;
    }
    assert candidates[..i] == candidates;
    r := Ok(found);
  }

  /** When Present succeeds on `records` given the provider's answers `sdk`:
      the zone resolves, the zone listing answers and is not empty, the TXT
      lookup answers, and the record is already there or the create is accepted. */
  predicate PresentSucceeds(env: Collaborators, ch: ChallengeRequest, records: seq<ResourceRecord>, sdk: SdkAnswers)
  {
    && Resolve(env, ch).Ok?
    && sdk.listOk
    && ZoneRecords(records, Resolve(env, ch).value) != []
    && sdk.findOk
    && (sdk.createOk || IsPresented(records, Resolve(env, ch).value, EntryOf(ch), ch.key))
  }

  /** Present: publish the challenge's TXT record if it is not there yet.
      `sdk` holds the provider's answers. Present succeeds exactly when the zone
      resolves, both listings answer, the zone is not empty and the record is
      either already there or created; then the store is AfterPresent of the
      old records. Any failure is reported with the step that failed and leaves
      the store as it was. */
  method Present(env: Collaborators, ch: ChallengeRequest, store: RecordStore, sdk: SdkAnswers)
    returns (r: Outcome<Error>)
    requires store.Valid()
    modifies store
    ensures store.Valid()
    ensures Resolve(env, ch).Err? ==> r == Fail(Resolve(env, ch).error)
    ensures r.Pass? <==> PresentSucceeds(env, ch, old(store.records), sdk)
    ensures r.Fail? ==> store.records == old(store.records) && store.nextId == old(store.nextId)
    ensures r.Pass? ==>
              && Resolve(env, ch).Ok?
              && store.records == AfterPresent(old(store.records), Resolve(env, ch).value, EntryOf(ch), ch.key, old(store.nextId))
    ensures Resolve(env, ch).Ok? && !sdk.listOk ==>
              r.Fail? && r.error.RecordsUnavailable? && r.error.cause.Some?
    ensures Resolve(env, ch).Ok? && sdk.listOk && ZoneRecords(old(store.records), Resolve(env, ch).value) == [] ==>
              r == Fail(RecordsUnavailable(None))
    ensures Resolve(env, ch).Ok? && sdk.listOk && ZoneRecords(old(store.records), Resolve(env, ch).value) != []
            && !sdk.findOk ==>
              r.Fail? && r.error.RecordQueryFailed?
    ensures Resolve(env, ch).Ok? && sdk.listOk && ZoneRecords(old(store.records), Resolve(env, ch).value) != []
            && sdk.findOk && !IsPresented(old(store.records), Resolve(env, ch).value, EntryOf(ch), ch.key)
            && !sdk.createOk ==>
              r.Fail? && r.error.RecordCreateFailed?
  {
    var zone := Resolve(env, ch);
    if zone.Err? {
      return Fail(zone.error);
    }
    var records := store.GetResourceRecords(zone.value, sdk.listOk);
    if records.Err? {
      return Fail(RecordsUnavailable(Some(records.error)));
    }
    if |records.value| == 0 {
      return Fail(RecordsUnavailable(None));
    }
    var entry := EntryOf(ch);
    var found, listing := FindTxtRecords(store, zone.value, entry, ch.key, sdk.findOk);
    if found.Err? {
      return Fail(RecordQueryFailed(found.error));
    }
    if |found.value| > 0 {
      // the record is already published with this value
      assert found.value[0] in found.value;
      return Pass;
    }
    if |found.value| >= 1 {
      // main.go:143-149 deletes the found records here; the return above makes it unreachable
      assert false;
    }
    assert !IsPresented(store.records, zone.value, entry, ch.key);
    var created := store.CreateTxtRecord(zone.value, entry, ch.key, ChallengeTtl, sdk.createOk);
    if created.Err? {
      return Fail(RecordCreateFailed(created.error));
    }
    return Pass;
  }

  /** CleanUp: delete exactly the zone's records with this challenge's
      (txt, entry, key). The store becomes AfterCleanUp of the old records when
      the zone resolves, the listing answers and the bulk delete answers true;
      otherwise nothing changes. Only an error is reported: a delete answering
      false without an error still succeeds. */
  method CleanUp(env: Collaborators, ch: ChallengeRequest, store: RecordStore, sdk: SdkAnswers)
    returns (r: Outcome<Error>)
    requires store.Valid()
    modifies store
    ensures store.Valid() && store.nextId == old(store.nextId)
    ensures Resolve(env, ch).Err? ==> r == Fail(Resolve(env, ch).error)
    ensures r.Pass? <==> Resolve(env, ch).Ok? && sdk.findOk && !sdk.deleteAnswer.DeleteFailed?
    ensures Resolve(env, ch).Ok? && sdk.findOk && sdk.deleteAnswer.Deleted? ==>
              store.records == AfterCleanUp(old(store.records), Resolve(env, ch).value, EntryOf(ch), ch.key)
    ensures !(Resolve(env, ch).Ok? && sdk.findOk && sdk.deleteAnswer.Deleted?) ==>
              store.records == old(store.records)
    ensures Resolve(env, ch).Ok? && !sdk.findOk ==> r.Fail? && r.error.RecordQueryFailed?
    ensures Resolve(env, ch).Ok? && sdk.findOk && sdk.deleteAnswer.DeleteFailed? ==>
              r == Fail(RecordDeleteFailed(sdk.deleteAnswer.reason))
  {
    var zone := Resolve(env, ch);
    if zone.Err? {
      return Fail(zone.error);
    }
    var entry := EntryOf(ch);
    var found, listing := FindTxtRecords(store, zone.value, entry, ch.key, sdk.findOk);
    if found.Err? {
      return Fail(RecordQueryFailed(found.error));
    }
    DeletingMatchesIsCleanUp(store.records, zone.value, entry, ch.key, found.value);
    var ok, err := store.DeleteObjects(found.value, sdk.deleteAnswer);
    if !ok || err.Some? {
      // main.go:191 returns err, which is nil when the answer is false without an error
      if err.Some? {
        return Fail(RecordDeleteFailed(err.value));
      }
      return Pass;
    }
    return Pass;
  }

  // ---- What callers can rely on across calls ----

  /** Repeated Present with the same request never duplicates the record: after
      a successful first call the second succeeds exactly when its listings
      answer (no create is needed), and the store is what the first call left.
      Once either call succeeds the challenge is published. */
  method PresentTwice(env: Collaborators, ch: ChallengeRequest, store: RecordStore, sdk1: SdkAnswers, sdk2: SdkAnswers)
    returns (first: Outcome<Error>, second: Outcome<Error>)
    requires store.Valid()
    modifies store
    ensures store.Valid()
    ensures first.Pass? <==> PresentSucceeds(env, ch, old(store.records), sdk1)
    ensures !first.Pass? ==> (second.Pass? <==> PresentSucceeds(env, ch, old(store.records), sdk2))
    ensures first.Pass? ==>
              && Resolve(env, ch).Ok?
              && (second.Pass? <==> sdk2.listOk && sdk2.findOk)
              && store.records == AfterPresent(old(store.records), Resolve(env, ch).value, EntryOf(ch), ch.key, old(store.nextId))
    ensures first.Pass? || second.Pass? ==>
              && Resolve(env, ch).Ok?
              && IsPresented(store.records, Resolve(env, ch).value, EntryOf(ch), ch.key)
              && exists id :: store.records == AfterPresent(old(store.records), Resolve(env, ch).value, EntryOf(ch), ch.key, id)
    ensures !first.Pass? && !second.Pass? ==> store.records == old(store.records)
  {
    first := Present(env, ch, store, sdk1);
    ghost var afterFirst := store.records;
    ghost var mid := store.nextId;
    if first.Pass? {
      PresentedZoneNotEmpty(afterFirst, Resolve(env, ch).value, EntryOf(ch), ch.key);
    }
    second := Present(env, ch, store, sdk2);
    if first.Pass? {
      PresentIdempotent(old(store.records), Resolve(env, ch).value, EntryOf(ch), ch.key, old(store.nextId), mid);
    } else if second.Pass? {
      assert store.records == AfterPresent(old(store.records), Resolve(env, ch).value, EntryOf(ch), ch.key, mid);
    }
  }

  /** Repeated CleanUp: each call's outcome depends only on its own answers;
      the store ends as one completed delete leaves it when either delete went
      through, and unchanged otherwise. */
  method CleanUpTwice(env: Collaborators, ch: ChallengeRequest, store: RecordStore, sdk1: SdkAnswers, sdk2: SdkAnswers)
    returns (first: Outcome<Error>, second: Outcome<Error>)
    requires store.Valid()
    modifies store
    ensures store.Valid()
    ensures first.Pass? <==> Resolve(env, ch).Ok? && sdk1.findOk && !sdk1.deleteAnswer.DeleteFailed?
    ensures second.Pass? <==> Resolve(env, ch).Ok? && sdk2.findOk && !sdk2.deleteAnswer.DeleteFailed?
    ensures Resolve(env, ch).Ok?
            && ((sdk1.findOk && sdk1.deleteAnswer.Deleted?) || (sdk2.findOk && sdk2.deleteAnswer.Deleted?)) ==>
              store.records == AfterCleanUp(old(store.records), Resolve(env, ch).value, EntryOf(ch), ch.key)
    ensures !(Resolve(env, ch).Ok?
              && ((sdk1.findOk && sdk1.deleteAnswer.Deleted?) || (sdk2.findOk && sdk2.deleteAnswer.Deleted?))) ==>
              store.records == old(store.records)
  {
    first := CleanUp(env, ch, store, sdk1);
    second := CleanUp(env, ch, store, sdk2);
    if Resolve(env, ch).Ok? && sdk1.findOk && sdk1.deleteAnswer.Deleted? {
      CleanUpIdempotent(old(store.records), Resolve(env, ch).value, EntryOf(ch), ch.key);
    }
  }

  /** Two challenges for the same name with different keys: when both Present
      calls succeed both values are published side by side (`both`), and a
      CleanUp of the first afterwards removes only the first, leaving the
      second published. */
  method ConcurrentChallenges(env: Collaborators, ch: ChallengeRequest, otherKey: string, store: RecordStore,
                              sdk1: SdkAnswers, sdk2: SdkAnswers, sdk3: SdkAnswers)
    returns (r1: Outcome<Error>, r2: Outcome<Error>, r3: Outcome<Error>, ghost both: seq<ResourceRecord>)
    requires store.Valid()
    requires otherKey != ch.key
    modifies store
    ensures store.Valid()
    ensures r1.Pass? && r2.Pass? ==>
              && Resolve(env, ch).Ok?
              && (exists id :: both == AfterPresent(AfterPresent(old(store.records), Resolve(env, ch).value, EntryOf(ch), ch.key,
                                                                  old(store.nextId)),
                                                     Resolve(env, ch).value, EntryOf(ch), otherKey, id))
              && IsPresented(both, Resolve(env, ch).value, EntryOf(ch), ch.key)
              && IsPresented(both, Resolve(env, ch).value, EntryOf(ch), otherKey)
              && IsPresented(store.records, Resolve(env, ch).value, EntryOf(ch), otherKey)
    ensures r1.Pass? <==> PresentSucceeds(env, ch, old(store.records), sdk1)
    ensures !r1.Pass? ==> (r2.Pass? <==> PresentSucceeds(env, ch.(key := otherKey), old(store.records), sdk2))
    ensures r1.Pass? ==>
              && Resolve(env, ch).Ok?
              && (r2.Pass? <==>
                    PresentSucceeds(env, ch.(key := otherKey),
                                    AfterPresent(old(store.records), Resolve(env, ch).value, EntryOf(ch), ch.key, old(store.nextId)),
                                    sdk2))
    ensures !r1.Pass? && !r2.Pass? ==> both == old(store.records)
    ensures r1.Pass? && !r2.Pass? ==>
              && Resolve(env, ch).Ok?
              && both == AfterPresent(old(store.records), Resolve(env, ch).value, EntryOf(ch), ch.key, old(store.nextId))
    ensures !r1.Pass? && r2.Pass? ==>
              && Resolve(env, ch).Ok?
              && both == AfterPresent(old(store.records), Resolve(env, ch).value, EntryOf(ch), otherKey, old(store.nextId))
    ensures r3.Pass? <==> Resolve(env, ch).Ok? && sdk3.findOk && !sdk3.deleteAnswer.DeleteFailed?
    ensures Resolve(env, ch).Ok? && sdk3.findOk && sdk3.deleteAnswer.Deleted? ==>
              store.records == AfterCleanUp(both, Resolve(env, ch).value, EntryOf(ch), ch.key)
    ensures !(Resolve(env, ch).Ok? && sdk3.findOk && sdk3.deleteAnswer.Deleted?) ==> store.records == both
  {
    var other := ch.(key := otherKey);
    r1 := Present(env, ch, store, sdk1);
    ghost var afterFirst := store.records;
    ghost var idAfterFirst := store.nextId;
    r2 := Present(env, other, store, sdk2);
    both := store.records;
    if r1.Pass? && r2.Pass? {
      assert both == AfterPresent(afterFirst, Resolve(env, ch).value, EntryOf(ch), otherKey, idAfterFirst);
      PresentCoexists(old(store.records), Resolve(env, ch).value, EntryOf(ch), ch.key, otherKey,
                      old(store.nextId), idAfterFirst);
    }
    r3 := CleanUp(env, ch, store, sdk3);
    if r1.Pass? && r2.Pass? {
      CleanUpKeepsOtherKeys(both, Resolve(env, ch).value, EntryOf(ch), ch.key, otherKey);
    }
  }

  /** The ACME scenario: zone "example.com.", challenge name
      "_acme-challenge.example.com.": the zone is looked up as "example.com",
      the record goes under host "_acme-challenge" with ttl 60, and CleanUp
      afterwards restores the zone's records. */
  lemma AcmeChallengeScenario(records: seq<ResourceRecord>, zone: int, id: int)
    requires ZoneRecords(records, zone) != []
    requires !IsPresented(records, zone, "_acme-challenge", "abc123")
    ensures NormalizeDomain("example.com.") == "example.com"
    ensures var ch := ChallengeRequest("_acme-challenge.example.com.", "example.com.", "abc123", "default", None);
      && EntryOf(ch) == "_acme-challenge"
      && AfterPresent(records, zone, EntryOf(ch), ch.key, id)
           == records + [ResourceRecord(id, zone, "txt", "_acme-challenge", "abc123", 60)]
      && AfterCleanUp(AfterPresent(records, zone, EntryOf(ch), ch.key, id), zone, EntryOf(ch), ch.key) == records
  {
    NormalizeStripsOneDot("example.com");
    HostEntryOfLabel("_acme-challenge", "example.com.");
    CleanUpUndoesPresent(records, zone, "_acme-challenge", "abc123", id);
  }
}
