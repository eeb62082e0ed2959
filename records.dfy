/** Resource records of the provider's zones, the exact-match identity a
    challenge record has, what Present and CleanUp do to a record list, and the
    provider's record store with the three SDK calls the solver makes. */
module Records {
  import opened Wrappers
  import opened Seqs

  /** SoftLayer's (lower-case) type string for TXT records (main.go:257). */
  const TxtType: string := "txt"

  /** The TTL Present gives a new challenge record (main.go:151). */
  const ChallengeTtl: int := 60

  /** Dns_Domain_ResourceRecord: id, owning domain (zone), type, host, data, ttl. */
  datatype ResourceRecord = ResourceRecord(
    id: int, domainId: int, recordType: string, host: string, data: string, ttl: int)

  /** The client-side test of findTxtRecords (main.go:273). */
  predicate IsChallenge(rec: ResourceRecord, entry: string, key: string)
  {
    rec.recordType == TxtType && rec.host == entry && rec.data == key
  }

  function ChallengeOf(entry: string, key: string): ResourceRecord -> bool
  {
    (rec: ResourceRecord) => IsChallenge(rec, entry, key)
  }

  /** findTxtRecords' result on a listing: its challenge records, in listing order. */
  function Matches(listing: seq<ResourceRecord>, entry: string, key: string): (found: seq<ResourceRecord>)
    ensures forall x :: x in found <==> x in listing && IsChallenge(x, entry, key)
    ensures IsSubsequence(found, listing)
  {
    FilterIsSubsequence(listing, ChallengeOf(entry, key));
    Filter(listing, ChallengeOf(entry, key))
  }

  function InZone(zone: int): ResourceRecord -> bool
  {
    (rec: ResourceRecord) => rec.domainId == zone
  }

  /** The records listed under a zone (`svc.Id(zone).GetResourceRecords()`). */
  function ZoneRecords(records: seq<ResourceRecord>, zone: int): (listed: seq<ResourceRecord>)
    ensures forall x :: x in listed <==> x in records && x.domainId == zone
  {
    Filter(records, InZone(zone))
  }

  /** The challenge (entry, key) is published in the zone. */
  predicate IsPresented(records: seq<ResourceRecord>, zone: int, entry: string, key: string)
  {
    exists x :: x in records && x.domainId == zone && IsChallenge(x, entry, key)
  }

  /** The record CreateTxtRecord makes for a challenge. */
  function ChallengeRecord(id: int, zone: int, entry: string, key: string): (rec: ResourceRecord)
    ensures IsChallenge(rec, entry, key) && rec.domainId == zone && rec.id == id && rec.ttl == 60
  {
    ResourceRecord(id, zone, TxtType, entry, key, ChallengeTtl)
  }

  /** A successful Present: add the challenge record (with the store's next id)
      only when no record with that exact (txt, entry, key) is in the zone. */
  function AfterPresent(records: seq<ResourceRecord>, zone: int, entry: string, key: string, id: int)
    : (after: seq<ResourceRecord>)
    ensures IsPresented(after, zone, entry, key)
    ensures records <= after && |after| <= |records| + 1
  {
    if IsPresented(records, zone, entry, key) then records
    else
      var rec := ChallengeRecord(id, zone, entry, key);
      assert rec in records + [rec];
      records + [rec]
  }

  function NotChallengeIn(zone: int, entry: string, key: string): ResourceRecord -> bool
  {
    (rec: ResourceRecord) => !(rec.domainId == zone && IsChallenge(rec, entry, key))
  }

  /** A CleanUp whose delete went through: every record of the zone with the
      exact (txt, entry, key) is gone, everything else stays in order. */
  function AfterCleanUp(records: seq<ResourceRecord>, zone: int, entry: string, key: string)
    : (after: seq<ResourceRecord>)
    ensures forall x :: x in after <==> x in records && !(x.domainId == zone && IsChallenge(x, entry, key))
    ensures IsSubsequence(after, records)
  {
    FilterIsSubsequence(records, NotChallengeIn(zone, entry, key));
    Filter(records, NotChallengeIn(zone, entry, key))
  }

  function IdsOf(recs: seq<ResourceRecord>): set<int>
  {
    set rec | rec in recs :: rec.id
  }

  function IdNotIn(ids: set<int>): ResourceRecord -> bool
  {
    (rec: ResourceRecord) => rec.id !in ids
  }

  /** `DeleteObjects`: every record whose id is among `ids` is deleted. */
  function WithoutIds(records: seq<ResourceRecord>, ids: set<int>): (after: seq<ResourceRecord>)
    ensures forall x :: x in after <==> x in records && x.id !in ids
  {
    Filter(records, IdNotIn(ids))
  }

  /** Record ids identify records. */
  ghost predicate UniqueIds(records: seq<ResourceRecord>)
  {
    forall a, b :: a in records && b in records && a.id == b.id ==> a == b
  }

  // ---- Properties of the specification functions ----

  /** A second Present with the same inputs is a no-op. */
  lemma PresentIdempotent(records: seq<ResourceRecord>, zone: int, entry: string, key: string, id1: int, id2: int)
    ensures var once := AfterPresent(records, zone, entry, key, id1);
      AfterPresent(once, zone, entry, key, id2) == once
  {
  }

  /** A zone holding the challenge's record is not empty, so a second Present
      after a successful one gets past the empty-zone check. */
  lemma PresentedZoneNotEmpty(records: seq<ResourceRecord>, zone: int, entry: string, key: string)
    requires IsPresented(records, zone, entry, key)
    ensures ZoneRecords(records, zone) != []
  {
    var w :| w in records && w.domainId == zone && IsChallenge(w, entry, key);
    assert w in ZoneRecords(records, zone);
  }

  /** Present adds only when the exact record is missing: it never duplicates a
      challenge record, and the only record it can add is the challenge's own. */
  lemma PresentAddsIfMissing(records: seq<ResourceRecord>, zone: int, entry: string, key: string, id: int)
    ensures IsPresented(records, zone, entry, key) ==> AfterPresent(records, zone, entry, key, id) == records
    ensures !IsPresented(records, zone, entry, key) ==>
              AfterPresent(records, zone, entry, key, id) == records + [ChallengeRecord(id, zone, entry, key)]
  {
  }

  /** Values on the same host coexist: publishing k2 after k1 leaves both. */
  lemma PresentCoexists(records: seq<ResourceRecord>, zone: int, entry: string, k1: string, k2: string, id1: int, id2: int)
    ensures var both := AfterPresent(AfterPresent(records, zone, entry, k1, id1), zone, entry, k2, id2);
      IsPresented(both, zone, entry, k1) && IsPresented(both, zone, entry, k2)
  {
    var once := AfterPresent(records, zone, entry, k1, id1);
    var w :| w in once && w.domainId == zone && IsChallenge(w, entry, k1);
    assert w in AfterPresent(once, zone, entry, k2, id2);
  }

  /** CleanUp is selective: a record for another key, host or zone survives it. */
  lemma CleanUpSelective(records: seq<ResourceRecord>, zone: int, entry: string, key: string, other: ResourceRecord)
    requires other in records
    requires !(other.domainId == zone && IsChallenge(other, entry, key))
    ensures other in AfterCleanUp(records, zone, entry, key)
  {
  }

  /** After a CleanUp the challenge is no longer published, and a second CleanUp
      finds nothing to delete. */
  lemma {:induction false} CleanUpIdempotent(records: seq<ResourceRecord>, zone: int, entry: string, key: string)
    ensures !IsPresented(AfterCleanUp(records, zone, entry, key), zone, entry, key)
    ensures var once := AfterCleanUp(records, zone, entry, key);
      AfterCleanUp(once, zone, entry, key) == once
  {
    FilterIdempotent(records, NotChallengeIn(zone, entry, key));
  }

  /** A challenge published with another key on the same host is still
      published after this key's CleanUp. */
  lemma CleanUpKeepsOtherKeys(records: seq<ResourceRecord>, zone: int, entry: string, key: string, other: string)
    requires key != other
    requires IsPresented(records, zone, entry, other)
    ensures IsPresented(AfterCleanUp(records, zone, entry, key), zone, entry, other)
  {
    var w :| w in records && w.domainId == zone && IsChallenge(w, entry, other);
    assert w in AfterCleanUp(records, zone, entry, key);
  }

  /** CleanUp undoes a Present that added a record: absent -> present -> absent
      returns the original record list. */
  lemma {:induction false} CleanUpUndoesPresent(records: seq<ResourceRecord>, zone: int, entry: string, key: string, id: int)
    requires !IsPresented(records, zone, entry, key)
    ensures AfterCleanUp(AfterPresent(records, zone, entry, key, id), zone, entry, key) == records
  {
    var p := NotChallengeIn(zone, entry, key);
    var rec := ChallengeRecord(id, zone, entry, key);
    FilterSnoc(records, rec, p);
    FilterKeepsAll(records, p);
  }

  /** Deleting the ids of exactly the matching records of a zone, as CleanUp
      does, is AfterCleanUp, provided ids identify records. */
  lemma DeletingMatchesIsCleanUp(records: seq<ResourceRecord>, zone: int, entry: string, key: string,
                                 found: seq<ResourceRecord>)
    requires UniqueIds(records)
    requires forall x :: x in found <==> x in records && x.domainId == zone && IsChallenge(x, entry, key)
    ensures WithoutIds(records, IdsOf(found)) == AfterCleanUp(records, zone, entry, key)
  {
    forall x | x in records
      ensures IdNotIn(IdsOf(found))(x) == NotChallengeIn(zone, entry, key)(x)
    {
      if x.id in IdsOf(found) {
        var f :| f in found && f.id == x.id;
        assert f == x;
      }
    }
    FilterCongruent(records, IdNotIn(IdsOf(found)), NotChallengeIn(zone, entry, key));
  }

  // ---- The provider's record store ----

  /** How the provider answers one `DeleteObjects` call: true, false without an
      error, or false with an error. */
  datatype DeleteAnswer = Deleted | NotDeleted | DeleteFailed(reason: string)

  /** The provider's answers to the calls of one Present or CleanUp: whether the
      zone listing, the filtered listing and the create succeed, and what the
      bulk delete answers. */
  datatype SdkAnswers = SdkAnswers(listOk: bool, findOk: bool, createOk: bool, deleteAnswer: DeleteAnswer)

  /** The resource records of the account's zones, as the SoftLayer API keeps them.
      Whether a call succeeds is the provider's answer, passed in by the caller. */
  class RecordStore {
    var records: seq<ResourceRecord>
    var nextId: int

    ghost predicate Valid()
      reads this
    {
      UniqueIds(records) && forall x :: x in records ==> x.id < nextId
    }

    constructor (initial: seq<ResourceRecord>, next: int)
      requires UniqueIds(initial) && forall x :: x in initial ==> x.id < next
      ensures Valid() && records == initial && nextId == next
    {
      records := initial;
      nextId := next;
    }

    /** `svc.Id(zone).GetResourceRecords()`, unfiltered: all records of the zone,
        or an error when the provider cannot be reached. */
    method GetResourceRecords(zone: int, reachable: bool) returns (r: Result<seq<ResourceRecord>, string>)
      ensures r.Ok? <==> reachable
      ensures r.Ok? ==> r.value == ZoneRecords(records, zone)
    {
      if reachable {
        r := Ok(ZoneRecords(records, zone));
      } else {
        r := Err("GetResourceRecords failed");
      }
    }

    /** `svc.Id(zone).Filter(type, host).GetResourceRecords()`. The server-side
        filter is only trusted not to drop a matching record: the answer holds
        records of the zone, among them every one with this type and host. */
    method GetFilteredResourceRecords(zone: int, recordType: string, host: string, reachable: bool)
      returns (r: Result<seq<ResourceRecord>, string>)
      ensures r.Ok? <==> reachable
      ensures r.Ok? ==> forall x :: x in r.value ==> x in records && x.domainId == zone
      ensures r.Ok? ==> forall x :: x in records && x.domainId == zone && x.recordType == recordType && x.host == host
                          ==> x in r.value
    {
      var honoursFilter: bool :| true;
      var listed := ZoneRecords(records, zone);
      if !reachable {
        r := Err("GetResourceRecords failed");
      } else if honoursFilter {
        r := Ok(Filter(listed, (x: ResourceRecord) => x.recordType == recordType && x.host == host));
      } else {
        r := Ok(listed);
      }
    }

    /** `svc.Id(zone).CreateTxtRecord(host, data, ttl)`: appends one TXT record
        with a fresh id, or fails and changes nothing. */
    method CreateTxtRecord(zone: int, host: string, data: string, ttl: int, accepted: bool)
      returns (r: Result<ResourceRecord, string>)
      requires Valid()
      modifies this
      ensures Valid()
      ensures r.Ok? <==> accepted
      ensures r.Ok? ==> r.value == ResourceRecord(old(nextId), zone, TxtType, host, data, ttl)
                        && records == old(records) + [r.value]
      ensures r.Err? ==> records == old(records) && nextId == old(nextId)
    {
      if accepted {
        var rec := ResourceRecord(nextId, zone, TxtType, host, data, ttl);
        records := records + [rec];
        nextId := nextId + 1;
        r := Ok(rec);
      } else {
        r := Err("CreateTxtRecord failed");
      }
    }

    /** `DeleteObjects(recs)`: on `Deleted`, removes every record with one of
        their ids and answers true; otherwise deletes nothing and answers false,
        with the error `DeleteFailed` carries. */
    method DeleteObjects(doomed: seq<ResourceRecord>, answer: DeleteAnswer) returns (deleted: bool, err: Option<string>)
      requires Valid()
      modifies this
      ensures Valid() && nextId == old(nextId)
      ensures deleted <==> answer.Deleted?
      ensures err == (if answer.DeleteFailed? then Some(answer.reason) else None)
      ensures deleted ==> records == WithoutIds(old(records), IdsOf(doomed))
      ensures !deleted ==> records == old(records)
    {
      match answer
      case Deleted =>
        records := WithoutIds(records, IdsOf(doomed));
        deleted, err := true, None;
      case NotDeleted =>
        deleted, err := false, None;
      case DeleteFailed(reason) =>
        deleted, err := false, Some(reason);
    }
  }
}
