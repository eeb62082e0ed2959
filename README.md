# SoftLayer DNS-01 solver: record reconciliation

A model of the cert-manager webhook that answers ACME DNS-01 challenges
(section 8.4 of RFC 8555) with SoftLayer DNS. For each challenge the solver
publishes a TXT record holding the challenge key under the challenge name
(`Present`) and later removes it (`CleanUp`). Several challenges for the same
name, each with its own key, may be in flight at once, so a record is
identified by the exact triple (type `txt`, host, data).

The model covers the reconciliation logic in `main.go`:

- `Credentials`: `loadConfig` (an absent config is the zero config; a present
  one goes through an abstract JSON decoder that may fail) and the key lookup
  in `provider` (the secret payload is a map; a missing key is an error).
- `Zones`: `getHostedZone` (one trailing dot stripped, then the zero / one /
  many policy on what the filtered domain listing returns) and the host entry,
  a single `TrimSuffix` of `"." + zone` from the challenge FQDN.
- `Records`: resource records, the exact-match test, and specification
  functions for what a successful Present (`AfterPresent`: add the record with
  ttl 60 only when it is missing) and a completed CleanUp (`AfterCleanUp`:
  remove exactly the matching records) do to a record list, with their
  properties. `RecordStore` is the provider's record store, a class whose
  `records` sequence the SDK calls (listing, `CreateTxtRecord`,
  `DeleteObjects`) read and update. Whether each SDK call succeeds, and what
  the bulk delete answers, is an input (`SdkAnswers`, `DeleteAnswer`), so
  every outcome of Present and CleanUp is stated as a function of those
  answers and the old records.
- `Solver`: `findTxtRecords` as a loop that filters the listing client-side,
  and `Present` and `CleanUp` as module-level methods that take the store and
  modify it, each proved against the specification functions. Three client methods state what holds across
  calls: repeated Present, repeated CleanUp, and two keys on one host.

`Seqs` (an order-preserving filter and its lemmas), `Strings` (`HasSuffix`,
`TrimSuffix`), `Errors` and `Wrappers` are supporting modules.

Behaviour of the code worth noting:

- main.go:160-165 says CleanUp should delete the relevant TXT record, but
  main.go:189-192 returns `err`, so when `DeleteObjects` answers false
  without an error, CleanUp returns nil (success) and nothing was deleted.
  `Solver.CleanUp` states this outcome explicitly through the delete's answer.
- Present fails with an empty or failed zone listing (main.go:126-129), so
  on a zone with literally no records it publishes nothing.
- CleanUp calls `DeleteObjects` even when nothing matched. The model lets
  that call answer like any other, so a CleanUp with nothing to delete
  reports an error whenever the delete does. It never changes the store.
- The delete step of Present (main.go:143-149) is unreachable: main.go:138-141
  has already returned whenever a match was found. `Solver.Present` keeps the
  branch with `assert false`, which proves this. Present only ever adds a
  record.

## Model

| member | source | states |
|---|---|---|
| `Credentials.LoadConfig` | main.go:218-229 | an absent blob gives the zero config with no error; a present blob succeeds exactly when it decodes, with the decoded config; a decoding failure becomes ConfigDecodeError carrying the parser's reason |
| `Credentials.Provider` | main.go:85-100 | a session exists exactly when the secret was fetched and contains the referenced key, and it pairs the username with that key's bytes; a failed fetch is SecretUnavailable; a missing key is SecretKeyNotFound naming the key, the secret and the namespace |
| `Strings.TrimSuffix` | main.go:131 | when `s` ends with the suffix, the result followed by the suffix is `s`; otherwise the result is `s` |
| `Strings.TrimSuffixOfAppended` | main.go:236 | trimming a suffix that was just appended returns the original string, so only one occurrence is removed |
| `Zones.GetHostedZone` | main.go:232-254 | the lookup uses the name with one trailing dot removed; it succeeds exactly when that query answers exactly one domain, giving its id; a failed query, zero matches and several matches are DomainQueryFailed, NoMatchingDomain and TooManyDomains |
| `Zones.NormalizeDomain` | main.go:236 | the query name is the domain with its one trailing dot removed, or the domain itself when it has none |
| `Zones.TrailingDotIrrelevant` | main.go:236-250 | for a domain without a trailing dot, `d` and `d + "."` are queried under the same name, succeed together with the same zone id, and fail with the same kind of error |
| `Zones.NormalizeStripsOneDot` | main.go:236 | exactly one trailing dot is stripped: `d + "."` is looked up as `d` even when `d` ends with a dot |
| `Zones.HostedZoneUnique` | main.go:235-253 | against an account whose listing honours the exact-name filter, the lookup succeeds iff exactly one of the account's domains has the normalized name, and returns that domain's id; with no such domain it is NoMatchingDomain |
| `Zones.HostEntry` | main.go:131 | if the FQDN ends with `"." + zone`, then entry + "." + zone is the FQDN; otherwise the entry is the FQDN unchanged |
| `Zones.HostEntryOfLabel` | main.go:182 | the entry of `prefix + "." + zone` is `prefix`, even when `prefix` itself ends with `"." + zone` (one occurrence removed) |
| `Records.IsChallenge` | main.go:273 | a record belongs to the challenge when its type is "txt", its host is the entry and its data is the key |
| `Records.Matches` | main.go:271-278 | the client-side filter keeps exactly the listed records with type "txt", the entry as host and the key as data, in listing order (a subsequence) |
| `Records.ZoneRecords` | main.go:126 | the unfiltered listing of a zone holds exactly the store's records of that zone |
| `Records.WithoutIds` | main.go:189 | bulk delete keeps exactly the records whose id is not among the deleted ones |
| `Records.ChallengeRecord` | main.go:151-152 | the record Present creates is a challenge record for the entry and key, in the zone, with the given id and ttl 60 |
| `Records.AfterPresent` | main.go:133-157 | after a successful Present the challenge is published, the old records are a prefix of the new ones, and at most one record was added |
| `Records.AfterCleanUp` | main.go:182-193 | a completed CleanUp keeps, in order, exactly the records that are not (same zone, txt, entry, key) |
| `Records.PresentIdempotent` | main.go:138-141 | a second Present with the same inputs leaves the records unchanged |
| `Records.PresentedZoneNotEmpty` | main.go:126-129 | a zone holding the challenge's record has a non-empty listing, so the empty-zone failure cannot hit a Present that follows a successful one |
| `Records.PresentAddsIfMissing` | main.go:138-157 | if a matching record exists Present changes nothing; otherwise it appends exactly the record (txt, entry, key, ttl 60) with the next id |
| `Records.PresentCoexists` | main.go:138-157 | Present for k2 after Present for k1 on the same host leaves both values published |
| `Records.CleanUpSelective` | main.go:182-189 | a record with another key, host, type or zone survives CleanUp |
| `Records.CleanUpIdempotent` | main.go:182-193 | after CleanUp no matching record remains in the zone, and a second CleanUp changes nothing |
| `Records.CleanUpKeepsOtherKeys` | main.go:160-165 | a value published under the same host with another key is still published after this key's CleanUp |
| `Records.CleanUpUndoesPresent` | main.go:107-194 | starting from a zone without the challenge, Present then CleanUp restores the original record list |
| `Records.DeletingMatchesIsCleanUp` | main.go:183-189 | when ids identify records, deleting by the ids of exactly the matching records of the zone is AfterCleanUp |
| `Records.RecordStore.GetResourceRecords` | main.go:126 | the listing succeeds exactly when the provider is reachable, and is then exactly the zone's records |
| `Records.RecordStore.GetFilteredResourceRecords` | main.go:261-266 | the listing succeeds exactly when the provider is reachable; it then contains only records of the zone, and every record of the zone with the requested type and host; extra records may come back |
| `Records.RecordStore.CreateTxtRecord` | main.go:151-152 | the create succeeds exactly when the provider accepts it; then exactly one TXT record (fresh id, zone, host, data, ttl) is appended and record ids stay unique; on failure nothing changes |
| `Records.RecordStore.DeleteObjects` | main.go:188-189 | the call returns the provider's answer (true; false; false with an error); on true exactly the records with the given ids are gone, otherwise nothing changed |
| `Solver.Resolve` | main.go:109-122 | config, session and zone are resolved in that order, and the first failure is the result |
| `Solver.EntryOf` | main.go:131 | the challenge's host entry is its FQDN with `"." + zone` trimmed once (also main.go:182) |
| `Solver.FindTxtRecords` | main.go:256-279 | the provider's listing holds only records of the zone and every txt record on the entry; the result is the client-side filter of that listing, in listing order, and holds exactly the zone's records with type "txt", host == entry and data == key; it fails exactly when the listing does |
| `Solver.Present` | main.go:107-158 | a resolution failure is returned unchanged; Present succeeds exactly when the zone resolves, the zone listing answers and is not empty, findTxtRecords answers, and the record is already there or the create is accepted; each failing step has its own error and every failure leaves the store unchanged; success leaves exactly AfterPresent of the old records (so it never deletes) |
| `Solver.CleanUp` | main.go:166-194 | a resolution failure is returned unchanged and a query failure as a query error; CleanUp succeeds exactly when the zone resolves, findTxtRecords answers and the delete reports no error, so an answer of false without an error is success; the store becomes exactly AfterCleanUp of the old records when the delete answers true, and is unchanged otherwise |
| `Solver.PresentTwice` | main.go:102-106 | the first Present succeeds exactly as a single Present on the old records would, and if it fails the second succeeds exactly as a single Present would; after a successful first Present the second succeeds exactly when its two listings answer (it needs no create) and the store stays what the first left; once either succeeds the challenge is published and the store is what one successful Present leaves; if neither does the store is unchanged |
| `Solver.CleanUpTwice` | main.go:166-194 | each of two CleanUps succeeds exactly when its own listing answers and its delete reports no error; when either delete answers true the store is what one completed CleanUp leaves, otherwise it is unchanged |
| `Solver.ConcurrentChallenges` | main.go:160-165 | the first Present succeeds exactly as a single Present would, and the second exactly as a single Present on what the first left; the records in between are the old ones, AfterPresent for whichever key succeeded, or AfterPresent for the first key then the second, and in the last case both are published; CleanUp of the first then succeeds exactly as a single CleanUp would, leaves AfterCleanUp of those records when its delete answers true (the second key stays published) and leaves them unchanged otherwise |
| `Solver.AcmeChallengeScenario` | main.go:131 | for "_acme-challenge.example.com." in zone "example.com." (a zone with records) the entry is "_acme-challenge", Present adds that TXT record with ttl 60, and CleanUp restores the zone |

## Left out

- `main`, the `GROUP_NAME` check and webhook registration (main.go:26-41): process bootstrap.
- `Name` (main.go:81-83): returns a constant.
- `Initialize` and the Kubernetes clientset (main.go:205-214), and the secret `Get` call (main.go:86): the secret store is a function parameter returning the payload or a failure.
- `session.New` and the SoftLayer SDK: a session is a value pairing username and key. The domain listing is a function parameter. The record calls are `RecordStore` methods whose success is passed in as the provider's answer. The server-side filter is only trusted not to drop a match, so whether it also removes other records is left open.
- `json.Unmarshal`: an abstract decoder that returns a config or a failure reason.
- `klog` logging (main.go:87, 108, 206, 219), including the `cfgJSON.String()` call that runs before the nil check in `loadConfig`. The model follows the nil branch as written.
- Error message text and the `unable to …` wrapping that Present adds: errors are a datatype naming the failing step and what the message mentions.
- Concurrency between simultaneous Present and CleanUp calls, and the read-then-write race at the provider: each call is sequential, and the model's calls run one after another.
- Solver.CleanUp: a successful return does not mean the challenge is gone. main.go:190-191 returns success when the delete answers false without an error.
- Go strings are byte strings, while the model uses Dafny `string` (a sequence of characters) for names, keys and the suffix trimming.
- Go panics on a nil `zones[0].Id` (main.go:253, dereferenced wherever `*zone` is used: main.go:126, 133, 152 and 183) and on a nil `*r.Type`, `*r.Host` or `*r.Data` (main.go:273). The model's fields are never nil, so it cannot reach either panic.
- Records.RecordStore.DeleteObjects: `DeleteAnswer` has no case for true together with an error; main.go:190 would return that error, and the model does not say what the store then holds.
