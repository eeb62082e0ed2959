/** Locating the hosted zone of a domain (getHostedZone, main.go:232-254) and
    the record label relative to it (main.go:131, 182). */
module Zones {
  import opened Wrappers
  import opened Seqs
  import opened Strings
  import opened Errors
  import opened Credentials

  /** A SoftLayer domain (hosted zone): its id and the name it manages. */
  datatype Domain = Domain(id: int, name: string)

  /** The account's domain listing with a server-side exact-name filter:
      (session, name) to the matching domains, or the API's failure. */
  type DomainQuery = (Session, string) -> Result<seq<Domain>, string>

  /** The name a domain is looked up by: one trailing dot removed. */
  function NormalizeDomain(domain: string): (name: string)
    ensures HasSuffix(domain, ".") ==> name + "." == domain
    ensures !HasSuffix(domain, ".") ==> name == domain
  {
    TrimSuffix(domain, ".")
  }

  /** getHostedZone: zero matches and more than one match are errors,
      exactly one yields that domain's id. */
  function GetHostedZone(session: Session, domain: string, query: DomainQuery): (r: Result<int, Error>)
    ensures var answer := query(session, NormalizeDomain(domain));
      && (r.Ok? <==> answer.Ok? && |answer.value| == 1)
      && (r.Ok? ==> r.value == answer.value[0].id)
      && (answer.Err? ==> r == Err(DomainQueryFailed(answer.error)))
      && (answer.Ok? && answer.value == [] ==> r == Err(NoMatchingDomain(domain)))
      && (answer.Ok? && |answer.value| > 1 ==> r == Err(TooManyDomains(domain)))
  {
    match query(session, NormalizeDomain(domain))
    case Err(why) => Err(DomainQueryFailed(why))
    case Ok(zones) =>
      if |zones| == 0 then Err(NoMatchingDomain(domain))
      else if |zones| > 1 then Err(TooManyDomains(domain))
      else Ok(zones[0].id)
  }

  /** `d` and `d + "."` are looked up under the same name, so they resolve to
      the same zone and fail in the same way (the error names the domain as given). */
  lemma TrailingDotIrrelevant(session: Session, d: string, query: DomainQuery)
    requires !HasSuffix(d, ".")
    ensures NormalizeDomain(d + ".") == NormalizeDomain(d) == d
    ensures GetHostedZone(session, d + ".", query).Ok? <==> GetHostedZone(session, d, query).Ok?
    ensures GetHostedZone(session, d, query).Ok? ==>
              GetHostedZone(session, d + ".", query).value == GetHostedZone(session, d, query).value
    ensures GetHostedZone(session, d, query) == Err(NoMatchingDomain(d)) <==>
              GetHostedZone(session, d + ".", query) == Err(NoMatchingDomain(d + "."))
    ensures GetHostedZone(session, d, query) == Err(TooManyDomains(d)) <==>
              GetHostedZone(session, d + ".", query) == Err(TooManyDomains(d + "."))
  {
    TrimSuffixOfAppended(d, ".");
  }

  /** Only one trailing dot is removed: "example.com.." is looked up as "example.com.". */
  lemma NormalizeStripsOneDot(d: string)
    ensures NormalizeDomain(d + ".") == d
  {
    TrimSuffixOfAppended(d, ".");
  }

  /** The server-side filter `domains.name` equals `name`. */
  function NamedAs(name: string): Domain -> bool
  {
    (zone: Domain) => zone.name == name
  }

  /** An account whose API honours the exact-name filter over its domain list. */
  function AccountQuery(domains: seq<Domain>): DomainQuery
  {
    (session: Session, name: string) => Ok(Filter(domains, NamedAs(name)))
  }

  /** Zone uniqueness: against such an account, the lookup succeeds iff exactly one
      of the account's domains carries the normalized name, and yields its id;
      with no such domain it reports NoMatchingDomain. */
  lemma HostedZoneUnique(session: Session, d: string, domains: seq<Domain>)
    ensures var name := NormalizeDomain(d);
      GetHostedZone(session, d, AccountQuery(domains)).Ok? <==>
        exists i :: OnlyIndex(domains, NamedAs(name), i)
    ensures var name := NormalizeDomain(d);
      forall i :: OnlyIndex(domains, NamedAs(name), i) ==>
        GetHostedZone(session, d, AccountQuery(domains)) == Ok(domains[i].id)
    ensures (forall z :: z in domains ==> z.name != NormalizeDomain(d)) ==>
              GetHostedZone(session, d, AccountQuery(domains)) == Err(NoMatchingDomain(d))
  {
    var name := NormalizeDomain(d);
    var matching := Filter(domains, NamedAs(name));
    FilterSingleton(domains, NamedAs(name));
    if matching != [] {
      assert matching[0] in matching;
    }
  }

  /** The host entry: the FQDN with the zone suffix "." + zone removed once. */
  function HostEntry(fqdn: string, zone: string): (entry: string)
    ensures HasSuffix(fqdn, "." + zone) ==> entry + "." + zone == fqdn
    ensures !HasSuffix(fqdn, "." + zone) ==> entry == fqdn
  {
    TrimSuffix(fqdn, "." + zone)
  }

  /** Computing the entry inverts prefixing a label to the zone: only one
      suffix occurrence is removed, even from "a.example.com.example.com". */
  lemma HostEntryOfLabel(prefix: string, zone: string)
    ensures HostEntry(prefix + "." + zone, zone) == prefix
  {
    assert prefix + "." + zone == prefix + ("." + zone);
    TrimSuffixOfAppended(prefix, "." + zone);
  }
}
