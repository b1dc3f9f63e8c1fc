/**
 * The ledger: the four MongoDB collections the stages share, held in memory.
 * `domains` is `subdomains_monitor`, `pending` is `new_discovered_subdomains`,
 * `hosts` is `new_hosts_discovered` and `notifications` is `notifications`.
 * Each collection keeps its documents in insertion order.
 */
module LedgerStore {
  import opened Wrappers

  /** The enumeration tools, in the order their results are consulted. */
  datatype Tool = Subfinder | Assetfinder

  /** One subdomain of a domain record; dates are clock readings. */
  datatype SubdomainEntry = SubdomainEntry(
    name: string,
    discoveryDate: nat,
    sourceTool: Option<Tool>,
    lastSeenDate: nat)

  /** A `subdomains_monitor` document: a root domain and its subdomain history. */
  datatype DomainRecord = DomainRecord(domain: string, storageDate: nat, subdomains: seq<SubdomainEntry>)

  /** A `new_discovered_subdomains` document; an absent `subdomain` is the empty string. */
  datatype PendingSubdomain = PendingSubdomain(domain: string, subdomain: string, discoveryDate: nat)

  /** A `new_hosts_discovered` document with its two per-scanner flags. */
  datatype HostTarget = HostTarget(
    subdomain: string,
    port: int,
    discoveryDate: nat,
    acunetixScanned: bool,
    nucleiScanned: bool)

  /** A vulnerability finding as the scan stage reports it; `severity` is absent when `None`. */
  datatype Finding = Finding(
    host: string,
    vulnerabilityType: string,
    severity: Option<string>,
    description: string,
    source: string)

  /** The three notification tiers, stored as 'urgent', 'medium' and 'low'. */
  datatype Tier = UrgentTier | MediumTier | LowTier

  /** A `notifications` document. */
  datatype Notification = Notification(message: string, tier: Tier, date: nat, findings: seq<Finding>)

  /** The names recorded under a domain record. */
  function Names(r: DomainRecord): set<string> {
    set e | e in r.subdomains :: e.name
  }

  /** No name occurs twice in a domain record. */
  predicate NamesUnique(r: DomainRecord) {
    forall i, j :: 0 <= i < j < |r.subdomains| ==> r.subdomains[i].name != r.subdomains[j].name
  }

  /** No domain has two records. */
  predicate DomainsUnique(ds: seq<DomainRecord>) {
    forall i, j :: 0 <= i < j < |ds| ==> ds[i].domain != ds[j].domain
  }

  /** A host target with this `(subdomain, port)` is recorded. */
  predicate HasPair(hosts: seq<HostTarget>, subdomain: string, port: int) {
    exists k :: 0 <= k < |hosts| && hosts[k].subdomain == subdomain && hosts[k].port == port
  }

  /** No two host targets share a `(subdomain, port)` pair. */
  predicate PairsUnique(hosts: seq<HostTarget>) {
    forall i, j :: 0 <= i < j < |hosts| ==>
      hosts[i].subdomain != hosts[j].subdomain || hosts[i].port != hosts[j].port
  }

  /** What `find_one({"domain": domain})` returns: the first record for the domain. */
  function FindDomainIndex(ds: seq<DomainRecord>, domain: string): (r: Option<nat>)
    ensures r.Some? ==> r.value < |ds| && ds[r.value].domain == domain
    ensures r.Some? ==> forall j :: 0 <= j < r.value ==> ds[j].domain != domain
    ensures r.None? <==> forall j :: 0 <= j < |ds| ==> ds[j].domain != domain
  {
    if ds == [] then None
    else if ds[0].domain == domain then Some(0)
    else match FindDomainIndex(ds[1..], domain)
      case None => None
      case Some(i) => Some(i + 1)
  }

  /** The names known for a domain: those of its record, or none without one. */
  function KnownNames(ds: seq<DomainRecord>, domain: string): set<string> {
    match FindDomainIndex(ds, domain)
    case None => {}
    case Some(i) => Names(ds[i])
  }

  /**
   * What `find().sort("discovery_date", -1).limit(limit)` returns when the
   * collection's insertion order is its date order: the last `limit`
   * documents, latest first.
   */
  function NewestFirst(pending: seq<PendingSubdomain>, limit: nat): (batch: seq<PendingSubdomain>)
    ensures |batch| == if |pending| < limit then |pending| else limit
    ensures forall k :: 0 <= k < |batch| ==> batch[k] == pending[|pending| - 1 - k]
  {
    var m := if |pending| < limit then |pending| else limit;
    seq(m, k requires 0 <= k < m => pending[|pending| - 1 - k])
  }

  /** Discovery dates never decrease along the collection. */
  predicate DatesAscending(pending: seq<PendingSubdomain>) {
    forall i, j :: 0 <= i < j < |pending| ==> pending[i].discoveryDate <= pending[j].discoveryDate
  }

  /**
   * When dates ascend in insertion order, the batch is sorted newest first and
   * no document left out of it is newer than any document in it.
   */
  lemma NewestFirstIsSortedByDate(pending: seq<PendingSubdomain>, limit: nat)
    requires DatesAscending(pending)
    ensures var b := NewestFirst(pending, limit);
      && (forall i, j :: 0 <= i < j < |b| ==> b[i].discoveryDate >= b[j].discoveryDate)
      && (forall k, i :: 0 <= k < |pending| - |b| && 0 <= i < |b| ==>
            pending[k].discoveryDate <= b[i].discoveryDate)
  {
    var b := NewestFirst(pending, limit);
    forall i, j | 0 <= i < j < |b| ensures b[i].discoveryDate >= b[j].discoveryDate {
      assert b[i] == pending[|pending| - 1 - i] && b[j] == pending[|pending| - 1 - j];
    }
    forall k, i | 0 <= k < |pending| - |b| && 0 <= i < |b|
      ensures pending[k].discoveryDate <= b[i].discoveryDate
    {
      assert b[i] == pending[|pending| - 1 - i];
    }
  }

  /** The ledger itself: four collections updated in place by the stages. */
  class Ledger {
    var domains: seq<DomainRecord>
    var pending: seq<PendingSubdomain>
    var hosts: seq<HostTarget>
    var notifications: seq<Notification>

    /** The ledger's uniqueness invariants. */
    ghost predicate Valid()
      reads this
    {
      && DomainsUnique(domains)
      && (forall i :: 0 <= i < |domains| ==> NamesUnique(domains[i]))
      && PairsUnique(hosts)
    }

    /** A fresh, empty ledger. */
    constructor ()
      ensures domains == [] && pending == [] && hosts == [] && notifications == []
      ensures Valid()
    {
      domains, pending, hosts, notifications := [], [], [], [];
    }

    /** `subdomains_monitor.find_one({"domain": domain})`, as a record index. */
    method FindDomain(domain: string) returns (r: Option<nat>)
      ensures r == FindDomainIndex(domains, domain)
    {
      var i := 0;
      while i < |domains|
        invariant 0 <= i <= |domains|
        invariant forall j :: 0 <= j < i ==> domains[j].domain != domain
      {
        if domains[i].domain == domain {
          return Some(i);
        }
        i := i + 1;
      }
      return None;
    }

    /** `update_one({"domain": ...}, {"$push": {"subdomains": {"$each": entries}}})`. */
    method PushSubdomains(index: nat, entries: seq<SubdomainEntry>)
      requires index < |domains|
      modifies this
      ensures domains == old(domains)[index := old(domains)[index].(subdomains := old(domains)[index].subdomains + entries)]
      ensures pending == old(pending) && hosts == old(hosts) && notifications == old(notifications)
    {
      domains := domains[index := domains[index].(subdomains := domains[index].subdomains + entries)];
    }

    /** `subdomains_monitor.insert_one(record)`. */
    method InsertDomain(record: DomainRecord)
      modifies this
      ensures domains == old(domains) + [record]
      ensures pending == old(pending) && hosts == old(hosts) && notifications == old(notifications)
    {
      domains := domains + [record];
    }

    /** `new_discovered_subdomains.insert_one(p)`. */
    method InsertPending(p: PendingSubdomain)
      modifies this
      ensures pending == old(pending) + [p]
      ensures domains == old(domains) && hosts == old(hosts) && notifications == old(notifications)
    {
      pending := pending + [p];
    }

    /** `new_discovered_subdomains.find().sort("discovery_date", -1).limit(limit)`. */
    method RecentPending(limit: nat) returns (batch: seq<PendingSubdomain>)
      ensures batch == NewestFirst(pending, limit)
    {
      batch := [];
      var k := |pending|;
      while k > 0 && |batch| < limit
        invariant 0 <= k <= |pending|
        invariant |batch| == |pending| - k && |batch| <= limit
        invariant forall i :: 0 <= i < |batch| ==> batch[i] == pending[|pending| - 1 - i]
      {
        k := k - 1;
        batch := batch + [pending[k]];
      }
    }

    /** `new_hosts_discovered.find_one({"subdomain": ..., "port": ...})` found a document. */
    method FindHost(subdomain: string, port: int) returns (found: bool)
      ensures found == HasPair(hosts, subdomain, port)
    {
      var k := 0;
      while k < |hosts|
        invariant 0 <= k <= |hosts|
        invariant !HasPair(hosts[..k], subdomain, port)
      {
        if hosts[k].subdomain == subdomain && hosts[k].port == port {
          return true;
        }
        assert hosts[..k + 1] == hosts[..k] + [hosts[k]];
        k := k + 1;
      }
      assert hosts[..k] == hosts;
      return false;
    }

    /** `new_hosts_discovered.insert_one(h)`. */
    method InsertHost(h: HostTarget)
      modifies this
      ensures hosts == old(hosts) + [h]
      ensures domains == old(domains) && pending == old(pending) && notifications == old(notifications)
    {
      hosts := hosts + [h];
    }

    /** `notifications.insert_one(n)`. */
    method InsertNotification(n: Notification)
      modifies this
      ensures notifications == old(notifications) + [n]
      ensures domains == old(domains) && pending == old(pending) && hosts == old(hosts)
    {
      notifications := notifications + [n];
    }
  }
}
