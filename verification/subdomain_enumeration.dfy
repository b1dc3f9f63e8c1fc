/**
 * The subdomain enumeration stage (`subdomain_enumeration.run`): for every
 * target domain, run subfinder and assetfinder, union the names they report,
 * subtract the names the ledger already holds for the domain, and record only
 * the new ones, both in the domain's record and in the pending queue.
 */
module SubdomainEnumeration {
  import opened Wrappers
  import opened Text
  import opened LedgerStore

  const NoTargetsError := "No target domains specified"
  const NoToolsError := "No subdomain enumeration tools available"

  /**
   * Which tools were found on disk, and what each prints for a domain. Tool
   * output is an oracle: the same domain always yields the same run.
   */
  datatype Toolset = Toolset(
    subfinderAvailable: bool,
    assetfinderAvailable: bool,
    subfinder: string -> ToolRun,
    assetfinder: string -> ToolRun)

  /** What the stage returns: an optional error and the new subdomains. */
  datatype EnumerationResult = EnumerationResult(error: Option<string>, newSubdomains: seq<string>)

  /** The ledger collections the stage writes, and the names it found new. */
  datatype Enumerated = Enumerated(domains: seq<DomainRecord>, pending: seq<PendingSubdomain>, newNames: seq<string>)

  /** A stripped output line is kept when it is non-empty and ends in `.<domain>`. */
  predicate IsSubdomainOf(name: string, domain: string) {
    name != "" && EndsWith(name, "." + domain)
  }

  /**
   * The list comprehension over a tool's output lines: each line stripped, and
   * kept when it names a subdomain of `domain`.
   */
  function KeepSubdomains(lines: seq<string>, domain: string): (names: seq<string>)
    ensures |names| <= |lines|
    ensures forall k :: 0 <= k < |names| ==>
      Trimmed(names[k]) && IsSubdomainOf(names[k], domain) && names[k] != domain
  {
    if lines == [] then []
    else
      KeptLine(lines[0], domain);
      KeptOf(lines[0], domain) + KeepSubdomains(lines[1..], domain)
  }

  /** What the comprehension keeps of one line: its strip, or nothing. */
  function KeptOf(line: string, domain: string): seq<string> {
    if IsSubdomainOf(Strip(line), domain) then [Strip(line)] else []
  }

  /** The comprehension unfolds at the first line. */
  lemma KeepSubdomainsCons(lines: seq<string>, domain: string)
    requires lines != []
    ensures KeepSubdomains(lines, domain) == KeptOf(lines[0], domain) + KeepSubdomains(lines[1..], domain)
  {
  }

  /** The comprehension unfolds at a line put in front. */
  lemma KeepSubdomainsPrepend(line: string, tail: seq<string>, domain: string)
    ensures KeepSubdomains([line] + tail, domain) == KeptOf(line, domain) + KeepSubdomains(tail, domain)
  {
    var lines := [line] + tail;
    assert lines[0] == line && lines[1..] == tail;
    KeepSubdomainsCons(lines, domain);
  }

  /** The comprehension keeps line order: it distributes over concatenated outputs. */
  lemma {:induction false} KeepSubdomainsAppend(a: seq<string>, b: seq<string>, domain: string)
    ensures KeepSubdomains(a + b, domain) == KeepSubdomains(a, domain) + KeepSubdomains(b, domain)
  {
    if a == [] {
      assert a + b == b;
    } else {
      var line, tail := a[0], a[1..];
      assert a == [line] + tail;
      assert a + b == [line] + (tail + b);
      KeepSubdomainsPrepend(line, tail + b, domain);
      KeepSubdomainsPrepend(line, tail, domain);
      KeepSubdomainsAppend(tail, b, domain);
      Regroup(KeptOf(line, domain), KeepSubdomains(tail, domain), KeepSubdomains(b, domain));
    }
  }

  /** Every line whose strip names a subdomain of `domain` has that strip kept. */
  lemma {:induction false} KeepSubdomainsComplete(lines: seq<string>, domain: string, i: nat)
    requires i < |lines| && IsSubdomainOf(Strip(lines[i]), domain)
    ensures Strip(lines[i]) in KeepSubdomains(lines, domain)
  {
    KeepSubdomainsCons(lines, domain);
    if i > 0 {
      assert lines[1..][i - 1] == lines[i];
      KeepSubdomainsComplete(lines[1..], domain, i - 1);
    }
  }

  /** Every kept name is the strip of some line, and names a subdomain of `domain`. */
  lemma {:induction false} KeepSubdomainsSound(lines: seq<string>, domain: string, name: string)
    requires name in KeepSubdomains(lines, domain)
    ensures exists i :: 0 <= i < |lines| && name == Strip(lines[i]) && IsSubdomainOf(name, domain)
  {
    KeepSubdomainsCons(lines, domain);
    var tail := lines[1..];
    if name in KeptOf(lines[0], domain) {
      assert name == Strip(lines[0]) && IsSubdomainOf(name, domain);
    } else {
      assert name in KeepSubdomains(tail, domain);
      KeepSubdomainsSound(tail, domain, name);
      var i :| 0 <= i < |tail| && name == Strip(tail[i]) && IsSubdomainOf(name, domain);
      assert tail[i] == lines[i + 1];
    }
  }

  /**
   * The comprehension keeps exactly the stripped lines that name subdomains of
   * `domain`: every such line's strip is kept, and nothing else is.
   */
  lemma KeepSubdomainsExact(lines: seq<string>, domain: string)
    ensures forall name :: name in KeepSubdomains(lines, domain) <==>
      exists i :: 0 <= i < |lines| && name == Strip(lines[i]) && IsSubdomainOf(name, domain)
  {
    forall name | name in KeepSubdomains(lines, domain)
      ensures exists i :: 0 <= i < |lines| && name == Strip(lines[i]) && IsSubdomainOf(name, domain)
    {
      KeepSubdomainsSound(lines, domain, name);
    }
    forall i | 0 <= i < |lines| && IsSubdomainOf(Strip(lines[i]), domain)
      ensures Strip(lines[i]) in KeepSubdomains(lines, domain)
    {
      KeepSubdomainsComplete(lines, domain, i);
    }
  }

  /** A kept line is never the bare domain. */
  lemma KeptLine(line: string, domain: string)
    ensures IsSubdomainOf(Strip(line), domain) ==> Strip(line) != domain
  {
  }

  /**
   * The names one tool contributes for `domain`: none when the tool is not
   * available, when its run fails or when it prints nothing.
   */
  function ToolNames(available: bool, run: ToolRun, domain: string): seq<string> {
    if !available then []
    else match run
      case Failed => []
      case Output(text) => if text == "" then [] else KeepSubdomains(Split(text, '\n'), domain)
  }

  /** Every name both tools reported for `domain`, as a set. */
  function Candidates(tools: Toolset, domain: string): set<string> {
    UnionOf(ToolNames(tools.subfinderAvailable, tools.subfinder(domain), domain),
            ToolNames(tools.assetfinderAvailable, tools.assetfinder(domain), domain))
  }

  /** `run` printed a line whose strip is `name`, a subdomain of `domain`. */
  predicate Printed(run: ToolRun, domain: string, name: string) {
    && run.Output?
    && var lines := Split(run.text, '\n');
    && exists i :: 0 <= i < |lines| && name == Strip(lines[i]) && IsSubdomainOf(name, domain)
  }

  /** A name a tool contributes was printed by that tool. */
  lemma ToolNamePrinted(available: bool, run: ToolRun, domain: string, name: string)
    requires name in ToolNames(available, run, domain)
    ensures available && Printed(run, domain, name)
  {
    KeepSubdomainsSound(Split(run.text, '\n'), domain, name);
  }

  /** Every candidate was printed by an available tool: no name is invented. */
  lemma CandidatePrinted(tools: Toolset, domain: string, name: string)
    requires name in Candidates(tools, domain)
    ensures || (tools.subfinderAvailable && Printed(tools.subfinder(domain), domain, name))
            || (tools.assetfinderAvailable && Printed(tools.assetfinder(domain), domain, name))
  {
    var sub := ToolNames(tools.subfinderAvailable, tools.subfinder(domain), domain);
    if name in sub {
      ToolNamePrinted(tools.subfinderAvailable, tools.subfinder(domain), domain, name);
    } else {
      ToolNamePrinted(tools.assetfinderAvailable, tools.assetfinder(domain), domain, name);
    }
  }

  /**
   * The set difference `all_subdomains - existing_subdomains`, listed once
   * each in order of first occurrence among `candidates`.
   */
  function NewNames(candidates: seq<string>, known: set<string>): (r: seq<string>)
    ensures forall n :: n in r <==> n in candidates && n !in known
    ensures Distinct(r)
    ensures (forall n :: n in candidates ==> n in known) ==> r == []
  {
    if candidates == [] then []
    else if candidates[0] in known then NewNames(candidates[1..], known)
    else [candidates[0]] + NewNames(candidates[1..], known + {candidates[0]})
  }

  /**
   * The `source_tool` of a new name: the first tool, subfinder then
   * assetfinder, whose list holds it; `None` only for a name neither reported.
   */
  function SourceTool(name: string, subfinderNames: seq<string>, assetfinderNames: seq<string>): (t: Option<Tool>)
    ensures t == Some(Subfinder) <==> name in subfinderNames
    ensures t == Some(Assetfinder) <==> name !in subfinderNames && name in assetfinderNames
    ensures t == None <==> name !in subfinderNames + assetfinderNames
  {
    if name in subfinderNames then Some(Subfinder)
    else if name in assetfinderNames then Some(Assetfinder)
    else None
  }

  /** The subdomain entries written for `names`. */
  function EntriesFor(names: seq<string>, sub: seq<string>, asset: seq<string>, now: nat): (es: seq<SubdomainEntry>)
    ensures |es| == |names|
    ensures forall k :: 0 <= k < |es| ==> es[k] == SubdomainEntry(names[k], now, SourceTool(names[k], sub, asset), now)
  {
    seq(|names|, k requires 0 <= k < |names| => SubdomainEntry(names[k], now, SourceTool(names[k], sub, asset), now))
  }

  /** The pending documents enqueued for `names`. */
  function PendingFor(domain: string, names: seq<string>, now: nat): (ps: seq<PendingSubdomain>)
    ensures |ps| == |names|
    ensures forall k :: 0 <= k < |ps| ==> ps[k] == PendingSubdomain(domain, names[k], now)
  {
    seq(|names|, k requires 0 <= k < |names| => PendingSubdomain(domain, names[k], now))
  }

  /** The names a domain record holds once `entries` are pushed onto it. */
  lemma NamesAfterPush(r: DomainRecord, names: seq<string>, sub: seq<string>, asset: seq<string>, now: nat)
    ensures Names(r.(subdomains := r.subdomains + EntriesFor(names, sub, asset, now)))
         == Names(r) + (set n | n in names)
  {
    var es := EntriesFor(names, sub, asset, now);
    var r' := r.(subdomains := r.subdomains + es);
    forall n | n in Names(r') ensures n in Names(r) + (set n | n in names) {
      var e :| e in r'.subdomains && e.name == n;
      if e !in r.subdomains {
        var k :| 0 <= k < |es| && es[k] == e;
      }
    }
    forall n | n in Names(r) + (set n | n in names) ensures n in Names(r') {
      if n !in Names(r) {
        var k :| 0 <= k < |names| && names[k] == n;
        assert es[k] in r'.subdomains;
      } else {
        var e :| e in r.subdomains && e.name == n;
        assert e in r'.subdomains;
      }
    }
  }

  /**
   * One iteration of the per-domain loop, on the ledger collections it reads
   * and writes: look the domain up, diff, then append and enqueue.
   */
  function EnumerateDomain(
    domains: seq<DomainRecord>, pending: seq<PendingSubdomain>,
    domain: string, sub: seq<string>, asset: seq<string>, now: nat): (r: Enumerated)
    ensures forall n :: n in r.newNames <==> (n in sub || n in asset) && n !in KnownNames(domains, domain)
    ensures Distinct(r.newNames)
    ensures r.pending == pending + PendingFor(domain, r.newNames, now)
    ensures r.newNames == [] && FindDomainIndex(domains, domain).Some? ==> r.domains == domains
  {
    match FindDomainIndex(domains, domain)
    case Some(i) =>
      var added := NewNames(sub + asset, Names(domains[i]));
      if added == [] then Enumerated(domains, pending, [])
      else
        var record := domains[i].(subdomains := domains[i].subdomains + EntriesFor(added, sub, asset, now));
        Enumerated(domains[i := record], pending + PendingFor(domain, added, now), added)
    case None =>
      var added := NewNames(sub + asset, {});
      var record := DomainRecord(domain, now, EntriesFor(added, sub, asset, now));
      Enumerated(domains + [record], pending + PendingFor(domain, added, now), added)
  }

  /** The stage's loop over the target domains, in order. */
  function EnumerateAll(
    domains: seq<DomainRecord>, pending: seq<PendingSubdomain>,
    targets: seq<string>, tools: Toolset, now: nat): Enumerated
  {
    if targets == [] then Enumerated(domains, pending, [])
    else
      var prev := EnumerateAll(domains, pending, targets[..|targets| - 1], tools, now);
      var domain := targets[|targets| - 1];
      var sub := ToolNames(tools.subfinderAvailable, tools.subfinder(domain), domain);
      var asset := ToolNames(tools.assetfinderAvailable, tools.assetfinder(domain), domain);
      var step := EnumerateDomain(prev.domains, prev.pending, domain, sub, asset, now);
      Enumerated(step.domains, step.pending, prev.newNames + step.newNames)
  }

  /** One more target extends a run by that target's step. */
  lemma EnumerateAllExtend(
    domains: seq<DomainRecord>, pending: seq<PendingSubdomain>,
    targets: seq<string>, i: nat, tools: Toolset, now: nat)
    requires i < |targets|
    ensures var prev := EnumerateAll(domains, pending, targets[..i], tools, now);
      var domain := targets[i];
      var step := EnumerateDomain(prev.domains, prev.pending, domain,
        ToolNames(tools.subfinderAvailable, tools.subfinder(domain), domain),
        ToolNames(tools.assetfinderAvailable, tools.assetfinder(domain), domain), now);
      EnumerateAll(domains, pending, targets[..i + 1], tools, now)
        == Enumerated(step.domains, step.pending, prev.newNames + step.newNames)
  {
    assert targets[..i + 1][..i] == targets[..i];
  }

  /** Replacing a record by one for the same domain does not move any lookup. */
  lemma {:induction false} FindAfterReplace(ds: seq<DomainRecord>, i: nat, x: DomainRecord, d: string)
    requires i < |ds| && x.domain == ds[i].domain
    ensures FindDomainIndex(ds[i := x], d) == FindDomainIndex(ds, d)
  {
    if ds[0].domain != d {
      if i == 0 {
        assert ds[i := x][1..] == ds[1..];
      } else {
        assert ds[i := x][1..] == ds[1..][i - 1 := x];
        FindAfterReplace(ds[1..], i - 1, x, d);
      }
    }
  }

  /** Appending a record finds it only for its own, previously unrecorded domain. */
  lemma {:induction false} FindAfterAppend(ds: seq<DomainRecord>, x: DomainRecord, d: string)
    ensures FindDomainIndex(ds + [x], d) ==
      if FindDomainIndex(ds, d).Some? then FindDomainIndex(ds, d)
      else if x.domain == d then Some(|ds|) else None
  {
    if ds == [] {
      assert [] + [x] == [x] && [x][1..] == [];
    } else if ds[0].domain != d {
      assert (ds + [x])[1..] == ds[1..] + [x];
      FindAfterAppend(ds[1..], x, d);
    }
  }

  /** The set of names two tool lists hold between them. */
  function UnionOf(sub: seq<string>, asset: seq<string>): set<string> {
    (set n | n in sub) + (set n | n in asset)
  }

  /** Processing a domain that has a record adds the candidates to it and touches no other record. */
  lemma KnownNamesAfterUpdate(
    domains: seq<DomainRecord>, pending: seq<PendingSubdomain>,
    domain: string, sub: seq<string>, asset: seq<string>, now: nat, d: string)
    requires FindDomainIndex(domains, domain).Some?
    ensures var r := EnumerateDomain(domains, pending, domain, sub, asset, now);
      && FindDomainIndex(r.domains, d) == FindDomainIndex(domains, d)
      && KnownNames(r.domains, d) == KnownNames(domains, d) + (if d == domain then UnionOf(sub, asset) else {})
  {
    var i := FindDomainIndex(domains, domain).value;
    var added := NewNames(sub + asset, Names(domains[i]));
    if added != [] {
      var record := domains[i].(subdomains := domains[i].subdomains + EntriesFor(added, sub, asset, now));
      FindAfterReplace(domains, i, record, d);
      if d == domain {
        NamesAfterPush(domains[i], added, sub, asset, now);
        UnionIsKnownAfterPush(domains[i], added, Names(domains[i]), sub, asset, now);
      } else if FindDomainIndex(domains, d).Some? {
        assert FindDomainIndex(domains, d).value != i;
      }
    } else if d == domain {
      forall n | n in UnionOf(sub, asset) ensures n in Names(domains[i]) {
        assert n in sub + asset;
      }
    }
  }

  /** After the new names are pushed, the record knows every reported name. */
  lemma UnionIsKnownAfterPush(
    r: DomainRecord, added: seq<string>, known: set<string>,
    sub: seq<string>, asset: seq<string>, now: nat)
    requires added == NewNames(sub + asset, known) && known == Names(r)
    requires Names(r.(subdomains := r.subdomains + EntriesFor(added, sub, asset, now))) == Names(r) + (set n | n in added)
    ensures Names(r.(subdomains := r.subdomains + EntriesFor(added, sub, asset, now))) == Names(r) + UnionOf(sub, asset)
  {
    forall n | n in UnionOf(sub, asset) ensures n in Names(r) + (set n | n in added) {
      assert n in sub + asset;
    }
  }

  /** Processing a domain without a record creates one holding exactly the candidates. */
  lemma KnownNamesAfterInsert(
    domains: seq<DomainRecord>, pending: seq<PendingSubdomain>,
    domain: string, sub: seq<string>, asset: seq<string>, now: nat, d: string)
    requires FindDomainIndex(domains, domain).None?
    ensures var r := EnumerateDomain(domains, pending, domain, sub, asset, now);
      && (FindDomainIndex(domains, d).Some? || d == domain ==> FindDomainIndex(r.domains, d).Some?)
      && KnownNames(r.domains, d) == KnownNames(domains, d) + (if d == domain then UnionOf(sub, asset) else {})
  {
    var added := NewNames(sub + asset, {});
    var record := DomainRecord(domain, now, EntriesFor(added, sub, asset, now));
    FindAfterAppend(domains, record, d);
    if d == domain {
      NamesAfterPush(DomainRecord(domain, now, []), added, sub, asset, now);
      assert record == DomainRecord(domain, now, []).(subdomains := [] + EntriesFor(added, sub, asset, now));
      forall n | n in UnionOf(sub, asset) ensures n in (set n | n in added) {
        assert n in sub + asset;
      }
    }
  }

  /**
   * After one domain is processed, it has a record holding every candidate
   * name; every other domain's known names are untouched, and no domain loses
   * its record or a known name.
   */
  lemma EnumerateDomainKnownNames(
    domains: seq<DomainRecord>, pending: seq<PendingSubdomain>,
    domain: string, sub: seq<string>, asset: seq<string>, now: nat, d: string)
    ensures var r := EnumerateDomain(domains, pending, domain, sub, asset, now);
      && (FindDomainIndex(domains, d).Some? || d == domain ==> FindDomainIndex(r.domains, d).Some?)
      && KnownNames(r.domains, d) == KnownNames(domains, d) + (if d == domain then UnionOf(sub, asset) else {})
  {
    if FindDomainIndex(domains, domain).Some? {
      KnownNamesAfterUpdate(domains, pending, domain, sub, asset, now, d);
    } else {
      KnownNamesAfterInsert(domains, pending, domain, sub, asset, now, d);
    }
  }

  /** The ledger's uniqueness invariants on domain records. */
  predicate DomainsValid(ds: seq<DomainRecord>) {
    DomainsUnique(ds) && forall i :: 0 <= i < |ds| ==> NamesUnique(ds[i])
  }

  /** Pushing new, distinct names keeps a record's names unique. */
  lemma PushKeepsNamesUnique(r: DomainRecord, added: seq<string>, sub: seq<string>, asset: seq<string>, now: nat)
    requires NamesUnique(r) && Distinct(added)
    requires forall n :: n in added ==> n !in Names(r)
    ensures NamesUnique(r.(subdomains := r.subdomains + EntriesFor(added, sub, asset, now)))
  {
    var es := EntriesFor(added, sub, asset, now);
    var all := r.subdomains + es;
    forall i, j | 0 <= i < j < |all| ensures all[i].name != all[j].name {
      if j >= |r.subdomains| {
        assert all[j] == es[j - |r.subdomains|];
        if i < |r.subdomains| {
          assert all[i] in r.subdomains;
          assert all[i].name in Names(r);
        } else {
          assert all[i] == es[i - |r.subdomains|];
        }
      }
    }
  }

  /** One domain's processing keeps names unique per record and one record per domain. */
  lemma EnumerateDomainKeepsValid(
    domains: seq<DomainRecord>, pending: seq<PendingSubdomain>,
    domain: string, sub: seq<string>, asset: seq<string>, now: nat)
    requires DomainsValid(domains)
    ensures DomainsValid(EnumerateDomain(domains, pending, domain, sub, asset, now).domains)
  {
    match FindDomainIndex(domains, domain)
    case Some(i) =>
      var added := NewNames(sub + asset, Names(domains[i]));
      if added != [] {
        PushKeepsNamesUnique(domains[i], added, sub, asset, now);
        ReplaceKeepsValid(domains, i, domains[i].(subdomains := domains[i].subdomains + EntriesFor(added, sub, asset, now)));
      }
    case None =>
      var added := NewNames(sub + asset, {});
      var record := DomainRecord(domain, now, EntriesFor(added, sub, asset, now));
      PushKeepsNamesUnique(DomainRecord(domain, now, []), added, sub, asset, now);
      assert record == DomainRecord(domain, now, []).(subdomains := [] + EntriesFor(added, sub, asset, now));
      AppendKeepsValid(domains, record);
  }

  /** Replacing a record by one for the same domain with unique names keeps the ledger valid. */
  lemma ReplaceKeepsValid(ds: seq<DomainRecord>, i: nat, x: DomainRecord)
    requires DomainsValid(ds) && i < |ds| && x.domain == ds[i].domain && NamesUnique(x)
    ensures DomainsValid(ds[i := x])
  {
    var ds' := ds[i := x];
    forall j, k | 0 <= j < k < |ds'| ensures ds'[j].domain != ds'[k].domain {
      assert ds'[j].domain == ds[j].domain && ds'[k].domain == ds[k].domain;
    }
  }

  /** Appending a record for a domain without one, with unique names, keeps the ledger valid. */
  lemma AppendKeepsValid(ds: seq<DomainRecord>, x: DomainRecord)
    requires DomainsValid(ds) && FindDomainIndex(ds, x.domain).None? && NamesUnique(x)
    ensures DomainsValid(ds + [x])
  {
    var ds' := ds + [x];
    forall j, k | 0 <= j < k < |ds'| ensures ds'[j].domain != ds'[k].domain {
      if k == |ds| {
        assert ds'[j] == ds[j];
      } else {
        assert ds'[j] == ds[j] && ds'[k] == ds[k];
      }
    }
    forall j | 0 <= j < |ds'| ensures NamesUnique(ds'[j]) {
      if j < |ds| {
        assert ds'[j] == ds[j];
      }
    }
  }

  /** Invariant: any number of runs keeps subdomain names unique per domain record. */
  lemma {:induction false} EnumerateAllKeepsValid(
    domains: seq<DomainRecord>, pending: seq<PendingSubdomain>,
    targets: seq<string>, tools: Toolset, now: nat)
    requires DomainsValid(domains)
    ensures DomainsValid(EnumerateAll(domains, pending, targets, tools, now).domains)
  {
    if targets != [] {
      var prev := EnumerateAll(domains, pending, targets[..|targets| - 1], tools, now);
      EnumerateAllKeepsValid(domains, pending, targets[..|targets| - 1], tools, now);
      var domain := targets[|targets| - 1];
      EnumerateDomainKeepsValid(prev.domains, prev.pending, domain,
        ToolNames(tools.subfinderAvailable, tools.subfinder(domain), domain),
        ToolNames(tools.assetfinderAvailable, tools.assetfinder(domain), domain), now);
    }
  }

  /** A domain has a record that already holds every name its tools report. */
  predicate Covered(ds: seq<DomainRecord>, domain: string, tools: Toolset) {
    FindDomainIndex(ds, domain).Some? && Candidates(tools, domain) <= KnownNames(ds, domain)
  }

  /** After a run, every target domain is covered by the ledger. */
  lemma {:induction false} EnumerateAllCovers(
    domains: seq<DomainRecord>, pending: seq<PendingSubdomain>,
    targets: seq<string>, tools: Toolset, now: nat)
    ensures forall t :: t in targets ==> Covered(EnumerateAll(domains, pending, targets, tools, now).domains, t, tools)
  {
    if targets != [] {
      var front := targets[..|targets| - 1];
      var prev := EnumerateAll(domains, pending, front, tools, now);
      EnumerateAllCovers(domains, pending, front, tools, now);
      var domain := targets[|targets| - 1];
      var sub := ToolNames(tools.subfinderAvailable, tools.subfinder(domain), domain);
      var asset := ToolNames(tools.assetfinderAvailable, tools.assetfinder(domain), domain);
      var r := EnumerateAll(domains, pending, targets, tools, now);
      forall t | t in targets ensures Covered(r.domains, t, tools) {
        EnumerateDomainKnownNames(prev.domains, prev.pending, domain, sub, asset, now, t);
        if t != domain {
          assert t in front by {
            var k :| 0 <= k < |targets| && targets[k] == t;
            assert k < |targets| - 1 && front[k] == t;
          }
        }
      }
    }
  }

  /** Processing a covered domain finds nothing new and changes nothing. */
  lemma EnumerateDomainOverCovered(
    domains: seq<DomainRecord>, pending: seq<PendingSubdomain>,
    domain: string, sub: seq<string>, asset: seq<string>, now: nat)
    requires FindDomainIndex(domains, domain).Some?
    requires UnionOf(sub, asset) <= KnownNames(domains, domain)
    ensures EnumerateDomain(domains, pending, domain, sub, asset, now) == Enumerated(domains, pending, [])
  {
    forall n | n in sub + asset ensures n in KnownNames(domains, domain) {
      assert n in UnionOf(sub, asset);
    }
  }

  /** A run over covered domains finds nothing new and leaves the ledger as it was. */
  lemma {:induction false} EnumerateAllOverCovered(
    domains: seq<DomainRecord>, pending: seq<PendingSubdomain>,
    targets: seq<string>, tools: Toolset, now: nat)
    requires forall t :: t in targets ==> Covered(domains, t, tools)
    ensures EnumerateAll(domains, pending, targets, tools, now) == Enumerated(domains, pending, [])
  {
    if targets != [] {
      var front := targets[..|targets| - 1];
      assert forall t :: t in front ==> t in targets;
      EnumerateAllOverCovered(domains, pending, front, tools, now);
      var domain := targets[|targets| - 1];
      assert Covered(domains, domain, tools);
      EnumerateDomainOverCovered(domains, pending, domain,
        ToolNames(tools.subfinderAvailable, tools.subfinder(domain), domain),
        ToolNames(tools.assetfinderAvailable, tools.assetfinder(domain), domain), now);
    }
  }

  /**
   * Idempotence: a second run with the same tool outputs adds nothing to the
   * ledger and reports no new subdomain.
   */
  lemma SecondRunAddsNothing(
    domains: seq<DomainRecord>, pending: seq<PendingSubdomain>,
    targets: seq<string>, tools: Toolset, now: nat, later: nat)
    ensures var first := EnumerateAll(domains, pending, targets, tools, now);
      EnumerateAll(first.domains, first.pending, targets, tools, later) == Enumerated(first.domains, first.pending, [])
  {
    var first := EnumerateAll(domains, pending, targets, tools, now);
    EnumerateAllCovers(domains, pending, targets, tools, now);
    EnumerateAllOverCovered(first.domains, first.pending, targets, tools, later);
  }

  /**
   * A domain without a record gets one new record, appended after the others,
   * holding exactly the names the tools reported.
   */
  lemma FirstSightOfDomain(
    domains: seq<DomainRecord>, pending: seq<PendingSubdomain>,
    domain: string, sub: seq<string>, asset: seq<string>, now: nat)
    requires FindDomainIndex(domains, domain).None?
    ensures var r := EnumerateDomain(domains, pending, domain, sub, asset, now);
      && |r.domains| == |domains| + 1 && r.domains[..|domains|] == domains
      && r.domains[|domains|].domain == domain
      && Names(r.domains[|domains|]) == UnionOf(sub, asset)
  {
    var r := EnumerateDomain(domains, pending, domain, sub, asset, now);
    var added := NewNames(sub + asset, {});
    var record := DomainRecord(domain, now, EntriesFor(added, sub, asset, now));
    assert r.domains == domains + [record] && r.newNames == added;
    assert (domains + [record])[..|domains|] == domains;
    NamesAfterPush(DomainRecord(domain, now, []), added, sub, asset, now);
    assert record == DomainRecord(domain, now, []).(subdomains := [] + EntriesFor(added, sub, asset, now));
    FirstSightReportsAll(domains, pending, domain, sub, asset, now);
  }

  /**
   * The domain records after one iteration: an existing record gains the new
   * names' entries through `$push $each` (and is left alone when nothing is
   * new); a first-seen domain gets one appended record holding them.
   */
  lemma EnumerateDomainRecords(
    domains: seq<DomainRecord>, pending: seq<PendingSubdomain>,
    domain: string, sub: seq<string>, asset: seq<string>, now: nat)
    ensures var r := EnumerateDomain(domains, pending, domain, sub, asset, now);
      var es := EntriesFor(r.newNames, sub, asset, now);
      match FindDomainIndex(domains, domain)
      case Some(i) =>
        r.domains == if r.newNames == [] then domains
                     else domains[i := domains[i].(subdomains := domains[i].subdomains + es)]
      case None =>
        r.domains == domains + [DomainRecord(domain, now, es)]
  {
  }

  /**
   * Every entry the domain's record gains in one iteration is one of the new
   * names' entries and is credited to a tool: `source_tool` is never `None`.
   */
  lemma NewEntriesAttributed(
    domains: seq<DomainRecord>, pending: seq<PendingSubdomain>,
    domain: string, sub: seq<string>, asset: seq<string>, now: nat)
    ensures var r := EnumerateDomain(domains, pending, domain, sub, asset, now);
      var before := match FindDomainIndex(domains, domain)
        case Some(i) => domains[i].subdomains
        case None => [];
      && FindDomainIndex(r.domains, domain).Some?
      && var rec := r.domains[FindDomainIndex(r.domains, domain).value];
      && rec.subdomains == before + EntriesFor(r.newNames, sub, asset, now)
      && forall k :: |before| <= k < |rec.subdomains| ==> rec.subdomains[k].sourceTool.Some?
  {
    var r := EnumerateDomain(domains, pending, domain, sub, asset, now);
    var es := EntriesFor(r.newNames, sub, asset, now);
    EnumerateDomainRecords(domains, pending, domain, sub, asset, now);
    EntriesAttributed(r.newNames, sub, asset, now);
    match FindDomainIndex(domains, domain)
    case Some(i) =>
      if r.newNames != [] {
        FindAfterReplace(domains, i, domains[i].(subdomains := domains[i].subdomains + es), domain);
      } else {
        assert domains[i].subdomains + es == domains[i].subdomains;
      }
    case None =>
      FindAfterAppend(domains, DomainRecord(domain, now, es), domain);
  }

  /** Every entry written for names the tools reported is credited to a tool. */
  lemma EntriesAttributed(names: seq<string>, sub: seq<string>, asset: seq<string>, now: nat)
    requires forall n :: n in names ==> n in sub + asset
    ensures forall e :: e in EntriesFor(names, sub, asset, now) ==> e.sourceTool.Some?
  {
    var es := EntriesFor(names, sub, asset, now);
    forall e | e in es ensures e.sourceTool.Some? {
      var k :| 0 <= k < |es| && es[k] == e;
      assert names[k] in names;
    }
  }

  /**
   * For a domain without a record, every reported name is new and enqueued,
   * so a non-empty union gives a non-empty result.
   */
  lemma FirstSightReportsAll(
    domains: seq<DomainRecord>, pending: seq<PendingSubdomain>,
    domain: string, sub: seq<string>, asset: seq<string>, now: nat)
    requires FindDomainIndex(domains, domain).None?
    ensures var r := EnumerateDomain(domains, pending, domain, sub, asset, now);
      && (set n | n in r.newNames) == UnionOf(sub, asset)
      && (sub + asset != [] ==> r.newNames != [])
  {
    var r := EnumerateDomain(domains, pending, domain, sub, asset, now);
    forall n | n in UnionOf(sub, asset) ensures n in r.newNames {
      assert n in sub + asset;
    }
    if sub + asset != [] {
      assert (sub + asset)[0] in r.newNames;
    }
  }

  /** Output lines that are already bare subdomain names are all kept, unchanged. */
  lemma {:induction false} WellFormedLinesKept(lines: seq<string>, domain: string)
    requires forall k :: 0 <= k < |lines| ==> NoSpace(lines[k]) && IsSubdomainOf(lines[k], domain)
    ensures KeepSubdomains(lines, domain) == lines
  {
    if lines != [] {
      StripOfNoSpace(lines[0]);
      WellFormedLinesKept(lines[1..], domain);
    }
  }

  /** Output holding two separator-free lines splits into exactly those lines. */
  lemma TwoLinesSplit(a: string, b: string)
    requires '\n' !in a && '\n' !in b
    ensures Split(a + "\n" + b, '\n') == [a, b]
  {
    SplitAtFirst(a, b, '\n');
    SplitNoSeparator(b, '\n');
  }

  /** Two well-formed output lines are both kept, in order. */
  lemma TwoLinesKept(a: string, b: string, domain: string)
    requires NoSpace(a) && NoSpace(b) && '\n' !in a && '\n' !in b
    requires IsSubdomainOf(a, domain) && IsSubdomainOf(b, domain)
    ensures KeepSubdomains(Split(a + "\n" + b, '\n'), domain) == [a, b]
  {
    TwoLinesSplit(a, b);
    var lines := [a, b];
    assert lines[0] == a && lines[1] == b;
    WellFormedLinesKept(lines, domain);
  }

  /**
   * The scenario of the stage's own test, for any three distinct well-formed
   * names: no record yet, subfinder prints sub1 and sub2, assetfinder prints
   * sub2 and sub3. All three are new, in that order, one record holds them,
   * sub2 is credited to subfinder, and three pending documents are written.
   */
  lemma TwoToolsScenario(s1: string, s2: string, s3: string, domain: string, now: nat)
    requires Distinct([s1, s2, s3])
    requires forall s :: s in [s1, s2, s3] ==> NoSpace(s) && '\n' !in s && IsSubdomainOf(s, domain)
    ensures var sub := KeepSubdomains(Split(s1 + "\n" + s2, '\n'), domain);
      var asset := KeepSubdomains(Split(s2 + "\n" + s3, '\n'), domain);
      var r := EnumerateDomain([], [], domain, sub, asset, now);
      && r.newNames == [s1, s2, s3]
      && r.domains == [DomainRecord(domain, now, [
           SubdomainEntry(s1, now, Some(Subfinder), now),
           SubdomainEntry(s2, now, Some(Subfinder), now),
           SubdomainEntry(s3, now, Some(Assetfinder), now)])]
      && r.pending == [PendingSubdomain(domain, s1, now), PendingSubdomain(domain, s2, now),
                       PendingSubdomain(domain, s3, now)]
  {
    assert s1 in [s1, s2, s3] && s2 in [s1, s2, s3] && s3 in [s1, s2, s3];
    TwoLinesKept(s1, s2, domain);
    TwoLinesKept(s2, s3, domain);
    ScenarioStep(s1, s2, s3, domain, now);
  }

  /** The scenario once both outputs are parsed. */
  lemma ScenarioStep(s1: string, s2: string, s3: string, domain: string, now: nat)
    requires Distinct([s1, s2, s3])
    ensures var r := EnumerateDomain([], [], domain, [s1, s2], [s2, s3], now);
      && r.newNames == [s1, s2, s3]
      && r.domains == [DomainRecord(domain, now, [
           SubdomainEntry(s1, now, Some(Subfinder), now),
           SubdomainEntry(s2, now, Some(Subfinder), now),
           SubdomainEntry(s3, now, Some(Assetfinder), now)])]
      && r.pending == [PendingSubdomain(domain, s1, now), PendingSubdomain(domain, s2, now),
                       PendingSubdomain(domain, s3, now)]
  {
    var ss := [s1, s2, s3];
    assert s1 == ss[0] && s2 == ss[1] && s3 == ss[2];
    ScenarioNames(s1, s2, s3);
    assert s3 !in [s1, s2];
    var es := EntriesFor([s1, s2, s3], [s1, s2], [s2, s3], now);
    assert es == [SubdomainEntry(s1, now, Some(Subfinder), now),
                  SubdomainEntry(s2, now, Some(Subfinder), now),
                  SubdomainEntry(s3, now, Some(Assetfinder), now)];
  }

  /** The set difference of the scenario: three distinct names, sub2 reported twice. */
  lemma ScenarioNames(s1: string, s2: string, s3: string)
    requires Distinct([s1, s2, s3])
    ensures NewNames([s1, s2] + [s2, s3], {}) == [s1, s2, s3]
  {
    var ss := [s1, s2, s3];
    assert s1 == ss[0] && s2 == ss[1] && s3 == ss[2];
    assert [s1, s2] + [s2, s3] == [s1, s2, s2, s3];
    assert NewNames([s3], {s1, s2}) == [s3];
    assert NewNames([s2, s3], {s1, s2}) == [s3];
    assert {s1} + {s2} == {s1, s2};
    assert NewNames([s2, s2, s3], {s1}) == [s2, s3];
    assert {} + {s1} == {s1};
  }

  /** The entries for new names, built one by one as the source's loop does. */
  method BuildEntries(names: seq<string>, sub: seq<string>, asset: seq<string>, now: nat)
    returns (records: seq<SubdomainEntry>)
    ensures records == EntriesFor(names, sub, asset, now)
  {
    records := [];
    for k := 0 to |names|
      invariant records == EntriesFor(names[..k], sub, asset, now)
    {
      records := records + [SubdomainEntry(names[k], now, SourceTool(names[k], sub, asset), now)];
    }
    assert names[..|names|] == names;
  }

  /** `new_discovered_subdomains.insert_one` once per new name, in order. */
  method EnqueueAll(ledger: Ledger, domain: string, names: seq<string>, now: nat)
    modifies ledger
    ensures ledger.pending == old(ledger.pending) + PendingFor(domain, names, now)
    ensures ledger.domains == old(ledger.domains) && ledger.hosts == old(ledger.hosts)
    ensures ledger.notifications == old(ledger.notifications)
  {
    for k := 0 to |names|
      invariant ledger.pending == old(ledger.pending) + PendingFor(domain, names[..k], now)
      invariant ledger.domains == old(ledger.domains) && ledger.hosts == old(ledger.hosts)
      invariant ledger.notifications == old(ledger.notifications)
    {
      ledger.InsertPending(PendingSubdomain(domain, names[k], now));
    }
    assert names[..|names|] == names;
  }

  /** The body of the per-domain loop, from the record lookup to the enqueueing. */
  method ProcessDomain(ledger: Ledger, domain: string, sub: seq<string>, asset: seq<string>, now: nat)
    returns (added: seq<string>)
    modifies ledger
    ensures var r := EnumerateDomain(old(ledger.domains), old(ledger.pending), domain, sub, asset, now);
      ledger.domains == r.domains && ledger.pending == r.pending && added == r.newNames
    ensures ledger.hosts == old(ledger.hosts) && ledger.notifications == old(ledger.notifications)
  {
    var found := ledger.FindDomain(domain);
    match found {
      case Some(i) =>
        added := NewNames(sub + asset, Names(ledger.domains[i]));
        if added != [] {
          var records := BuildEntries(added, sub, asset, now);
          ledger.PushSubdomains(i, records);
          EnqueueAll(ledger, domain, added, now);
        }
      case None =>
        added := NewNames(sub + asset, {});
        var records := BuildEntries(added, sub, asset, now);
        ledger.InsertDomain(DomainRecord(domain, now, records));
        EnqueueAll(ledger, domain, added, now);
    }
  }

  /**
   * `subdomain_enumeration.run`: with no targets or no tool it returns an
   * error and leaves the ledger alone; otherwise it processes every target in
   * order and returns the concatenation of the per-domain new names.
   */
  method Run(ledger: Ledger, targets: seq<string>, tools: Toolset, now: nat)
    returns (result: EnumerationResult)
    modifies ledger
    ensures targets == [] ==>
      result == EnumerationResult(Some(NoTargetsError), []) && unchanged(ledger)
    ensures targets != [] && !tools.subfinderAvailable && !tools.assetfinderAvailable ==>
      result == EnumerationResult(Some(NoToolsError), []) && unchanged(ledger)
    ensures targets != [] && (tools.subfinderAvailable || tools.assetfinderAvailable) ==>
      var e := EnumerateAll(old(ledger.domains), old(ledger.pending), targets, tools, now);
      && ledger.domains == e.domains
      && ledger.pending == e.pending
      && result == EnumerationResult(None, e.newNames)
    ensures ledger.hosts == old(ledger.hosts) && ledger.notifications == old(ledger.notifications)
    ensures old(ledger.Valid()) ==> ledger.Valid()
  {
    if targets == [] {
      return EnumerationResult(Some(NoTargetsError), []);
    }
    if !tools.subfinderAvailable && !tools.assetfinderAvailable {
      return EnumerationResult(Some(NoToolsError), []);
    }
    ghost var domains0, pending0 := ledger.domains, ledger.pending;
    var all: seq<string> := [];
    for i := 0 to |targets|
      invariant var e := EnumerateAll(domains0, pending0, targets[..i], tools, now);
        ledger.domains == e.domains && ledger.pending == e.pending && all == e.newNames
      invariant ledger.hosts == old(ledger.hosts) && ledger.notifications == old(ledger.notifications)
    {
      var domain := targets[i];
      var sub := ToolNames(tools.subfinderAvailable, tools.subfinder(domain), domain);
      var asset := ToolNames(tools.assetfinderAvailable, tools.assetfinder(domain), domain);
      EnumerateAllExtend(domains0, pending0, targets, i, tools, now);
      var added := ProcessDomain(ledger, domain, sub, asset, now);
      all := all + added;
    }
    assert targets[..|targets|] == targets;
    if DomainsValid(domains0) {
      EnumerateAllKeepsValid(domains0, pending0, targets, tools, now);
    }
    result := EnumerationResult(None, all);
  }
}
