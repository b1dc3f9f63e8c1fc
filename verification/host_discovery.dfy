/**
 * The host discovery stage (`host_discovery.run`): take the newest pending
 * subdomains, port-scan each with naabu, and record every `(subdomain, port)`
 * pair not already in the ledger as a host target waiting for both scanners.
 */
module HostDiscovery {
  import opened Wrappers
  import opened Text
  import opened LedgerStore

  /** How many pending subdomains one run takes. */
  const BatchLimit := 100

  const NaabuMissingError := "Naabu tool not available"

  /** What the stage returns: an optional error and one `"subdomain:port"` per new host. */
  datatype DiscoveryResult = DiscoveryResult(error: Option<string>, newHosts: seq<string>)

  /** The host targets after recording, and the labels of those added. */
  datatype Recorded = Recorded(hosts: seq<HostTarget>, newHosts: seq<string>)

  /**
   * The port one naabu output line announces: the stripped line must split on
   * `:` into exactly two parts, the second of which `int()` accepts. The host
   * part is ignored.
   */
  function PortOfLine(line: string): Option<int> {
    var t := Strip(line);
    if t == "" then None
    else
      var parts := Split(t, ':');
      if |parts| == 2 then ParseInt(parts[1]) else None
  }

  /** What each output line announces, line by line. */
  function Announced(lines: seq<string>): (opts: seq<Option<int>>)
    ensures |opts| == |lines|
    ensures forall i :: 0 <= i < |lines| ==> opts[i] == PortOfLine(lines[i])
  {
    seq(|lines|, i requires 0 <= i < |lines| => PortOfLine(lines[i]))
  }

  /** The present values among `opts`, in order: the `open_ports` list. */
  function Present(opts: seq<Option<int>>): (ports: seq<int>)
    ensures |ports| <= |opts|
    ensures forall p :: p in ports <==> Some(p) in opts
  {
    if opts == [] then []
    else
      var prev := Present(opts[..|opts| - 1]);
      assert opts == opts[..|opts| - 1] + [opts[|opts| - 1]];
      match opts[|opts| - 1]
      case None => prev
      case Some(p) => prev + [p]
  }

  /** One more option extends the present values by its value, if any. */
  lemma PresentExtend(opts: seq<Option<int>>, i: nat)
    requires i < |opts|
    ensures Present(opts[..i + 1]) == Present(opts[..i]) + (if opts[i].Some? then [opts[i].value] else [])
  {
    assert opts[..i + 1][..i] == opts[..i];
  }

  /** The open ports in one naabu run's output, in line order; empty output yields none. */
  function OpenPorts(output: string): seq<int> {
    if output == "" then [] else Present(Announced(Split(Strip(output), '\n')))
  }

  /** A port is listed exactly when some line of the stripped output announces it. */
  lemma OpenPortsAnnounced(output: string, p: int)
    ensures p in OpenPorts(output) <==>
      output != "" && exists line :: line in Split(Strip(output), '\n') && PortOfLine(line) == Some(p)
  {
    if output != "" {
      AnnouncedMembers(Split(Strip(output), '\n'), p);
    }
  }

  /** `Some(p)` is announced exactly when some line announces `p`. */
  lemma AnnouncedMembers(lines: seq<string>, p: int)
    ensures Some(p) in Announced(lines) <==> exists line :: line in lines && PortOfLine(line) == Some(p)
  {
    var opts := Announced(lines);
    if Some(p) in opts {
      var i :| 0 <= i < |opts| && opts[i] == Some(p);
      assert lines[i] in lines;
    }
    if exists line :: line in lines && PortOfLine(line) == Some(p) {
      var line :| line in lines && PortOfLine(line) == Some(p);
      var i :| 0 <= i < |lines| && lines[i] == line;
      assert opts[i] == Some(p);
    }
  }

  /** The label of a host target in the stage's result: `f"{subdomain}:{port}"`. */
  function Label(subdomain: string, port: int): string {
    subdomain + ":" + IntToString(port)
  }

  /** A line naabu prints for an open port of `host`. */
  function PortLine(host: string, port: int): string {
    host + ":" + IntToString(port)
  }

  /** A line without a colon, or with more than one, announces no port. */
  lemma {:induction false} PortOfLineNeedsOneColon(line: string)
    requires PortOfLine(line).Some?
    ensures exists a, b :: Strip(line) == a + ":" + b && ':' !in a && ':' !in b
  {
    var t := Strip(line);
    var parts := Split(t, ':');
    assert |parts| == 2;
    assert Join(parts, ':') == parts[0] + ":" + Join(parts[1..], ':');
    assert parts[1..] == [parts[1]];
    assert parts[0] in parts && parts[1] in parts;
  }

  /** The line naabu prints for `(host, port)` announces exactly `port`. */
  lemma PortOfPortLine(host: string, port: int)
    requires host != "" && NoSpace(host) && ':' !in host
    ensures PortOfLine(PortLine(host, port)) == Some(port)
  {
    var digits := IntToString(port);
    var line := PortLine(host, port);
    assert NoSpace(line) by {
      forall i | 0 <= i < |line| ensures !IsSpace(line[i]) {
        if i < |host| {
          assert line[i] == host[i];
        } else if i > |host| {
          assert line[i] == digits[i - |host| - 1];
        }
      }
    }
    StripOfNoSpace(line);
    SplitAtFirst(host, digits, ':');
    SplitNoSeparator(digits, ':');
    ParseIntOfIntToString(port);
  }

  /** The output naabu prints for `host` with `ports` open, one line per port. */
  function Listing(host: string, ports: seq<int>): (lines: seq<string>)
    ensures |lines| == |ports|
    ensures forall k :: 0 <= k < |lines| ==> lines[k] == PortLine(host, ports[k])
  {
    seq(|ports|, k requires 0 <= k < |ports| => PortLine(host, ports[k]))
  }

  /** Each line of a listing announces its own port. */
  lemma AnnouncedListing(host: string, ports: seq<int>)
    requires host != "" && NoSpace(host) && ':' !in host
    ensures Announced(Listing(host, ports)) == seq(|ports|, k requires 0 <= k < |ports| => Some(ports[k]))
  {
    forall k | 0 <= k < |ports| ensures PortOfLine(Listing(host, ports)[k]) == Some(ports[k]) {
      PortOfPortLine(host, ports[k]);
    }
  }

  /** Keeping the present values of all-present options gives the values back. */
  lemma {:induction false} PresentOfAll(ports: seq<int>)
    ensures Present(seq(|ports|, k requires 0 <= k < |ports| => Some(ports[k]))) == ports
  {
    if ports != [] {
      var n := |ports| - 1;
      var opts := seq(|ports|, k requires 0 <= k < |ports| => Some(ports[k]));
      assert opts[..n] == seq(n, k requires 0 <= k < n => Some(ports[..n][k]));
      PresentOfAll(ports[..n]);
      assert ports[..n] + [ports[n]] == ports;
    }
  }

  /** A joined text starts with its first part. */
  lemma {:induction false} JoinStartsWithFirst(parts: seq<string>, sep: char)
    requires parts != [] && parts[0] != ""
    ensures Join(parts, sep) != "" && Join(parts, sep)[0] == parts[0][0]
  {
  }

  /** A joined text ends with its last part. */
  lemma {:induction false} JoinEndsWithLast(parts: seq<string>, sep: char)
    requires parts != [] && parts[|parts| - 1] != ""
    ensures var j := Join(parts, sep);
      j != "" && j[|j| - 1] == parts[|parts| - 1][|parts[|parts| - 1]| - 1]
  {
    if |parts| > 1 {
      JoinEndsWithLast(parts[1..], sep);
    }
  }

  /**
   * Round trip: when naabu prints one `host:port` line per open port, the
   * stage reads back exactly those ports, in order.
   */
  lemma OpenPortsOfListing(host: string, ports: seq<int>)
    requires host != "" && NoSpace(host) && ':' !in host && '\n' !in host
    ensures OpenPorts(Join(Listing(host, ports), '\n')) == ports
  {
    if ports != [] {
      ListingIsTrimmed(host, ports);
      StripOfTrimmed(Join(Listing(host, ports), '\n'));
      ListingSplits(host, ports);
      AnnouncedListing(host, ports);
      PresentOfAll(ports);
    }
  }

  /** A listing starts with the host's name and ends with a port's digits. */
  lemma ListingIsTrimmed(host: string, ports: seq<int>)
    requires host != "" && NoSpace(host) && ports != []
    ensures Trimmed(Join(Listing(host, ports), '\n'))
  {
    var lines := Listing(host, ports);
    JoinStartsWithFirst(lines, '\n');
    JoinEndsWithLast(lines, '\n');
    var last := IntToString(ports[|ports| - 1]);
    assert lines[|lines| - 1] == host + ":" + last;
    assert lines[0][0] == host[0];
  }

  /** A listing splits back into its lines. */
  lemma ListingSplits(host: string, ports: seq<int>)
    requires '\n' !in host && ports != []
    ensures Split(Join(Listing(host, ports), '\n'), '\n') == Listing(host, ports)
  {
    var lines := Listing(host, ports);
    forall k | 0 <= k < |lines| ensures '\n' !in lines[k] {
      assert lines[k] == host + ":" + IntToString(ports[k]);
    }
    SplitJoin(lines, '\n');
  }

  /** The new host target for a pair: discovered now, scanned by neither scanner. */
  function NewTarget(subdomain: string, port: int, now: nat): HostTarget {
    HostTarget(subdomain, port, now, false, false)
  }

  /**
   * The inner loop of the stage for one subdomain: each port, in order, is
   * checked against the targets recorded so far (including those this very
   * loop added) and inserted only when its pair is absent.
   */
  function RecordPorts(hosts: seq<HostTarget>, subdomain: string, ports: seq<int>, now: nat): (r: Recorded)
    ensures |r.hosts| >= |hosts| && r.hosts[..|hosts|] == hosts
    ensures |r.newHosts| == |r.hosts| - |hosts|
    ensures forall k :: |hosts| <= k < |r.hosts| ==>
      && r.hosts[k] == NewTarget(subdomain, r.hosts[k].port, now)
      && r.hosts[k].port in ports
      && !HasPair(r.hosts[..k], subdomain, r.hosts[k].port)
      && r.newHosts[k - |hosts|] == Label(subdomain, r.hosts[k].port)
  {
    if ports == [] then Recorded(hosts, [])
    else
      var front := ports[..|ports| - 1];
      var port := ports[|ports| - 1];
      var prev := RecordPorts(hosts, subdomain, front, now);
      assert forall p :: p in front ==> p in ports;
      if HasPair(prev.hosts, subdomain, port) then prev
      else
        var t := NewTarget(subdomain, port, now);
        PrefixesOfAppend(prev.hosts, t);
        Recorded(prev.hosts + [t], prev.newHosts + [Label(subdomain, port)])
  }

  /**
   * The pairs recorded after the loop are those recorded before plus one for
   * every port scanned.
   */
  lemma {:induction false} RecordPortsPairs(hosts: seq<HostTarget>, subdomain: string, ports: seq<int>, now: nat)
    ensures var r := RecordPorts(hosts, subdomain, ports, now);
      forall s, p :: HasPair(r.hosts, s, p) <==> HasPair(hosts, s, p) || (s == subdomain && p in ports)
  {
    if ports != [] {
      var front := ports[..|ports| - 1];
      var port := ports[|ports| - 1];
      RecordPortsPairs(hosts, subdomain, front, now);
      var before := RecordPorts(hosts, subdomain, front, now).hosts;
      var after := RecordPorts(hosts, subdomain, ports, now).hosts;
      RecordPortsLast(hosts, subdomain, ports, now);
      assert forall p :: p in ports <==> p in front || p == port by {
        assert ports == front + [port];
      }
      forall s, p
        ensures HasPair(after, s, p) <==> HasPair(before, s, p) || (s == subdomain && p == port)
      {
        if !HasPair(before, subdomain, port) {
          HasPairAppend(before, NewTarget(subdomain, port, now), s, p);
        }
      }
    }
  }

  /** The loop's last step: the last port is inserted unless its pair is already held. */
  lemma RecordPortsLast(hosts: seq<HostTarget>, subdomain: string, ports: seq<int>, now: nat)
    requires ports != []
    ensures var before := RecordPorts(hosts, subdomain, ports[..|ports| - 1], now).hosts;
      var port := ports[|ports| - 1];
      RecordPorts(hosts, subdomain, ports, now).hosts
        == if HasPair(before, subdomain, port) then before else before + [NewTarget(subdomain, port, now)]
  {
  }

  /** Appending leaves every prefix of the original in place. */
  lemma PrefixesOfAppend<T>(xs: seq<T>, x: T)
    ensures forall k :: 0 <= k <= |xs| ==> (xs + [x])[..k] == xs[..k]
  {
    forall k | 0 <= k <= |xs|
      ensures (xs + [x])[..k] == xs[..k]
    {
    }
  }

  /** A pair is held after an append iff it was held before or the new target has it. */
  lemma HasPairAppend(hosts: seq<HostTarget>, t: HostTarget, s: string, p: int)
    ensures HasPair(hosts + [t], s, p) <==> HasPair(hosts, s, p) || (t.subdomain == s && t.port == p)
  {
    var all := hosts + [t];
    if HasPair(all, s, p) {
      var k :| 0 <= k < |all| && all[k].subdomain == s && all[k].port == p;
      if k < |hosts| {
        assert all[k] == hosts[k];
      }
    }
    if HasPair(hosts, s, p) {
      var k :| 0 <= k < |hosts| && hosts[k].subdomain == s && hosts[k].port == p;
      assert all[k] == hosts[k];
    }
    if t.subdomain == s && t.port == p {
      assert all[|hosts|] == t;
    }
  }

  /** Invariant: the loop keeps `(subdomain, port)` pairs unique, even when a port repeats. */
  lemma RecordPortsKeepsUnique(hosts: seq<HostTarget>, subdomain: string, ports: seq<int>, now: nat)
    requires PairsUnique(hosts)
    ensures PairsUnique(RecordPorts(hosts, subdomain, ports, now).hosts)
  {
    var r := RecordPorts(hosts, subdomain, ports, now).hosts;
    forall i, j | 0 <= i < j < |r| ensures r[i].subdomain != r[j].subdomain || r[i].port != r[j].port {
      if j >= |hosts| {
        assert !HasPair(r[..j], subdomain, r[j].port);
        assert r[..j][i] == r[i];
      } else {
        assert r[i] == hosts[i] && r[j] == hosts[j];
      }
    }
  }

  /** When every scanned pair is already recorded, the loop adds nothing. */
  lemma {:induction false} RecordPortsAllKnown(hosts: seq<HostTarget>, subdomain: string, ports: seq<int>, now: nat)
    requires forall p :: p in ports ==> HasPair(hosts, subdomain, p)
    ensures RecordPorts(hosts, subdomain, ports, now) == Recorded(hosts, [])
  {
    if ports != [] {
      var front := ports[..|ports| - 1];
      assert forall p :: p in front ==> p in ports;
      RecordPortsAllKnown(hosts, subdomain, front, now);
      assert ports[|ports| - 1] in ports;
    }
  }

  /**
   * What one naabu invocation yields for a subdomain: nothing when it fails
   * (`CalledProcessError` and any other exception), else the open ports its
   * output announces.
   */
  function ScanOf(run: ToolRun): Option<seq<int>> {
    match run
    case Failed => None
    case Output(text) => Some(OpenPorts(text))
  }

  /** naabu's scan results, subdomain by subdomain. */
  function Scanner(naabu: string -> ToolRun): string -> Option<seq<int>> {
    s => ScanOf(naabu(s))
  }

  /**
   * The stage's loop over the batch, given each subdomain's scan result:
   * records without a subdomain are skipped, a failed scan is skipped, and
   * every other subdomain's open ports are recorded in turn.
   */
  function DiscoverAll(hosts: seq<HostTarget>, batch: seq<PendingSubdomain>, scan: string -> Option<seq<int>>, now: nat): Recorded
  {
    if batch == [] then Recorded(hosts, [])
    else
      var prev := DiscoverAll(hosts, batch[..|batch| - 1], scan, now);
      var subdomain := batch[|batch| - 1].subdomain;
      if subdomain == "" then prev
      else match scan(subdomain)
        case None => prev
        case Some(ports) =>
          var step := RecordPorts(prev.hosts, subdomain, ports, now);
          Recorded(step.hosts, prev.newHosts + step.newHosts)
  }

  /** The ports scanned open for a batch record, or none when it is skipped. */
  function ScannedPorts(record: PendingSubdomain, scan: string -> Option<seq<int>>): seq<int> {
    if record.subdomain == "" then []
    else match scan(record.subdomain)
      case None => []
      case Some(ports) => ports
  }

  /** The subdomains naabu is invoked on: the batch's records that have one. */
  function Probed(batch: seq<PendingSubdomain>): (probed: seq<string>)
    ensures forall s :: s in probed <==> s != "" && exists k :: 0 <= k < |batch| && batch[k].subdomain == s
  {
    if batch == [] then []
    else
      var front := batch[..|batch| - 1];
      var prev := Probed(front);
      assert forall k :: 0 <= k < |front| ==> front[k] == batch[k];
      var subdomain := batch[|batch| - 1].subdomain;
      if subdomain == "" then prev else prev + [subdomain]
  }

  /**
   * Existing targets are never modified, every target added is a fresh one for
   * a scanned pair, and the labels returned are one per added target.
   */
  lemma {:induction false} DiscoverAllAppends(hosts: seq<HostTarget>, batch: seq<PendingSubdomain>, scan: string -> Option<seq<int>>, now: nat)
    ensures var d := DiscoverAll(hosts, batch, scan, now);
      && |d.hosts| >= |hosts| && d.hosts[..|hosts|] == hosts
      && |d.newHosts| == |d.hosts| - |hosts|
      && forall k :: |hosts| <= k < |d.hosts| ==>
           && d.hosts[k] == NewTarget(d.hosts[k].subdomain, d.hosts[k].port, now)
           && d.hosts[k].subdomain != ""
           && d.newHosts[k - |hosts|] == Label(d.hosts[k].subdomain, d.hosts[k].port)
  {
    if batch != [] {
      var front := batch[..|batch| - 1];
      var prev := DiscoverAll(hosts, front, scan, now);
      DiscoverAllAppends(hosts, front, scan, now);
      var subdomain := batch[|batch| - 1].subdomain;
      if subdomain != "" && scan(subdomain).Some? {
        var step := RecordPorts(prev.hosts, subdomain, scan(subdomain).value, now);
        var d := DiscoverAll(hosts, batch, scan, now);
        assert d == Recorded(step.hosts, prev.newHosts + step.newHosts);
        assert step.hosts[..|hosts|] == prev.hosts[..|hosts|];
        forall k | |hosts| <= k < |d.hosts|
          ensures && d.hosts[k] == NewTarget(d.hosts[k].subdomain, d.hosts[k].port, now)
                  && d.hosts[k].subdomain != ""
                  && d.newHosts[k - |hosts|] == Label(d.hosts[k].subdomain, d.hosts[k].port)
        {
          if k < |prev.hosts| {
            assert d.hosts[k] == prev.hosts[k];
            assert d.newHosts[k - |hosts|] == prev.newHosts[k - |hosts|];
          } else {
            assert d.newHosts[k - |hosts|] == step.newHosts[k - |prev.hosts|];
          }
        }
      }
    }
  }

  /** Some record of the batch has subdomain `s` and was scanned with port `p` open. */
  predicate Scanned(batch: seq<PendingSubdomain>, scan: string -> Option<seq<int>>, s: string, p: int) {
    exists k :: 0 <= k < |batch| && batch[k].subdomain == s && p in ScannedPorts(batch[k], scan)
  }

  /** The scanned pairs of a batch: those of all but its last record, plus the last record's. */
  lemma ScannedExtend(batch: seq<PendingSubdomain>, scan: string -> Option<seq<int>>, s: string, p: int)
    requires batch != []
    ensures var last := batch[|batch| - 1];
      Scanned(batch, scan, s, p) <==>
        Scanned(batch[..|batch| - 1], scan, s, p) || (s == last.subdomain && p in ScannedPorts(last, scan))
  {
    var front := batch[..|batch| - 1];
    if Scanned(batch, scan, s, p) {
      var k :| 0 <= k < |batch| && batch[k].subdomain == s && p in ScannedPorts(batch[k], scan);
      if k < |front| {
        assert front[k] == batch[k];
      }
    }
    if Scanned(front, scan, s, p) {
      var k :| 0 <= k < |front| && front[k].subdomain == s && p in ScannedPorts(front[k], scan);
      assert batch[k] == front[k];
    }
  }

  /** One batch record adds exactly its own scanned pairs. */
  lemma DiscoverStepPairs(hosts: seq<HostTarget>, batch: seq<PendingSubdomain>, scan: string -> Option<seq<int>>, now: nat, s: string, p: int)
    requires batch != []
    ensures var last := batch[|batch| - 1];
      HasPair(DiscoverAll(hosts, batch, scan, now).hosts, s, p) <==>
        HasPair(DiscoverAll(hosts, batch[..|batch| - 1], scan, now).hosts, s, p)
        || (s == last.subdomain && p in ScannedPorts(last, scan))
  {
    var last := batch[|batch| - 1];
    var prev := DiscoverAll(hosts, batch[..|batch| - 1], scan, now);
    if last.subdomain != "" && scan(last.subdomain).Some? {
      RecordPortsPairs(prev.hosts, last.subdomain, scan(last.subdomain).value, now);
    }
  }

  /** The pairs recorded after the batch: those before plus every scanned pair. */
  lemma {:induction false} DiscoverAllPairs(hosts: seq<HostTarget>, batch: seq<PendingSubdomain>, scan: string -> Option<seq<int>>, now: nat)
    ensures var d := DiscoverAll(hosts, batch, scan, now);
      forall s, p :: HasPair(d.hosts, s, p) <==> HasPair(hosts, s, p) || Scanned(batch, scan, s, p)
  {
    if batch != [] {
      var front := batch[..|batch| - 1];
      DiscoverAllPairs(hosts, front, scan, now);
      forall s, p
        ensures HasPair(DiscoverAll(hosts, batch, scan, now).hosts, s, p) <==> HasPair(hosts, s, p) || Scanned(batch, scan, s, p)
      {
        DiscoverStepPairs(hosts, batch, scan, now, s, p);
        ScannedExtend(batch, scan, s, p);
      }
    }
  }

  /** Invariant: no two host targets share a `(subdomain, port)` pair after any run. */
  lemma {:induction false} DiscoverAllKeepsUnique(hosts: seq<HostTarget>, batch: seq<PendingSubdomain>, scan: string -> Option<seq<int>>, now: nat)
    requires PairsUnique(hosts)
    ensures PairsUnique(DiscoverAll(hosts, batch, scan, now).hosts)
  {
    if batch != [] {
      var front := batch[..|batch| - 1];
      var prev := DiscoverAll(hosts, front, scan, now);
      DiscoverAllKeepsUnique(hosts, front, scan, now);
      var subdomain := batch[|batch| - 1].subdomain;
      if subdomain != "" && scan(subdomain).Some? {
        RecordPortsKeepsUnique(prev.hosts, subdomain, scan(subdomain).value, now);
      }
    }
  }

  /** When every scanned pair is already recorded, the batch adds nothing. */
  lemma {:induction false} DiscoverAllAllKnown(hosts: seq<HostTarget>, batch: seq<PendingSubdomain>, scan: string -> Option<seq<int>>, now: nat)
    requires forall s, p :: Scanned(batch, scan, s, p) ==> HasPair(hosts, s, p)
    ensures DiscoverAll(hosts, batch, scan, now) == Recorded(hosts, [])
  {
    if batch != [] {
      var front := batch[..|batch| - 1];
      var last := batch[|batch| - 1];
      forall s, p | Scanned(front, scan, s, p) ensures HasPair(hosts, s, p) {
        ScannedExtend(batch, scan, s, p);
      }
      DiscoverAllAllKnown(hosts, front, scan, now);
      if last.subdomain != "" && scan(last.subdomain).Some? {
        forall p | p in ScannedPorts(last, scan) ensures HasPair(hosts, last.subdomain, p) {
          ScannedExtend(batch, scan, last.subdomain, p);
        }
        RecordPortsAllKnown(hosts, last.subdomain, scan(last.subdomain).value, now);
      }
    }
  }

  /**
   * Idempotence: a second scan of the same batch with the same scan results
   * adds no host target and reports no new host.
   */
  lemma SecondScanAddsNothing(hosts: seq<HostTarget>, batch: seq<PendingSubdomain>, scan: string -> Option<seq<int>>, now: nat, later: nat)
    ensures var first := DiscoverAll(hosts, batch, scan, now);
      DiscoverAll(first.hosts, batch, scan, later) == Recorded(first.hosts, [])
  {
    var first := DiscoverAll(hosts, batch, scan, now);
    DiscoverAllPairs(hosts, batch, scan, now);
    DiscoverAllAllKnown(first.hosts, batch, scan, later);
  }

  /**
   * One subdomain already recorded with port 80, naabu reporting ports 80 and
   * 443: only `(subdomain, 443)` is added.
   */
  lemma KnownPortScenario(subdomain: string, now: nat, earlier: nat)
    ensures var hosts := [HostTarget(subdomain, 80, earlier, true, false)];
      RecordPorts(hosts, subdomain, [80, 443], now)
        == Recorded(hosts + [NewTarget(subdomain, 443, now)], [Label(subdomain, 443)])
  {
    var hosts := [HostTarget(subdomain, 80, earlier, true, false)];
    assert [80, 443][..1] == [80];
    assert [80][..0] == [];
    assert HasPair(hosts, subdomain, 80) by {
      assert hosts[0].subdomain == subdomain && hosts[0].port == 80;
    }
  }

  /** The parsing step of the stage: nothing for an empty output, else its lines' ports. */
  method ParseNaabuOutput(output: string) returns (ports: seq<int>)
    ensures ports == OpenPorts(output)
  {
    if output == "" {
      return [];
    }
    ports := CollectPorts(Split(Strip(output), '\n'));
  }

  /** The loop over the output's lines, collecting the port each announces. */
  method CollectPorts(lines: seq<string>) returns (ports: seq<int>)
    ensures ports == Present(Announced(lines))
  {
    ports := [];
    ghost var opts := Announced(lines);
    for i := 0 to |lines|
      invariant ports == Present(opts[..i])
    {
      var port := PortOfLine(lines[i]);
      PresentExtend(opts, i);
      if port.Some? {
        ports := ports + [port.value];
      }
    }
    assert opts[..|lines|] == opts;
  }

  /** The check-then-insert loop over one subdomain's open ports. */
  method RecordOpenPorts(ledger: Ledger, subdomain: string, ports: seq<int>, now: nat)
    returns (added: seq<string>)
    modifies ledger
    ensures var r := RecordPorts(old(ledger.hosts), subdomain, ports, now);
      ledger.hosts == r.hosts && added == r.newHosts
    ensures ledger.domains == old(ledger.domains) && ledger.pending == old(ledger.pending)
    ensures ledger.notifications == old(ledger.notifications)
  {
    added := [];
    for i := 0 to |ports|
      invariant var r := RecordPorts(old(ledger.hosts), subdomain, ports[..i], now);
        ledger.hosts == r.hosts && added == r.newHosts
      invariant ledger.domains == old(ledger.domains) && ledger.pending == old(ledger.pending)
      invariant ledger.notifications == old(ledger.notifications)
    {
      assert ports[..i + 1][..i] == ports[..i];
      var port := ports[i];
      var exists_ := ledger.FindHost(subdomain, port);
      if !exists_ {
        ledger.InsertHost(NewTarget(subdomain, port, now));
        added := added + [Label(subdomain, port)];
      }
    }
    assert ports[..|ports|] == ports;
  }

  /** One more batch record extends the loop by that record's step. */
  lemma DiscoverAllExtend(hosts: seq<HostTarget>, batch: seq<PendingSubdomain>, i: nat, scan: string -> Option<seq<int>>, now: nat)
    requires i < |batch|
    ensures var prev := DiscoverAll(hosts, batch[..i], scan, now);
      var subdomain := batch[i].subdomain;
      DiscoverAll(hosts, batch[..i + 1], scan, now) ==
        if subdomain == "" || scan(subdomain).None? then prev
        else
          var step := RecordPorts(prev.hosts, subdomain, scan(subdomain).value, now);
          Recorded(step.hosts, prev.newHosts + step.newHosts)
    ensures Probed(batch[..i + 1]) == Probed(batch[..i]) + (if batch[i].subdomain == "" then [] else [batch[i].subdomain])
  {
    assert batch[..i + 1][..i] == batch[..i];
  }

  /**
   * `host_discovery.run`: without naabu it returns an error and touches
   * nothing; otherwise it scans the newest `BatchLimit` pending subdomains in
   * order. `probed` lists the subdomains naabu was invoked on.
   */
  method Run(ledger: Ledger, naabuAvailable: bool, naabu: string -> ToolRun, now: nat)
    returns (result: DiscoveryResult, probed: seq<string>)
    modifies ledger
    ensures !naabuAvailable ==>
      result == DiscoveryResult(Some(NaabuMissingError), []) && probed == [] && unchanged(ledger)
    ensures naabuAvailable ==>
      var batch := NewestFirst(old(ledger.pending), BatchLimit);
      var d := DiscoverAll(old(ledger.hosts), batch, Scanner(naabu), now);
      && ledger.hosts == d.hosts
      && result == DiscoveryResult(None, d.newHosts)
      && probed == Probed(batch)
    ensures ledger.domains == old(ledger.domains) && ledger.pending == old(ledger.pending)
    ensures ledger.notifications == old(ledger.notifications)
    ensures old(ledger.Valid()) ==> ledger.Valid()
  {
    if !naabuAvailable {
      return DiscoveryResult(Some(NaabuMissingError), []), [];
    }
    var batch := ledger.RecentPending(BatchLimit);
    ghost var hosts0 := ledger.hosts;
    var newHosts: seq<string> := [];
    probed := [];
    for i := 0 to |batch|
      invariant var d := DiscoverAll(hosts0, batch[..i], Scanner(naabu), now);
        ledger.hosts == d.hosts && newHosts == d.newHosts
      invariant probed == Probed(batch[..i])
      invariant ledger.domains == old(ledger.domains) && ledger.pending == old(ledger.pending)
      invariant ledger.notifications == old(ledger.notifications)
    {
      DiscoverAllExtend(hosts0, batch, i, Scanner(naabu), now);
      var subdomain := batch[i].subdomain;
      if subdomain != "" {
        probed := probed + [subdomain];
        var run := naabu(subdomain);
        assert Scanner(naabu)(subdomain) == ScanOf(run);
        if run.Output? {
          var ports := ParseNaabuOutput(run.text);
          var added := RecordOpenPorts(ledger, subdomain, ports, now);
          newHosts := newHosts + added;
        }
      }
    }
    assert batch[..|batch|] == batch;
    if PairsUnique(hosts0) {
      DiscoverAllKeepsUnique(hosts0, batch, Scanner(naabu), now);
    }
    result := DiscoveryResult(None, newHosts);
  }
}
