# recon_framework in Dafny

A model of the incremental discovery-and-deduplication pipeline of the
`recon_framework` reconnaissance tool. Each stage reads a persistent ledger,
computes what it has not recorded yet, and writes back only the new items:

- **Subdomain enumeration** (`subdomain_enumeration.run`). For each target
  domain, the stage runs subfinder and assetfinder and keeps the stripped
  output lines that end in `.<domain>`. It unions the two tools' names and
  subtracts the names the domain's record already holds. It attributes each
  new name to the first tool that printed it. It then appends the new names
  to the domain record, or creates the record, and enqueues every new name
  as pending.
- **Host discovery** (`host_discovery.run`). The stage takes the 100 newest
  pending subdomains and parses naabu's `host:port` lines. It inserts a host
  target only for a `(subdomain, port)` pair the ledger does not hold yet.
- **Notification tiering** (`notification_handler.send_notifications`). The
  stage classifies findings by lower-cased severity into up to three tiers:
  urgent, medium and low. It stores every notification, then counts the
  successful deliveries: e-mail for the urgent tier, Discord for every tier.
  A Discord embed shows at most ten findings plus an overflow field.
- **Configuration validation** (`config_validator.validate_config`). The
  validator builds the ordered list of missing settings and decides validity.
- **The driver** (`main.main`). It loads the configuration and applies the
  `--domains` override. It then validates the configuration and connects to
  the database. Finally it runs the stages selected by `--module`, gating
  each on the previous stage's result. After a stage raises, the driver
  carries on in run-all mode and exits with status 1 in single-stage mode.

The MongoDB collections become the class `LedgerStore.Ledger`, which holds
four sequences: domain records, pending subdomains, host targets and
notifications. External programs become parameters:

- tool availability is a boolean;
- a tool run is an oracle function returning `Failed` or `Output(text)`;
- an e-mail or webhook delivery is an oracle returning success;
- the clock is one `now` value per run.

Python's `str.strip`, `str.split`, `int()` and `str()` on integers are
written out in module `Text` (Python's whitespace characters, ASCII digits and letters). Configuration
dictionaries with Python truthiness are in module `Settings`.

Files:

- `wrappers.dfy`: `Option`, `ToolRun`, `Distinct`;
- `text.dfy`: string helpers;
- `settings.dfy`: configuration values;
- `ledger.dfy`: records and the ledger class;
- `subdomain_enumeration.dfy`, `host_discovery.dfy`, `notification.dfy`,
  `config_validator.dfy`: the stages and the validator;
- `pipeline.dfy`: the driver.

Each stage is written as a specification function over the ledger's
sequences. Its imperative `Run`/`Send…` method updates the `Ledger` object
and is proved to leave exactly the state that the function computes. The
properties are lemmas about those functions.

## Model

| member | source | states |
|---|---|---|
| Text.FirstNonSpace | Downloads/recon_framework/subdomain_enum/subdomain_enumeration.py:86 | the index where leading whitespace ends: everything before it is whitespace and the character at it is not |
| Text.EndOfNonSpace | Downloads/recon_framework/subdomain_enum/subdomain_enumeration.py:86 | the index where trailing whitespace begins: everything from it on is whitespace and the character before it is not |
| Text.Strip | Downloads/recon_framework/subdomain_enum/subdomain_enumeration.py:86-87 | `str.strip()`: the result is the input with leading and trailing whitespace removed, and it is itself trimmed |
| Text.StripOfTrimmed | Downloads/recon_framework/subdomain_enum/subdomain_enumeration.py:86-87 | stripping an already trimmed string changes nothing |
| Text.StripIdempotent | Downloads/recon_framework/subdomain_enum/subdomain_enumeration.py:86-87 | stripping twice is stripping once |
| Text.StripOfNoSpace | Downloads/recon_framework/host_discovery/host_discovery.py:78-79 | a string without whitespace is its own strip |
| Text.Split | Downloads/recon_framework/subdomain_enum/subdomain_enumeration.py:86 | `str.split(sep)`: at least one part, no part contains the separator, and joining the parts with the separator gives back the input |
| Text.SplitNoSeparator | Downloads/recon_framework/host_discovery/host_discovery.py:77 | a string without the separator splits into itself alone |
| Text.SplitAtFirst | Downloads/recon_framework/host_discovery/host_discovery.py:79 | splitting `a + sep + b`, where `a` has no separator, gives `a` followed by the split of `b` |
| Text.SplitJoin | Downloads/recon_framework/host_discovery/host_discovery.py:77 | splitting a join of separator-free parts gives back the parts (the inverse of `Join`) |
| Text.DigitChar | Downloads/recon_framework/host_discovery/host_discovery.py:110 | the digit character for `d` is a digit whose value is `d` |
| Text.NatToString | Downloads/recon_framework/host_discovery/host_discovery.py:110 | `str(n)` is a non-empty digit string without a leading zero unless `n` is 0 |
| Text.IntToString | Downloads/recon_framework/host_discovery/host_discovery.py:110 | `str(i)` is non-empty and has no whitespace, colon or newline |
| Text.DigitsValueOfNatToString | Downloads/recon_framework/host_discovery/host_discovery.py:83 | reading the digits of `str(n)` gives back `n` |
| Text.WithoutUnderscores | Downloads/recon_framework/host_discovery/host_discovery.py:83 | dropping underscores from a literal leaves only digits, and leaves a pure digit string unchanged |
| Text.ParseNatToString | Downloads/recon_framework/host_discovery/host_discovery.py:83 | `int()` reads `str(n)` back as `n`, and `"-" + str(n)` back as `-n` |
| Text.ParseIntOfIntToString | Downloads/recon_framework/host_discovery/host_discovery.py:83 | `int(str(i)) == i` for every integer `i` |
| Text.EndsWith | Downloads/recon_framework/subdomain_enum/subdomain_enumeration.py:87 | definition of `str.endswith`: the last `|suffix|` characters are the suffix (no contract of its own) |
| Text.Join | Downloads/recon_framework/host_discovery/host_discovery.py:77 | definition of the inverse of `split`: parts glued with the separator; `Text.Split` and `Text.SplitJoin` state the round trip (no contract of its own) |
| Text.IsDecimalLiteral | Downloads/recon_framework/host_discovery/host_discovery.py:83 | definition of the digit strings `int()` accepts: non-empty ASCII digits, a single `_` only between two digits (no contract of its own) |
| Text.ParseSignedLiteral | Downloads/recon_framework/host_discovery/host_discovery.py:83 | definition of `int()` on stripped text: an optional sign then a decimal literal, anything else `None` for `ValueError`; `Text.ParseIntOfIntToString` states its round trip (no contract of its own) |
| Text.ParseInt | Downloads/recon_framework/host_discovery/host_discovery.py:83 | definition of `int(text)`: strip, then `ParseSignedLiteral`; `Text.ParseNatToString` and `Text.ParseIntOfIntToString` state `int(str(i)) == i` (no contract of its own) |
| Settings.Lookup | Downloads/recon_framework/utils/config_validator.py:26 | `section.get(key)`: the stored value for a present key, `None` for an absent one |
| Settings.SectionOf | Downloads/recon_framework/utils/config_validator.py:25 | `config.get(name, {})`: the stored section for a present name, the empty section for an absent one |
| Settings.Get | Downloads/recon_framework/utils/config_validator.py:25-26 | `config.get(section, {}).get(key)`: the stored value when both section and key are present, `None` when either is absent |
| Settings.Truthy | Downloads/recon_framework/utils/config_validator.py:26-58 | definition of Python's `bool(v)`: `None`, `False`, `0`, `""` and `[]` are false, every other value true (no contract of its own) |
| LedgerStore.FindDomainIndex | Downloads/recon_framework/subdomain_enum/subdomain_enumeration.py:131 | `find_one({"domain": d})`: the found index holds `d` and no earlier record does, and there is no result exactly when no record holds `d` |
| LedgerStore.KnownNames | Downloads/recon_framework/subdomain_enum/subdomain_enumeration.py:131-135 | definition of `existing_subdomains`: the names of the record `find_one` returns, none without a record (no contract of its own) |
| LedgerStore.HasPair | Downloads/recon_framework/host_discovery/host_discovery.py:94-97 | definition of the `find_one({"subdomain", "port"})` test: some host target holds the pair (no contract of its own) |
| LedgerStore.NewestFirst | Downloads/recon_framework/host_discovery/host_discovery.py:48 | the batch has `min(len, limit)` records, the newest first, as the last records of the queue in reverse order |
| LedgerStore.NewestFirstIsSortedByDate | Downloads/recon_framework/host_discovery/host_discovery.py:48 | when dates never decrease in insertion order, the batch is sorted by `discovery_date` descending and no record left out is newer than one taken |
| LedgerStore.Ledger.constructor | Downloads/recon_framework/utils/db_handler.py:44-60 | the four collections start empty and the ledger invariant holds |
| LedgerStore.Ledger.Valid | Downloads/recon_framework/subdomain_enum/subdomain_enumeration.py:131-136 | definition of the ledger invariant the stages keep: one record per domain, no name twice in a record, no `(subdomain, port)` pair twice (no contract of its own; preserved by `SubdomainEnumeration.Run` and `HostDiscovery.Run`) |
| LedgerStore.Ledger.FindDomain | Downloads/recon_framework/subdomain_enum/subdomain_enumeration.py:131 | the lookup by domain agrees with `FindDomainIndex` |
| LedgerStore.Ledger.PushSubdomains | Downloads/recon_framework/subdomain_enum/subdomain_enumeration.py:160-163 | `$push $each`: the entries are appended to that record's subdomains, and nothing else changes |
| LedgerStore.Ledger.InsertDomain | Downloads/recon_framework/subdomain_enum/subdomain_enumeration.py:198-203 | the record is appended, and the other collections are unchanged |
| LedgerStore.Ledger.InsertPending | Downloads/recon_framework/subdomain_enum/subdomain_enumeration.py:167-171 | the pending record is appended, and the other collections are unchanged |
| LedgerStore.Ledger.RecentPending | Downloads/recon_framework/host_discovery/host_discovery.py:48 | the query returns `NewestFirst(pending, limit)` |
| LedgerStore.Ledger.FindHost | Downloads/recon_framework/host_discovery/host_discovery.py:94-97 | `find_one({"subdomain", "port"})` succeeds exactly when the pair is recorded |
| LedgerStore.Ledger.InsertHost | Downloads/recon_framework/host_discovery/host_discovery.py:109 | the host target is appended, and the other collections are unchanged |
| LedgerStore.Ledger.InsertNotification | Downloads/recon_framework/notification/notification_handler.py:95-96 | the notification is appended, and the other collections are unchanged |
| SubdomainEnumeration.KeepSubdomains | Downloads/recon_framework/subdomain_enum/subdomain_enumeration.py:85-88 | no more names than lines; every kept name is stripped, ends in `.<domain>` and differs from the domain |
| SubdomainEnumeration.KeptLine | Downloads/recon_framework/subdomain_enum/subdomain_enumeration.py:87 | a kept name is never the bare domain |
| SubdomainEnumeration.IsSubdomainOf | Downloads/recon_framework/subdomain_enum/subdomain_enumeration.py:87 | definition of the comprehension's filter: the stripped line is non-empty and ends with `.` plus the domain (no contract of its own) |
| SubdomainEnumeration.KeptOf | Downloads/recon_framework/subdomain_enum/subdomain_enumeration.py:85-88 | definition of what one line contributes: its strip when that passes the filter, else nothing (no contract of its own) |
| SubdomainEnumeration.KeepSubdomainsCons | Downloads/recon_framework/subdomain_enum/subdomain_enumeration.py:85-88 | the comprehension is the first line's contribution followed by the rest's |
| SubdomainEnumeration.KeepSubdomainsPrepend | Downloads/recon_framework/subdomain_enum/subdomain_enumeration.py:85-88 | a line put in front contributes first |
| SubdomainEnumeration.KeepSubdomainsAppend | Downloads/recon_framework/subdomain_enum/subdomain_enumeration.py:85-88 | the comprehension keeps line order: the names of `a + b` are those of `a` followed by those of `b` |
| SubdomainEnumeration.KeepSubdomainsComplete | Downloads/recon_framework/subdomain_enum/subdomain_enumeration.py:85-88 | every line whose strip ends in `.<domain>` has that strip kept |
| SubdomainEnumeration.KeepSubdomainsSound | Downloads/recon_framework/subdomain_enum/subdomain_enumeration.py:85-88 | every kept name is the strip of some output line and passes the filter: nothing is invented |
| SubdomainEnumeration.KeepSubdomainsExact | Downloads/recon_framework/subdomain_enum/subdomain_enumeration.py:85-88 | a name is kept iff it is the strip of some line and passes the filter |
| SubdomainEnumeration.ToolNames | Downloads/recon_framework/subdomain_enum/subdomain_enumeration.py:73-115 | definition of one tool's list: empty when the tool is missing, fails or prints nothing, else the comprehension over its lines (no contract of its own) |
| SubdomainEnumeration.Printed | Downloads/recon_framework/subdomain_enum/subdomain_enumeration.py:77-88 | definition: the tool ran and printed a line whose strip is the name and passes the filter (no contract of its own) |
| SubdomainEnumeration.ToolNamePrinted | Downloads/recon_framework/subdomain_enum/subdomain_enumeration.py:73-115 | a name in a tool's list comes from an available tool that printed it |
| SubdomainEnumeration.UnionOf | Downloads/recon_framework/subdomain_enum/subdomain_enumeration.py:123-126 | definition of `all_subdomains`: the union of the two tools' lists as a set (no contract of its own) |
| SubdomainEnumeration.Candidates | Downloads/recon_framework/subdomain_enum/subdomain_enumeration.py:123-126 | definition of `all_subdomains` for a domain from both tools' runs (no contract of its own) |
| SubdomainEnumeration.CandidatePrinted | Downloads/recon_framework/subdomain_enum/subdomain_enumeration.py:73-126 | every name in `all_subdomains` was printed by subfinder or assetfinder, whichever was available; so every stored name was printed by a tool |
| SubdomainEnumeration.NewNames | Downloads/recon_framework/subdomain_enum/subdomain_enumeration.py:124-136 | the set difference: a name is new iff some tool printed it and it is not known; no name twice; nothing is new when every candidate is known |
| SubdomainEnumeration.SourceTool | Downloads/recon_framework/subdomain_enum/subdomain_enumeration.py:143-149 | subfinder iff subfinder printed the name, assetfinder iff only assetfinder did, none iff neither did |
| SubdomainEnumeration.EntriesFor | Downloads/recon_framework/subdomain_enum/subdomain_enumeration.py:142-157 | one entry per name, in order, dated `now`, with its source tool |
| SubdomainEnumeration.PendingFor | Downloads/recon_framework/subdomain_enum/subdomain_enumeration.py:166-171 | one pending record per name, in order, for this domain, dated `now` |
| SubdomainEnumeration.NamesAfterPush | Downloads/recon_framework/subdomain_enum/subdomain_enumeration.py:160-163 | after the push, the record's names are the old names plus the pushed ones |
| SubdomainEnumeration.EnumerateDomain | Downloads/recon_framework/subdomain_enum/subdomain_enumeration.py:130-213 | one domain: the new names are exactly the union minus the known names, each once; they are enqueued in order; with no new name, an existing record is untouched |
| SubdomainEnumeration.EnumerateAllExtend | Downloads/recon_framework/subdomain_enum/subdomain_enumeration.py:60-213 | handling one more domain runs both tools on it and appends its new names to the returned list |
| SubdomainEnumeration.EnumerateAll | Downloads/recon_framework/subdomain_enum/subdomain_enumeration.py:60-213 | definition of the loop over target domains: each domain's step applied to the ledger left by the previous ones, new names concatenated in target order (no contract of its own; `EnumerateAllKeepsValid`, `EnumerateAllCovers` and `SecondRunAddsNothing` state its properties) |
| SubdomainEnumeration.FindAfterReplace | Downloads/recon_framework/subdomain_enum/subdomain_enumeration.py:160-163 | updating a record in place does not move any domain's lookup |
| SubdomainEnumeration.FindAfterAppend | Downloads/recon_framework/subdomain_enum/subdomain_enumeration.py:198-203 | inserting a record makes only that domain newly findable, at the end |
| SubdomainEnumeration.KnownNamesAfterUpdate | Downloads/recon_framework/subdomain_enum/subdomain_enumeration.py:133-175 | for an existing record, the domain's known names grow by exactly the union, and other domains are untouched |
| SubdomainEnumeration.UnionIsKnownAfterPush | Downloads/recon_framework/subdomain_enum/subdomain_enumeration.py:135-163 | pushing the new names makes every union name known |
| SubdomainEnumeration.KnownNamesAfterInsert | Downloads/recon_framework/subdomain_enum/subdomain_enumeration.py:176-203 | for a first-seen domain, its known names become the union, and other domains are untouched |
| SubdomainEnumeration.EnumerateDomainKnownNames | Downloads/recon_framework/subdomain_enum/subdomain_enumeration.py:130-213 | after one domain is handled, it is findable and its known names are the old ones plus the union |
| SubdomainEnumeration.PushKeepsNamesUnique | Downloads/recon_framework/subdomain_enum/subdomain_enumeration.py:160-163 | pushing distinct names that are not yet in a record keeps its names unique |
| SubdomainEnumeration.EnumerateDomainKeepsValid | Downloads/recon_framework/subdomain_enum/subdomain_enumeration.py:124-213 | one domain keeps records unique per domain and names unique per record |
| SubdomainEnumeration.ReplaceKeepsValid | Downloads/recon_framework/subdomain_enum/subdomain_enumeration.py:160-163 | updating a record in place, with unique names, keeps one record per domain and unique names per record |
| SubdomainEnumeration.AppendKeepsValid | Downloads/recon_framework/subdomain_enum/subdomain_enumeration.py:198-203 | inserting a record for a domain that had none, with unique names, keeps the ledger valid |
| SubdomainEnumeration.EnumerateAllKeepsValid | Downloads/recon_framework/subdomain_enum/subdomain_enumeration.py:60-213 | a whole run keeps names unique inside every domain record |
| SubdomainEnumeration.EnumerateAllCovers | Downloads/recon_framework/subdomain_enum/subdomain_enumeration.py:60-213 | after a run, every name either tool printed for every target is known for that target |
| SubdomainEnumeration.EnumerateDomainOverCovered | Downloads/recon_framework/subdomain_enum/subdomain_enumeration.py:135-175 | a known domain whose union is already known gets no new names and an unchanged ledger |
| SubdomainEnumeration.EnumerateAllOverCovered | Downloads/recon_framework/subdomain_enum/subdomain_enumeration.py:60-225 | a run over domains that are all covered changes nothing and returns no names |
| SubdomainEnumeration.SecondRunAddsNothing | Downloads/recon_framework/subdomain_enum/subdomain_enumeration.py:135-138 | idempotence: a second run with the same tool outputs returns nothing and leaves the ledger as the first run left it |
| SubdomainEnumeration.FirstSightOfDomain | Downloads/recon_framework/subdomain_enum/subdomain_enumeration.py:176-203 | a first-seen domain gets one appended record, holding exactly the union's names |
| SubdomainEnumeration.EnumerateDomainRecords | Downloads/recon_framework/subdomain_enum/subdomain_enumeration.py:133-203 | the records after one iteration: a known domain's record gains the new names' entries appended after its old ones (unchanged when nothing is new); an unseen domain gets one appended record holding exactly those entries |
| SubdomainEnumeration.NewEntriesAttributed | Downloads/recon_framework/subdomain_enum/subdomain_enumeration.py:143-203 | after one iteration the domain has a record whose subdomains are its old entries followed by the new names' entries, and every entry from the old length onwards has a source tool (never `None`) |
| SubdomainEnumeration.EntriesAttributed | Downloads/recon_framework/subdomain_enum/subdomain_enumeration.py:181-187 | names drawn from the tools' lists always get a source tool |
| SubdomainEnumeration.FirstSightReportsAll | Downloads/recon_framework/subdomain_enum/subdomain_enumeration.py:206-213 | a first-seen domain reports every union name, and reports something when a tool printed anything |
| SubdomainEnumeration.WellFormedLinesKept | Downloads/recon_framework/subdomain_enum/subdomain_enumeration.py:85-88 | lines that are already clean subdomains are all kept, in order |
| SubdomainEnumeration.TwoLinesSplit | Downloads/recon_framework/tests/test_framework.py:122-125 | two newline-free lines joined by a newline split back into those two |
| SubdomainEnumeration.TwoLinesKept | Downloads/recon_framework/tests/test_framework.py:122-125 | two clean subdomain lines are both kept |
| SubdomainEnumeration.TwoToolsScenario | Downloads/recon_framework/tests/test_framework.py:122-141 | with outputs `s1,s2` and `s2,s3` for a new domain: names `s1,s2,s3`, one record attributing `s1,s2` to subfinder and `s3` to assetfinder, three pending records |
| SubdomainEnumeration.ScenarioStep | Downloads/recon_framework/subdomain_enum/subdomain_enumeration.py:176-213 | the same scenario stated on the parsed name lists |
| SubdomainEnumeration.ScenarioNames | Downloads/recon_framework/subdomain_enum/subdomain_enumeration.py:124-126 | the union of `s1,s2` and `s2,s3` deduplicates to `s1,s2,s3` |
| SubdomainEnumeration.BuildEntries | Downloads/recon_framework/subdomain_enum/subdomain_enumeration.py:180-195 | the loop builds `EntriesFor` the names |
| SubdomainEnumeration.EnqueueAll | Downloads/recon_framework/subdomain_enum/subdomain_enumeration.py:206-211 | the pending queue grows by `PendingFor` the names, and nothing else changes |
| SubdomainEnumeration.ProcessDomain | Downloads/recon_framework/subdomain_enum/subdomain_enumeration.py:123-213 | the ledger becomes `EnumerateDomain` of the old ledger, and the new names are returned |
| SubdomainEnumeration.Run | Downloads/recon_framework/subdomain_enum/subdomain_enumeration.py:15-225 | no targets or no tool gives the error and an untouched ledger; otherwise the ledger and result equal `EnumerateAll`; hosts and notifications are untouched; the ledger invariant is kept |
| HostDiscovery.Announced | Downloads/recon_framework/host_discovery/host_discovery.py:77-86 | one parse result per output line |
| HostDiscovery.PortOfLine | Downloads/recon_framework/host_discovery/host_discovery.py:78-86 | definition of one line's port: the stripped line must be non-empty and split on `:` into exactly two parts, the second of which `int()` accepts (no contract of its own; `PortOfLineNeedsOneColon` and `PortOfPortLine` state both directions) |
| HostDiscovery.OpenPorts | Downloads/recon_framework/host_discovery/host_discovery.py:75-86 | definition of `open_ports`: the ports of the stripped output's lines in line order, none for empty output (no contract of its own; `OpenPortsAnnounced` and `OpenPortsOfListing` state its properties) |
| HostDiscovery.Label | Downloads/recon_framework/host_discovery/host_discovery.py:110 | definition of a `new_hosts` entry, `f"{subdomain}:{port}"` (no contract of its own) |
| HostDiscovery.Present | Downloads/recon_framework/host_discovery/host_discovery.py:76-84 | the ports collected are exactly those some line announced |
| HostDiscovery.PresentExtend | Downloads/recon_framework/host_discovery/host_discovery.py:77-84 | one more line appends its port, if any |
| HostDiscovery.OpenPortsAnnounced | Downloads/recon_framework/host_discovery/host_discovery.py:75-86 | a port is open iff the output is non-empty and some line of its strip parses to that port |
| HostDiscovery.AnnouncedMembers | Downloads/recon_framework/host_discovery/host_discovery.py:77-86 | a port is announced iff some line parses to it |
| HostDiscovery.PortOfLineNeedsOneColon | Downloads/recon_framework/host_discovery/host_discovery.py:79-81 | a line yields a port only if its strip has exactly one colon |
| HostDiscovery.PortOfPortLine | Downloads/recon_framework/host_discovery/host_discovery.py:79-84 | a line `host:port` parses back to `port` |
| HostDiscovery.Listing | Downloads/recon_framework/tests/test_framework.py:150 | naabu's listing: one `host:port` line per port, in order |
| HostDiscovery.AnnouncedListing | Downloads/recon_framework/host_discovery/host_discovery.py:77-84 | every line of a listing announces its port |
| HostDiscovery.PresentOfAll | Downloads/recon_framework/host_discovery/host_discovery.py:76-84 | when every line announces a port, all ports are collected in order |
| HostDiscovery.JoinStartsWithFirst | Downloads/recon_framework/host_discovery/host_discovery.py:77 | a join starts with its first part's first character |
| HostDiscovery.JoinEndsWithLast | Downloads/recon_framework/host_discovery/host_discovery.py:77 | a join ends with its last part's last character |
| HostDiscovery.OpenPortsOfListing | Downloads/recon_framework/host_discovery/host_discovery.py:75-86 | round trip: parsing naabu's newline-joined listing gives back exactly its ports |
| HostDiscovery.ListingIsTrimmed | Downloads/recon_framework/host_discovery/host_discovery.py:77 | a non-empty listing has no whitespace at either end, so `strip()` leaves it alone |
| HostDiscovery.ListingSplits | Downloads/recon_framework/host_discovery/host_discovery.py:77 | a listing splits on newlines back into its lines |
| HostDiscovery.RecordPorts | Downloads/recon_framework/host_discovery/host_discovery.py:92-113 | existing targets are kept as they were; each added target is new for its pair, has both scan flags false, and gets one `subdomain:port` label in insertion order |
| HostDiscovery.NewTarget | Downloads/recon_framework/host_discovery/host_discovery.py:101-107 | definition of the inserted document: subdomain, port, discovery date `now`, neither scan flag set (no contract of its own) |
| HostDiscovery.RecordPortsPairs | Downloads/recon_framework/host_discovery/host_discovery.py:92-111 | after recording, a pair is held iff it was held before or it is this subdomain with an output port |
| HostDiscovery.RecordPortsKeepsUnique | Downloads/recon_framework/host_discovery/host_discovery.py:92-111 | recording keeps `(subdomain, port)` unique, even when the output repeats a port |
| HostDiscovery.RecordPortsAllKnown | Downloads/recon_framework/host_discovery/host_discovery.py:99-113 | when every port is already recorded, nothing is added |
| HostDiscovery.Probed | Downloads/recon_framework/host_discovery/host_discovery.py:59-62 | the subdomains scanned are the non-empty ones in the batch |
| HostDiscovery.ScanOf | Downloads/recon_framework/host_discovery/host_discovery.py:66-120 | definition of one naabu call's result: nothing when it raises, else the open ports its output announces (no contract of its own) |
| HostDiscovery.Scanner | Downloads/recon_framework/host_discovery/host_discovery.py:66-72 | definition of the scan oracle: `ScanOf` of naabu's run on each subdomain (no contract of its own) |
| HostDiscovery.DiscoverAll | Downloads/recon_framework/host_discovery/host_discovery.py:59-120 | definition of the loop over the batch: records without a subdomain and failed scans skipped, each other subdomain's ports recorded in turn (no contract of its own; `DiscoverAllPairs`, `DiscoverAllKeepsUnique` and `DiscoverAllAppends` state its properties) |
| HostDiscovery.ScannedPorts | Downloads/recon_framework/host_discovery/host_discovery.py:59-88 | definition of the ports a batch record contributes: none when skipped or failed (no contract of its own) |
| HostDiscovery.DiscoverAllAppends | Downloads/recon_framework/host_discovery/host_discovery.py:56-111 | a run only appends targets, each for a non-empty subdomain with both flags false, each with one label |
| HostDiscovery.ScannedExtend | Downloads/recon_framework/host_discovery/host_discovery.py:59-120 | one more batch record adds exactly its own scanned pairs |
| HostDiscovery.DiscoverStepPairs | Downloads/recon_framework/host_discovery/host_discovery.py:59-120 | one more batch record adds exactly its scanned pairs to the targets |
| HostDiscovery.DiscoverAllPairs | Downloads/recon_framework/host_discovery/host_discovery.py:59-120 | after a run, a pair is held iff it was held before or some scan of the batch announced it; a failed scan adds nothing and the rest go on |
| HostDiscovery.DiscoverAllKeepsUnique | Downloads/recon_framework/host_discovery/host_discovery.py:92-111 | a run keeps `(subdomain, port)` unique |
| HostDiscovery.DiscoverAllAllKnown | Downloads/recon_framework/host_discovery/host_discovery.py:92-113 | when every scanned pair is already held, a run adds nothing |
| HostDiscovery.SecondScanAddsNothing | Downloads/recon_framework/host_discovery/host_discovery.py:92-113 | idempotence: rescanning the same batch with the same outputs adds nothing |
| HostDiscovery.KnownPortScenario | Downloads/recon_framework/host_discovery/host_discovery.py:92-113 | with port 80 already recorded, ports 80 and 443 add only 443, and the existing record keeps its flags |
| HostDiscovery.ParseNaabuOutput | Downloads/recon_framework/host_discovery/host_discovery.py:75-86 | the parsing step returns `OpenPorts(output)`: nothing for an empty output, else the ports its stripped lines announce |
| HostDiscovery.CollectPorts | Downloads/recon_framework/host_discovery/host_discovery.py:77-86 | the loop over the lines collects, in order, the port each line announces |
| HostDiscovery.RecordPortsLast | Downloads/recon_framework/host_discovery/host_discovery.py:92-111 | the last port is inserted iff its pair is not held after the earlier ports |
| HostDiscovery.HasPairAppend | Downloads/recon_framework/host_discovery/host_discovery.py:94-109 | after inserting a target, a pair is held iff it was held before or is the new target's |
| HostDiscovery.PrefixesOfAppend | Downloads/recon_framework/host_discovery/host_discovery.py:109 | an insertion leaves the earlier targets in place |
| HostDiscovery.RecordOpenPorts | Downloads/recon_framework/host_discovery/host_discovery.py:92-113 | the check-then-insert loop leaves the targets `RecordPorts` computes and returns its labels |
| HostDiscovery.DiscoverAllExtend | Downloads/recon_framework/host_discovery/host_discovery.py:59-120 | one more batch record is skipped when empty or when its scan failed, and is otherwise recorded |
| HostDiscovery.Run | Downloads/recon_framework/host_discovery/host_discovery.py:14-125 | without naabu: the error, no scan and an untouched ledger; otherwise the 100 newest pending records are scanned and the targets and `new_hosts` equal `DiscoverAll`; the ledger invariant is kept |
| NotificationTiering.Lower | Downloads/recon_framework/notification/notification_handler.py:53 | `lower()` keeps the length and lower-cases each character |
| NotificationTiering.LowerIdempotent | Downloads/recon_framework/notification/notification_handler.py:53 | lower-casing twice is lower-casing once |
| NotificationTiering.Classify | Downloads/recon_framework/notification/notification_handler.py:53-57 | a missing severity is info; any other class is reached only by that name, in any case |
| NotificationTiering.ClassifyName | Downloads/recon_framework/notification/notification_handler.py:52-57 | each of the five names classifies as itself |
| NotificationTiering.ClassifyIgnoresCase | Downloads/recon_framework/notification/notification_handler.py:53 | classification ignores case |
| NotificationTiering.ClassifyUnknown | Downloads/recon_framework/notification/notification_handler.py:54-57 | an unrecognised severity is info |
| NotificationTiering.OfSeverity | Downloads/recon_framework/notification/notification_handler.py:51-57 | a group holds only input findings of that class, no more than there are findings; `OfSeverityAppend` states that it keeps input order |
| NotificationTiering.KeptIf | Downloads/recon_framework/notification/notification_handler.py:52-57 | definition: a finding alone when it belongs to the class, else nothing (no contract of its own) |
| NotificationTiering.OfSeveritySnoc | Downloads/recon_framework/notification/notification_handler.py:52-57 | a class's list unfolds at the last finding |
| NotificationTiering.OfSeverityAppend | Downloads/recon_framework/notification/notification_handler.py:52-57 | a class's list keeps input order: for `xs + ys` it is the list for `xs` followed by the list for `ys` |
| NotificationTiering.Grouped | Downloads/recon_framework/notification/notification_handler.py:44-57 | definition of `severity_groups`: one `OfSeverity` list per key (no contract of its own; `GroupsPartition` and `GroupBySeverity` state its properties) |
| NotificationTiering.GroupedExtend | Downloads/recon_framework/notification/notification_handler.py:51-57 | one more finding is appended to its own class's group only |
| NotificationTiering.GroupedSnoc | Downloads/recon_framework/notification/notification_handler.py:51-57 | grouping one more finding adds it to its class |
| NotificationTiering.TotalAdd | Downloads/recon_framework/notification/notification_handler.py:55-57 | adding a finding to a group adds it once to the total |
| NotificationTiering.TotalSnoc | Downloads/recon_framework/notification/notification_handler.py:51-57 | one more finding adds it once to the groups' total |
| NotificationTiering.MultisetSnoc | Downloads/recon_framework/notification/notification_handler.py:51 | a list's multiset is its front's plus its last element |
| NotificationTiering.GroupsPartition | Downloads/recon_framework/notification/notification_handler.py:43-57 | partition: the five groups together hold every finding exactly once |
| NotificationTiering.GroupBySeverity | Downloads/recon_framework/notification/notification_handler.py:43-57 | the grouping loop fills each group with `OfSeverity` of the input |
| NotificationTiering.TierNotesShape | Downloads/recon_framework/notification/notification_handler.py:62-92 | each tier yields at most one notification, of that tier, carrying its findings and count |
| NotificationTiering.TierFindings | Downloads/recon_framework/notification/notification_handler.py:62-92 | definition of a tier's findings: critical then high, medium, low then info (no contract of its own) |
| NotificationTiering.TierMessage | Downloads/recon_framework/notification/notification_handler.py:64-92 | definition of the three message f-strings with the count inserted (no contract of its own; `MessageCount` states that the count reads back) |
| NotificationTiering.TierNotes | Downloads/recon_framework/notification/notification_handler.py:62-92 | definition of one tier's block: one notification when its findings are non-empty, none otherwise (no contract of its own) |
| NotificationTiering.Tiered | Downloads/recon_framework/notification/notification_handler.py:60-92 | definition of the `notifications` list: urgent, medium, low, empty tiers skipped (no contract of its own; `TieredShape` and `TieredPartition` state its properties) |
| NotificationTiering.TieredShape | Downloads/recon_framework/notification/notification_handler.py:60-92 | at most three notifications, in the order urgent, medium, low, each carrying its tier's findings |
| NotificationTiering.TieredSkipsEmpty | Downloads/recon_framework/notification/notification_handler.py:64-85 | a tier has a notification iff it has findings |
| NotificationTiering.CarriedAppend | Downloads/recon_framework/notification/notification_handler.py:60-92 | the findings carried by two lists of notifications are the concatenation |
| NotificationTiering.CarriedTierNotes | Downloads/recon_framework/notification/notification_handler.py:63-92 | a tier's notifications carry exactly the tier's findings |
| NotificationTiering.CarriedTiered | Downloads/recon_framework/notification/notification_handler.py:63-92 | the notifications carry critical, high, medium, low, info, in that order |
| NotificationTiering.TieredPartition | Downloads/recon_framework/notification/notification_handler.py:43-92 | every input finding appears in exactly one notification |
| NotificationTiering.NumeralNoSpace | Downloads/recon_framework/notification/notification_handler.py:66 | a count has no spaces |
| NotificationTiering.CountFirst | Downloads/recon_framework/notification/notification_handler.py:76 | in "n text", the first word is the count |
| NotificationTiering.CountSecond | Downloads/recon_framework/notification/notification_handler.py:66 | in "word n text", the second word is the count |
| NotificationTiering.ParseCount | Downloads/recon_framework/notification/notification_handler.py:66 | the count word reads back as the count |
| NotificationTiering.MessageCount | Downloads/recon_framework/notification/notification_handler.py:66-87 | each tier's message embeds the number of its findings, which reads back from the message |
| NotificationTiering.UrgentCountWord | Downloads/recon_framework/notification/notification_handler.py:66 | in the urgent message, the count is the word after "URGENT:" |
| NotificationTiering.EmbedFields | Downloads/recon_framework/notification/notification_handler.py:219-231 | an embed has `min(n, 10)` numbered finding fields, in order, plus one more field when n > 10 |
| NotificationTiering.TierName | Downloads/recon_framework/notification/notification_handler.py:65-92 | definition of the stored tier names `urgent`, `medium`, `low` (no contract of its own) |
| NotificationTiering.Color | Downloads/recon_framework/notification/notification_handler.py:199-205 | definition of the embed colour per tier (no contract of its own; `EmbedColours` states it both ways) |
| NotificationTiering.SeverityText | Downloads/recon_framework/notification/notification_handler.py:222 | definition of how the f-string prints a severity: `None` when absent (no contract of its own) |
| NotificationTiering.FindingField | Downloads/recon_framework/notification/notification_handler.py:220-225 | definition of the `i`-th finding field's name and value text (no contract of its own) |
| NotificationTiering.OverflowField | Downloads/recon_framework/notification/notification_handler.py:227-232 | definition of the "Additional Vulnerabilities" field (no contract of its own; `OverflowCount` states that its count reads back) |
| NotificationTiering.BuildEmbed | Downloads/recon_framework/notification/notification_handler.py:207-232 | definition of the embed: title the message, description `Severity: ` plus the tier name, the tier's colour, the first ten finding fields and the overflow field (no contract of its own; `EmbedFields` and `EmbedOverflow` state its shape) |
| NotificationTiering.FindingFieldIsNotOverflow | Downloads/recon_framework/notification/notification_handler.py:219-232 | a finding field is never named like the overflow field |
| NotificationTiering.EmbedOverflow | Downloads/recon_framework/notification/notification_handler.py:227-232 | a field named like the overflow field appears iff n > 10, and it is then the eleventh field, counting n - 10 |
| NotificationTiering.OverflowCount | Downloads/recon_framework/notification/notification_handler.py:230 | the number in the overflow text ("Plus k more …") reads back as the count k of findings left out |
| NotificationTiering.EmbedColours | Downloads/recon_framework/notification/notification_handler.py:199-204 | red iff urgent, orange iff medium, green iff low |
| NotificationTiering.Stores | Downloads/recon_framework/notification/notification_handler.py:95-96 | one store event per notification, in order |
| NotificationTiering.EmailConfigured | Downloads/recon_framework/notification/notification_handler.py:131-137 | definition: both Gmail credentials are truthy (no contract of its own) |
| NotificationTiering.DiscordConfigured | Downloads/recon_framework/notification/notification_handler.py:187-192 | definition: the Discord webhook URL is truthy (no contract of its own) |
| NotificationTiering.SendEmail | Downloads/recon_framework/notification/notification_handler.py:120-174 | definition of `send_email_notification`: false without credentials, else the transport's verdict (no contract of its own) |
| NotificationTiering.SendDiscord | Downloads/recon_framework/notification/notification_handler.py:176-245 | definition of `send_discord_notification`: false without a webhook, else the verdict on the built embed (no contract of its own) |
| NotificationTiering.Delivered | Downloads/recon_framework/notification/notification_handler.py:102-113 | definition of what one notification adds to `notifications_sent`: one for an urgent e-mail sent, one for a Discord post sent (no contract of its own) |
| NotificationTiering.SentCount | Downloads/recon_framework/notification/notification_handler.py:99-113 | definition of `notifications_sent` over the list (no contract of its own; `SentCountBound` and `DeliverAll` state its properties) |
| NotificationTiering.Deliveries | Downloads/recon_framework/notification/notification_handler.py:101-113 | definition of the transport calls in order (no contract of its own; `DeliveriesAreTransportCalls` states its properties) |
| NotificationTiering.UrgentCount | Downloads/recon_framework/notification/notification_handler.py:105 | definition of the number of urgent notifications (no contract of its own) |
| NotificationTiering.DeliveriesAreTransportCalls | Downloads/recon_framework/notification/notification_handler.py:101-113 | deliveries are no stores; e-mail only for urgent notes with Gmail credentials; Discord only with a webhook |
| NotificationTiering.SentAtMostAttempts | Downloads/recon_framework/notification/notification_handler.py:99-113 | the sent count never exceeds the delivery attempts |
| NotificationTiering.SentCountBound | Downloads/recon_framework/notification/notification_handler.py:99-113 | the sent count is at most one per notification plus one per urgent notification |
| NotificationTiering.UrgentCountAppend | Downloads/recon_framework/notification/notification_handler.py:101-108 | urgent notes of a concatenation add up |
| NotificationTiering.TierNotesUrgentCount | Downloads/recon_framework/notification/notification_handler.py:62-71 | only a non-empty urgent tier yields an urgent notification, exactly one |
| NotificationTiering.TieredUrgentCount | Downloads/recon_framework/notification/notification_handler.py:60-92 | at most one notification is urgent |
| NotificationTiering.TieredSentBound | Downloads/recon_framework/notification/notification_handler.py:99-113 | `notifications_sent` is at most the number of tiers plus one |
| NotificationTiering.OfSeverityPair | Downloads/recon_framework/notification/notification_handler.py:51-57 | grouping two findings keeps input order within a class |
| NotificationTiering.HighAndCriticalScenario | Downloads/recon_framework/tests/test_framework.py:224-250 | one high and one critical finding give one urgent notification (critical first, count 2), and two sends when both channels succeed |
| NotificationTiering.HighAndCriticalGroups | Downloads/recon_framework/tests/test_framework.py:224-242 | one high and one critical finding fill only the critical and high groups |
| NotificationTiering.NoFindingsNoNotes | Downloads/recon_framework/notification/notification_handler.py:37-39 | no findings, no notifications |
| NotificationTiering.BuildNotifications | Downloads/recon_framework/notification/notification_handler.py:60-92 | the tier-building code builds `Tiered` of the groups |
| NotificationTiering.StoreAll | Downloads/recon_framework/notification/notification_handler.py:94-96 | every notification is appended to the ledger, in order, and nothing else changes |
| NotificationTiering.DeliverAll | Downloads/recon_framework/notification/notification_handler.py:98-113 | the delivery loop counts `SentCount` and calls the transports `Deliveries` lists |
| NotificationTiering.SendNotifications | Downloads/recon_framework/notification/notification_handler.py:16-118 | no findings: 0 sent and an untouched ledger; otherwise the tiers are stored, then delivered, and the count is `SentCount` |
| NotificationTiering.StoresFirst | Downloads/recon_framework/notification/notification_handler.py:94-113 | every store precedes every delivery attempt |
| ConfigValidation.MissingSettings | Downloads/recon_framework/utils/config_validator.py:22-59 | a setting is listed iff it is checked and lacking, with no more entries than checks |
| ConfigValidation.GmailConfigured | Downloads/recon_framework/utils/config_validator.py:48-51 | definition: both Gmail credentials are truthy (no contract of its own) |
| ConfigValidation.Lacks | Downloads/recon_framework/utils/config_validator.py:25-59 | definition of each check's condition, one per reported label (no contract of its own; `MissingReportsExactly` ties it to the report) |
| ConfigValidation.DomainsUnsized | Downloads/recon_framework/utils/config_validator.py:35 | definition: a truthy `targets.domains` without a length, on which `len` raises `TypeError` (no contract of its own) |
| ConfigValidation.Labels | Downloads/recon_framework/utils/config_validator.py:27-59 | one reported name per setting, in order |
| ConfigValidation.Reported | Downloads/recon_framework/utils/config_validator.py:26-59 | a check appends its one name iff the setting is lacking |
| ConfigValidation.MissingLabelsSnoc | Downloads/recon_framework/utils/config_validator.py:22-59 | one more check appends its report to the list |
| ConfigValidation.LabelsAppend | Downloads/recon_framework/utils/config_validator.py:27-59 | reporting one more setting appends its name |
| ConfigValidation.MissingInCheckOrder | Downloads/recon_framework/utils/config_validator.py:25-59 | the missing settings keep the check order |
| ConfigValidation.LabelInjective | Downloads/recon_framework/utils/config_validator.py:27-59 | different settings are reported under different names |
| ConfigValidation.PrefixSteps | Downloads/recon_framework/utils/config_validator.py:25-59 | each prefix of the eight checks is the previous one plus one check |
| ConfigValidation.MissingOfEight | Downloads/recon_framework/utils/config_validator.py:22-59 | eight checks in a row report in order |
| ConfigValidation.MissingByCheck | Downloads/recon_framework/utils/config_validator.py:22-59 | the missing list is host, port, database, domains, enumerator, naabu, nuclei, notifier reports, in that order |
| ConfigValidation.Check | Downloads/recon_framework/utils/config_validator.py:25-59 | each `if not …: append` check appends exactly `Reported` |
| ConfigValidation.ValidateConfig | Downloads/recon_framework/utils/config_validator.py:10-67 | raises `TypeError` iff `targets.domains` is truthy without a length; otherwise returns the ordered missing list, and is valid iff it is empty |
| ConfigValidation.EverySettingChecked | Downloads/recon_framework/utils/config_validator.py:25-59 | every required setting is checked |
| ConfigValidation.MissingReportsExactly | Downloads/recon_framework/utils/config_validator.py:25-59 | a setting's name is reported iff the configuration lacks it, e.g. the notifier iff the Gmail pair is incomplete and there is no webhook |
| ConfigValidation.MissingDistinct | Downloads/recon_framework/utils/config_validator.py:22-59 | the missing list has distinct entries and at most eight |
| ConfigValidation.AllSettingsInCheckOrder | Downloads/recon_framework/utils/config_validator.py:25-59 | the eight checks run in rank order, each setting once |
| ConfigValidation.OrderedLabelsDistinct | Downloads/recon_framework/utils/config_validator.py:27-59 | settings in check order are reported under distinct names |
| ConfigValidation.ValidWhenNothingLacks | Downloads/recon_framework/utils/config_validator.py:61-67 | the list is empty (valid) iff no setting is lacking |
| ConfigValidation.TestConfigComplete | Downloads/recon_framework/tests/test_framework.py:43-73 | the test configuration has every setting |
| ConfigValidation.TestConfigValid | Downloads/recon_framework/tests/test_framework.py:98-101 | the test configuration does not raise and reports nothing |
| ConfigValidation.HostOnlyLacks | Downloads/recon_framework/tests/test_framework.py:104-109 | a configuration with only `mongodb.host` lacks everything else |
| ConfigValidation.HostOnlyConfigInvalid | Downloads/recon_framework/tests/test_framework.py:104-112 | that configuration reports exactly the seven other settings |
| Pipeline.Effective | Downloads/recon_framework/main.py:137-140 | sending notifications with no scan result raises; otherwise a stage does what its call does |
| Pipeline.Selected | Downloads/recon_framework/main.py:89-93 | definition of the `run_…` flags: `all` or the stage's own module (no contract of its own) |
| Pipeline.Attempted | Downloads/recon_framework/main.py:104-137 | definition of each stage's guard: selected, and the first stage, or run-all, or a previous result with a non-empty list (no contract of its own) |
| Pipeline.Step | Downloads/recon_framework/main.py:103-145 | definition of one stage block: skip, or call and record, exiting on a raise outside run-all (no contract of its own; `StepExtends` and `RunAllStep` state its properties) |
| Pipeline.DriveFrom | Downloads/recon_framework/main.py:103-145 | definition of the stage blocks applied in order (no contract of its own) |
| Pipeline.Drive | Downloads/recon_framework/main.py:103-145 | definition of the four stage blocks in order (no contract of its own; `DriveOrder` and `RunAllOutcomes` state its properties) |
| Pipeline.DriveUnfolds | Downloads/recon_framework/main.py:103-145 | the driver handles subdomain, host, scan, notify, one step each |
| Pipeline.StepExtends | Downloads/recon_framework/main.py:103-145 | a step calls its stage or not, recording one outcome per call |
| Pipeline.AttemptedInOrder | Downloads/recon_framework/main.py:103-145 | the stages called are some of those offered, in order, with one outcome each |
| Pipeline.DriveOrder | Downloads/recon_framework/main.py:103-145 | stages are called in the order subdomain, host, scan, notify, each at most once |
| Pipeline.RunAllCallsEverything | Downloads/recon_framework/main.py:89-145 | in run-all mode every stage is called, whatever the earlier ones did, and the driver never exits early |
| Pipeline.RunAllOutcomes | Downloads/recon_framework/tests/test_framework.py:286-289 | run-all calls each stage exactly once; after a scan that raised, notifying raises too |
| Pipeline.RunAllStep | Downloads/recon_framework/main.py:103-145 | in run-all mode every step calls its stage, records what it did, and never exits |
| Pipeline.SingleLaterStageNeverRuns | Downloads/recon_framework/main.py:96-137 | with `--module` host, scan or notify, the upstream result stays `None`, so nothing is ever called |
| Pipeline.SubdomainOnlyRun | Downloads/recon_framework/main.py:103-112 | `--module subdomain` calls only that stage and exits 1 iff it raised |
| Pipeline.OverrideDomains | Downloads/recon_framework/main.py:68-72 | `targets.domains` becomes the given list; `targets` is created if absent; every other section and key is unchanged |
| Pipeline.Loaded | Downloads/recon_framework/main.py:62-65 | definition: a configuration was loaded and is not empty (no contract of its own) |
| Pipeline.ConfigInUse | Downloads/recon_framework/main.py:67-72 | definition: the override applies when domains are given (no contract of its own) |
| Pipeline.PreflightOf | Downloads/recon_framework/main.py:62-86 | definition of the checks before any stage, in order: load, validate, connect (no contract of its own; `DatabaseCheckedLast` states its order) |
| Pipeline.OverrideSatisfiesDomains | Downloads/recon_framework/main.py:68-75 | after a non-empty override, validation neither raises nor reports `targets.domains` |
| Pipeline.DatabaseCheckedLast | Downloads/recon_framework/main.py:75-86 | the database is consulted only for a loaded, valid configuration; no other verdict depends on it |
| Pipeline.OverrideNeverUnsized | Downloads/recon_framework/main.py:68-75 | with `--domains` given, validation never raises |
| Pipeline.RunStages | Downloads/recon_framework/main.py:88-145 | the gated stage blocks call, record and exit exactly as `Drive` says |
| Pipeline.Launch | Downloads/recon_framework/main.py:62-145 | no configuration, an invalid one or no database exits 1 before any stage; a domains value without a length crashes; otherwise the stages run as `Drive` says |

## Left out

- Subprocess calls, the `os.path.exists`/`shutil.which` path checks and the temporary JSON dump and its clean-up are not modelled. Tool availability is a boolean and tool output an oracle (`Failed` or the printed text).
- `datetime.now()`: each stage run receives one clock value `now`. All timestamps written in one run are therefore equal, where the source reads the clock per record.
- Repeated tool runs: subfinder's and assetfinder's output is a function of the domain (`SubdomainEnumeration.Toolset`). The source reruns subfinder and assetfinder for every entry of `targets.domains`, so a domain listed twice could see different output the second time; the model gives it the same output.
- Repeated naabu runs: naabu's output is a function of the subdomain (`HostDiscovery.Scanner`). The source reruns naabu for every batch record, so a subdomain pending twice could see different ports the second time; the model gives it the same ports.
- String-valued domains: the targets are a list of strings (`SubdomainEnumeration.Run`). A string-valued `targets.domains`, over which the source would iterate character by character, cannot be represented.
- SubdomainEnumeration.EnumerateDomain: Python sets have no defined iteration order. The model fixes the order of new names as first occurrence (subfinder's list, then assetfinder's). The source's order is arbitrary.
- The pending queue's `sort("discovery_date", -1)` is modelled as insertion order reversed. `LedgerStore.NewestFirstIsSortedByDate` shows the two agree when dates never decrease in insertion order.
- A pending record whose `subdomain` key is missing is modelled as an empty `subdomain` string. Both are skipped.
- HostDiscovery.RecordPorts: ports are unbounded integers and every parsed port is stored. In the source, a port outside the signed 64-bit range cannot be BSON-encoded, so the `find_one` at host_discovery.py:94-97 raises `OverflowError`; the `except Exception` at host_discovery.py:119-120 catches it, the subdomain's remaining ports are skipped, and the targets inserted before it stay. The model does not capture this 64-bit limit.
- MongoDB: the connection, the database-name lookup, query semantics beyond equality `find_one`, `insert_one` and `$push $each`, and exceptions raised by inserts are not modelled. The loader in `utils/config_loader.py` and the client set-up in `utils/db_handler.py` are not modelled. The loaded configuration is an `Option<Config>`, and the database is a boolean.
- The vulnerability-scan stage (`scan/vulnerability_scan.py`) is not part of this model. In the driver, every stage call is an oracle that raises or returns a result whose list is empty or not.
- Pipeline.Launch: the stage oracles are not tied to the stage models of this project, which use the same ledger. The link between the driver and the stages is the `Outcome` of each call only.
- The SMTP and Discord transports, the e-mail body and the embed's timestamp are not modelled. Delivery is an oracle (`mail`, `post`). The embed's title, description, colour and field texts are modelled (`NotificationTiering.BuildEmbed`).
- A finding's `vulnerability_type`, `host`, `description` and `source` are plain strings. A missing key, which the f-strings print as `None`, cannot be represented; only a missing `severity` can.
- NotificationTiering.Classify: a finding whose `severity` key is present but is `None`, or any other non-string value, makes the source raise on `.lower()`. The model has no such value: a severity is a string or absent, and an absent one (`None` in the model) is `info`.
- NotificationTiering.Lower: `str.lower()` is modelled for ASCII letters only. `Text.ParseInt` accepts ASCII digits only, and ignores `int()`'s limit on the number of digits.
- NotificationTiering.SendNotifications takes the findings list itself. Reading `scan_results.get('vulnerabilities', [])` is left out, except that a `None` scan result raises (see `Pipeline.Effective`).
- Configuration values are `None`, booleans, integers, strings and lists of values. Nested dictionaries as values are not modelled.
- `get_minimal_config_example` and `get_full_config_example` return constant text that is only logged. Logging, argument parsing (`--verbose`, `--config`) and the summary log lines of `main` are left out.
