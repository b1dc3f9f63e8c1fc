/**
 * The notification stage: findings are grouped by severity, folded into at
 * most three tiered notifications, stored, and then delivered by email
 * (urgent tier only) and to a Discord webhook (every tier).
 */
module NotificationTiering {
  import opened Wrappers
  import opened Text
  import opened Settings
  import opened LedgerStore

  /** The five keys of `severity_groups`. */
  datatype Severity = Critical | High | Medium | Low | Info

  /** `str.lower()` on one character, for ASCII letters. */
  function LowerChar(c: char): char {
    if 'A' <= c <= 'Z' then (c as int + 32) as char else c
  }

  /** `str.lower()` for ASCII text. */
  function Lower(s: string): (r: string)
    ensures |r| == |s|
    ensures forall i :: 0 <= i < |s| ==> r[i] == LowerChar(s[i])
  {
    seq(|s|, i requires 0 <= i < |s| => LowerChar(s[i]))
  }

  /** Lower-casing twice changes nothing more. */
  lemma LowerIdempotent(s: string)
    ensures Lower(Lower(s)) == Lower(s)
  {
  }

  const CriticalName: string := "critical"
  const HighName: string := "high"
  const MediumName: string := "medium"
  const LowName: string := "low"
  const InfoName: string := "info"

  /** The key under which a severity is grouped. */
  function SeverityName(sev: Severity): string {
    match sev
    case Critical => CriticalName
    case High => HighName
    case Medium => MediumName
    case Low => LowName
    case Info => InfoName
  }

  /**
   * The group of a finding: its severity, `info` when absent, lower-cased and
   * looked up among the five keys; any other value falls back to `info`.
   */
  function Classify(severity: Option<string>): (sev: Severity)
    ensures severity.None? ==> sev == Info
    ensures sev != Info ==> severity.Some? && Lower(severity.value) == SeverityName(sev)
  {
    var key := if severity.None? then InfoName else Lower(severity.value);
    if key == CriticalName then Critical
    else if key == HighName then High
    else if key == MediumName then Medium
    else if key == LowName then Low
    else Info
  }

  /** Each key classifies as its own severity. */
  lemma ClassifyName(sev: Severity)
    ensures Classify(Some(SeverityName(sev))) == sev
  {
    var name := SeverityName(sev);
    assert Lower(name) == name;
  }

  /** Classification ignores letter case. */
  lemma ClassifyIgnoresCase(s: string)
    ensures Classify(Some(s)) == Classify(Some(Lower(s)))
  {
    LowerIdempotent(s);
  }

  /** A value that is none of the five keys once lower-cased counts as `info`. */
  lemma ClassifyUnknown(s: string)
    requires forall sev :: Lower(s) != SeverityName(sev)
    ensures Classify(Some(s)) == Info
  {
    assert Lower(s) != SeverityName(Critical) && Lower(s) != SeverityName(High);
    assert Lower(s) != SeverityName(Medium) && Lower(s) != SeverityName(Low);
  }

  /** The findings of one severity, in input order. */
  function OfSeverity(findings: seq<Finding>, sev: Severity): (r: seq<Finding>)
    ensures |r| <= |findings|
    ensures forall f :: f in r ==> f in findings && Classify(f.severity) == sev
  {
    if findings == [] then []
    else
      var last := findings[|findings| - 1];
      var prev := OfSeverity(findings[..|findings| - 1], sev);
      assert forall f :: f in findings[..|findings| - 1] ==> f in findings;
      if Classify(last.severity) == sev then prev + [last] else prev
  }

  /**
   * A bucket keeps input order: the findings of one severity in `xs + ys` are
   * those in `xs` followed by those in `ys`.
   */
  lemma {:induction false} OfSeverityAppend(xs: seq<Finding>, ys: seq<Finding>, sev: Severity)
    ensures OfSeverity(xs + ys, sev) == OfSeverity(xs, sev) + OfSeverity(ys, sev)
  {
    if ys == [] {
      assert xs + ys == xs;
    } else {
      var front, last := ys[..|ys| - 1], ys[|ys| - 1];
      assert ys == front + [last];
      assert xs + ys == (xs + front) + [last];
      OfSeveritySnoc(xs + front, last, sev);
      OfSeveritySnoc(front, last, sev);
      OfSeverityAppend(xs, front, sev);
      Regroup(OfSeverity(xs, sev), OfSeverity(front, sev), KeptIf(last, sev));
    }
  }

  /** `[f]` when `f` has severity `sev`, else nothing. */
  function KeptIf(f: Finding, sev: Severity): seq<Finding> {
    if Classify(f.severity) == sev then [f] else []
  }

  /** A bucket unfolds at the last finding. */
  lemma OfSeveritySnoc(front: seq<Finding>, last: Finding, sev: Severity)
    ensures OfSeverity(front + [last], sev) == OfSeverity(front, sev) + KeptIf(last, sev)
  {
    var whole := front + [last];
    assert whole[..|whole| - 1] == front;
  }

  /** The `severity_groups` dictionary: one list per key. */
  datatype Groups = Groups(
    critical: seq<Finding>,
    high: seq<Finding>,
    medium: seq<Finding>,
    low: seq<Finding>,
    info: seq<Finding>)

  /** The list a severity is grouped under. */
  function Bucket(g: Groups, sev: Severity): seq<Finding> {
    match sev
    case Critical => g.critical
    case High => g.high
    case Medium => g.medium
    case Low => g.low
    case Info => g.info
  }

  /** The groups of a list of findings. */
  function Grouped(findings: seq<Finding>): Groups {
    Groups(
      OfSeverity(findings, Critical),
      OfSeverity(findings, High),
      OfSeverity(findings, Medium),
      OfSeverity(findings, Low),
      OfSeverity(findings, Info))
  }

  /** One more finding joins the group of its own severity and no other. */
  lemma GroupedExtend(findings: seq<Finding>, i: nat)
    requires i < |findings|
    ensures forall sev ::
      OfSeverity(findings[..i + 1], sev)
        == OfSeverity(findings[..i], sev) + (if Classify(findings[i].severity) == sev then [findings[i]] else [])
  {
    assert findings[..i + 1][..i] == findings[..i];
  }

  /** `g` with `f` appended to the list of severity `sev`. */
  function Add(g: Groups, sev: Severity, f: Finding): Groups {
    match sev
    case Critical => g.(critical := g.critical + [f])
    case High => g.(high := g.high + [f])
    case Medium => g.(medium := g.medium + [f])
    case Low => g.(low := g.low + [f])
    case Info => g.(info := g.info + [f])
  }

  /** All findings held by the groups, as a multiset. */
  function Total(g: Groups): multiset<Finding> {
    multiset(g.critical) + multiset(g.high) + multiset(g.medium) + multiset(g.low) + multiset(g.info)
  }

  /** Grouping one more finding adds it to its own group. */
  lemma GroupedSnoc(findings: seq<Finding>)
    requires findings != []
    ensures var last := findings[|findings| - 1];
      Grouped(findings) == Add(Grouped(findings[..|findings| - 1]), Classify(last.severity), last)
  {
  }

  /** Adding a finding adds it once to the total. */
  lemma TotalAdd(g: Groups, sev: Severity, f: Finding)
    ensures Total(Add(g, sev, f)) == Total(g) + multiset{f}
  {
  }

  /** Grouping one more finding adds it once to the total. */
  lemma TotalSnoc(findings: seq<Finding>)
    requires findings != []
    ensures Total(Grouped(findings)) == Total(Grouped(findings[..|findings| - 1])) + multiset{findings[|findings| - 1]}
  {
    var last := findings[|findings| - 1];
    GroupedSnoc(findings);
    TotalAdd(Grouped(findings[..|findings| - 1]), Classify(last.severity), last);
  }

  /** Partition: every finding lands in exactly one group, as often as it occurs. */
  lemma {:induction false} GroupsPartition(findings: seq<Finding>)
    ensures Total(Grouped(findings)) == multiset(findings)
  {
    if findings != [] {
      var front := findings[..|findings| - 1];
      GroupsPartition(front);
      TotalSnoc(findings);
      MultisetSnoc(findings);
    }
  }

  /** The multiset of a list: that of all but its last element, plus the last. */
  lemma MultisetSnoc(findings: seq<Finding>)
    requires findings != []
    ensures multiset(findings) == multiset(findings[..|findings| - 1]) + multiset{findings[|findings| - 1]}
  {
    assert findings == findings[..|findings| - 1] + [findings[|findings| - 1]];
  }

  /** The loop that fills `severity_groups`, one finding at a time. */
  method GroupBySeverity(findings: seq<Finding>) returns (groups: Groups)
    ensures forall sev :: Bucket(groups, sev) == OfSeverity(findings, sev)
  {
    groups := Groups([], [], [], [], []);
    for i := 0 to |findings|
      invariant groups == Grouped(findings[..i])
    {
      GroupedExtend(findings, i);
      var f := findings[i];
      match Classify(f.severity)
      case Critical => groups := groups.(critical := groups.critical + [f]);
      case High => groups := groups.(high := groups.high + [f]);
      case Medium => groups := groups.(medium := groups.medium + [f]);
      case Low => groups := groups.(low := groups.low + [f]);
      case Info => groups := groups.(info := groups.info + [f]);
    }
    assert findings[..|findings|] == findings;
  }

  /** The position of a tier in the order notifications are built. */
  function TierRank(t: Tier): nat {
    match t
    case UrgentTier => 0
    case MediumTier => 1
    case LowTier => 2
  }

  /** The findings a tier reports: critical then high, medium, low then info. */
  function TierFindings(g: Groups, t: Tier): seq<Finding> {
    match t
    case UrgentTier => g.critical + g.high
    case MediumTier => g.medium
    case LowTier => g.low + g.info
  }

  const UrgentLabel: string := "URGENT:"
  const UrgentText: string := "critical/high severity vulnerabilities detected"
  const MediumText: string := "medium severity vulnerabilities detected"
  const LowText: string := "low/info severity vulnerabilities detected"

  /** The message of a tier's notification, embedding its finding count. */
  function TierMessage(t: Tier, n: nat): string {
    match t
    case UrgentTier => UrgentLabel + " " + NatToString(n) + " " + UrgentText
    case MediumTier => NatToString(n) + " " + MediumText
    case LowTier => NatToString(n) + " " + LowText
  }

  /** A tier's notification, or none when the tier has no findings. */
  function TierNotes(g: Groups, t: Tier, now: nat): seq<Notification> {
    var fs := TierFindings(g, t);
    if fs == [] then [] else [Notification(TierMessage(t, |fs|), t, now, fs)]
  }

  /** The `notifications` list: urgent, medium and low, empty tiers skipped. */
  function Tiered(g: Groups, now: nat): seq<Notification> {
    TierNotes(g, UrgentTier, now) + TierNotes(g, MediumTier, now) + TierNotes(g, LowTier, now)
  }

  /** A notification carries its tier's findings, which are not empty, and a message counting them. */
  predicate Carries(g: Groups, now: nat, note: Notification) {
    && note.findings == TierFindings(g, note.tier)
    && note.findings != []
    && note.message == TierMessage(note.tier, |note.findings|)
    && note.date == now
  }

  /** A tier contributes at most one notification, of its own tier. */
  lemma TierNotesShape(g: Groups, t: Tier, now: nat)
    ensures |TierNotes(g, t, now)| <= 1
    ensures forall note :: note in TierNotes(g, t, now) ==> note.tier == t && Carries(g, now, note)
  {
  }

  /**
   * At most three notifications, in tier order (so at most one per tier), each
   * carrying its tier's findings.
   */
  lemma TieredShape(g: Groups, now: nat)
    ensures var notes := Tiered(g, now);
      && |notes| <= 3
      && (forall i, j :: 0 <= i < j < |notes| ==> TierRank(notes[i].tier) < TierRank(notes[j].tier))
      && (forall k :: 0 <= k < |notes| ==> Carries(g, now, notes[k]))
  {
    var u := TierNotes(g, UrgentTier, now);
    var m := TierNotes(g, MediumTier, now);
    var l := TierNotes(g, LowTier, now);
    TierNotesShape(g, UrgentTier, now);
    TierNotesShape(g, MediumTier, now);
    TierNotesShape(g, LowTier, now);
    var notes := u + m + l;
    forall k | 0 <= k < |notes|
      ensures Carries(g, now, notes[k])
      ensures notes[k] in u ==> k == 0
      ensures notes[k] in l ==> k == |notes| - 1
      ensures notes[k].tier == UrgentTier ==> notes[k] in u
      ensures notes[k].tier == MediumTier ==> notes[k] in m
      ensures notes[k].tier == LowTier ==> notes[k] in l
    {
      if k < |u| {
        assert notes[k] == u[k];
      } else if k < |u| + |m| {
        assert notes[k] == m[k - |u|];
      } else {
        assert notes[k] == l[k - |u| - |m|];
      }
    }
  }

  /** A tier has a notification exactly when it has findings. */
  lemma TieredSkipsEmpty(g: Groups, now: nat, t: Tier)
    ensures (exists note :: note in Tiered(g, now) && note.tier == t) <==> TierFindings(g, t) != []
  {
    var u := TierNotes(g, UrgentTier, now);
    var m := TierNotes(g, MediumTier, now);
    var l := TierNotes(g, LowTier, now);
    TierNotesShape(g, UrgentTier, now);
    TierNotesShape(g, MediumTier, now);
    TierNotesShape(g, LowTier, now);
    assert Tiered(g, now) == u + m + l;
    if TierFindings(g, t) != [] {
      var note := TierNotes(g, t, now)[0];
      assert note in TierNotes(g, t, now);
      assert note in Tiered(g, now);
    }
  }

  /** All findings carried by a list of notifications, in order. */
  function Carried(notes: seq<Notification>): seq<Finding> {
    if notes == [] then [] else notes[0].findings + Carried(notes[1..])
  }

  /** Carried findings of two lists of notifications, one after the other. */
  lemma {:induction false} CarriedAppend(a: seq<Notification>, b: seq<Notification>)
    ensures Carried(a + b) == Carried(a) + Carried(b)
  {
    if a == [] {
      assert a + b == b;
    } else {
      assert (a + b)[1..] == a[1..] + b;
      CarriedAppend(a[1..], b);
    }
  }

  /** A tier's notification carries exactly the tier's findings. */
  lemma CarriedTierNotes(g: Groups, t: Tier, now: nat)
    ensures Carried(TierNotes(g, t, now)) == TierFindings(g, t)
  {
    var notes := TierNotes(g, t, now);
    if notes != [] {
      assert notes[1..] == [];
    }
  }

  /** The tiered notifications carry every group, in the order critical, high, medium, low, info. */
  lemma CarriedTiered(g: Groups, now: nat)
    ensures Carried(Tiered(g, now)) == g.critical + g.high + g.medium + g.low + g.info
  {
    var u := TierNotes(g, UrgentTier, now);
    var m := TierNotes(g, MediumTier, now);
    var l := TierNotes(g, LowTier, now);
    CarriedAppend(u + m, l);
    CarriedAppend(u, m);
    CarriedTierNotes(g, UrgentTier, now);
    CarriedTierNotes(g, MediumTier, now);
    CarriedTierNotes(g, LowTier, now);
  }

  /** Every finding appears in exactly one notification, as often as in the input. */
  lemma TieredPartition(findings: seq<Finding>, now: nat)
    ensures multiset(Carried(Tiered(Grouped(findings), now))) == multiset(findings)
  {
    var g := Grouped(findings);
    CarriedTiered(g, now);
    GroupsPartition(findings);
    assert multiset(g.critical + g.high + g.medium + g.low + g.info) == Total(g);
  }

  /** The numeral of `n` has no space in it. */
  lemma NumeralNoSpace(n: nat)
    ensures NoSpace(NatToString(n)) && ' ' !in NatToString(n)
  {
    var d := NatToString(n);
    forall i | 0 <= i < |d| ensures !IsSpace(d[i]) {
      assert IsDigit(d[i]);
    }
  }

  /** The first space-separated word of a numeral followed by a space is the numeral. */
  lemma CountFirst(n: nat, rest: string)
    ensures Split(NatToString(n) + " " + rest, ' ')[0] == NatToString(n)
  {
    NumeralNoSpace(n);
    SplitAtFirst(NatToString(n), rest, ' ');
  }

  /** After a one-word label, the second space-separated word is the numeral. */
  lemma CountSecond(word: string, n: nat, rest: string)
    requires ' ' !in word
    ensures var words := Split(word + " " + NatToString(n) + " " + rest, ' ');
      |words| > 1 && words[1] == NatToString(n)
  {
    var d := NatToString(n);
    assert word + " " + d + " " + rest == word + [' '] + (d + " " + rest);
    SplitAtFirst(word, d + " " + rest, ' ');
    CountFirst(n, rest);
  }

  /** `int()` reads a count numeral back. */
  lemma ParseCount(n: nat)
    ensures ParseInt(NatToString(n)) == Some(n)
  {
    ParseIntOfIntToString(n);
  }

  /** Where a tier's message holds its count, counting space-separated words. */
  function CountWord(t: Tier): nat {
    if t == UrgentTier then 1 else 0
  }

  /** The count embedded in a message reads back as the tier's finding count. */
  lemma MessageCount(t: Tier, n: nat)
    ensures var words := Split(TierMessage(t, n), ' ');
      CountWord(t) < |words| && ParseInt(words[CountWord(t)]) == Some(n)
  {
    ParseCount(n);
    match t
    case UrgentTier => UrgentCountWord(n);
    case MediumTier => CountFirst(n, MediumText);
    case LowTier => CountFirst(n, LowText);
  }

  /** The urgent message's second word is its count. */
  lemma UrgentCountWord(n: nat)
    ensures var words := Split(UrgentLabel + " " + NatToString(n) + " " + UrgentText, ' ');
      |words| > 1 && words[1] == NatToString(n)
  {
    assert UrgentLabel == ['U', 'R', 'G', 'E', 'N', 'T', ':'];
    CountSecond(UrgentLabel, n, UrgentText);
  }

  /** One Discord embed field. */
  datatype EmbedField = EmbedField(name: string, value: string)

  /** The Discord embed built for one notification. */
  datatype Embed = Embed(title: string, description: string, color: int, fields: seq<EmbedField>)

  /** At most this many findings are listed one by one in an embed. */
  const MaxEmbedFindings: nat := 10

  /** The stored name of a tier. */
  function TierName(t: Tier): string {
    match t
    case UrgentTier => "urgent"
    case MediumTier => "medium"
    case LowTier => "low"
  }

  /** Red for urgent, orange for medium, green otherwise. */
  function Color(t: Tier): int {
    match t
    case UrgentTier => 0xFF0000
    case MediumTier => 0xFFA500
    case LowTier => 0x00FF00
  }

  /** A severity as an f-string prints it: `None` when absent. */
  function SeverityText(severity: Option<string>): string {
    match severity
    case None => "None"
    case Some(s) => s
  }

  /** The field describing the `i`-th finding (counting from 1). */
  function FindingField(i: nat, f: Finding): EmbedField {
    EmbedField(
      NatToString(i) + ". " + f.vulnerabilityType + " (" + SeverityText(f.severity) + ")",
      "Host: " + f.host + "\nDescription: " + f.description + "\nSource: " + f.source)
  }

  const OverflowName: string := "Additional Vulnerabilities"
  const OverflowLabel: string := "Plus"
  const OverflowText: string := "more vulnerabilities not shown"

  /** The closing field that counts the findings not listed. */
  function OverflowField(hidden: nat): EmbedField {
    EmbedField(OverflowName, OverflowLabel + " " + NatToString(hidden) + " " + OverflowText)
  }

  /** The embed for a notification: its first ten findings, then an overflow field if more remain. */
  function BuildEmbed(note: Notification): Embed {
    var n := |note.findings|;
    var shown := if n < MaxEmbedFindings then n else MaxEmbedFindings;
    Embed(
      note.message,
      "Severity: " + TierName(note.tier),
      Color(note.tier),
      seq(shown, k requires 0 <= k < shown => FindingField(k + 1, note.findings[k]))
        + (if n > MaxEmbedFindings then [OverflowField(n - MaxEmbedFindings)] else []))
  }

  /**
   * The embed lists `min(n, 10)` findings, in order and numbered from 1, and
   * has one field more exactly when `n > 10`.
   */
  lemma EmbedFields(note: Notification)
    ensures var n := |note.findings|;
      var e := BuildEmbed(note);
      && |e.fields| == (if n <= MaxEmbedFindings then n else MaxEmbedFindings + 1)
      && forall k :: 0 <= k < |e.fields| && k < n && k < MaxEmbedFindings ==>
           e.fields[k] == FindingField(k + 1, note.findings[k])
  {
  }

  /** A finding field's name starts with a digit, so it is never the overflow field's. */
  lemma FindingFieldIsNotOverflow(i: nat, f: Finding)
    ensures FindingField(i, f).name != OverflowName
  {
    var name := FindingField(i, f).name;
    assert name[0] == NatToString(i)[0];
    assert IsDigit(name[0]);
    assert OverflowName[0] == 'A';
  }

  /**
   * The overflow field is present exactly when there are more than ten
   * findings, and it is then the field counting those not listed.
   */
  lemma EmbedOverflow(note: Notification)
    ensures var n := |note.findings|;
      var e := BuildEmbed(note);
      && ((exists k :: 0 <= k < |e.fields| && e.fields[k].name == OverflowName) <==> n > MaxEmbedFindings)
      && (n > MaxEmbedFindings ==> e.fields[MaxEmbedFindings] == OverflowField(n - MaxEmbedFindings))
  {
    var n := |note.findings|;
    var e := BuildEmbed(note);
    EmbedFields(note);
    if n > MaxEmbedFindings {
      assert e.fields[MaxEmbedFindings] == OverflowField(n - MaxEmbedFindings);
      assert e.fields[MaxEmbedFindings].name == OverflowName;
    } else {
      forall k | 0 <= k < |e.fields|
        ensures e.fields[k].name != OverflowName
      {
        FindingFieldIsNotOverflow(k + 1, note.findings[k]);
      }
    }
  }

  /** The overflow field's second word reads back as the number of findings left out. */
  lemma OverflowCount(hidden: nat)
    ensures var words := Split(OverflowField(hidden).value, ' ');
      |words| > 1 && ParseInt(words[1]) == Some(hidden)
  {
    assert OverflowLabel == ['P', 'l', 'u', 's'];
    CountSecond(OverflowLabel, hidden, OverflowText);
    ParseCount(hidden);
  }

  /** Each tier has its own colour: red exactly for urgent, orange exactly for medium. */
  lemma EmbedColours(note: Notification)
    ensures BuildEmbed(note).color == 0xFF0000 <==> note.tier == UrgentTier
    ensures BuildEmbed(note).color == 0xFFA500 <==> note.tier == MediumTier
    ensures BuildEmbed(note).color == 0x00FF00 <==> note.tier == LowTier
  {
  }

  /** Both Gmail credentials are set. */
  predicate EmailConfigured(config: Config) {
    Truthy(Get(config, "gmail", "username")) && Truthy(Get(config, "gmail", "password"))
  }

  /** A Discord webhook URL is set. */
  predicate DiscordConfigured(config: Config) {
    Truthy(Get(config, "discord", "webhook_url"))
  }

  /** A call made on a store or a transport. */
  datatype Event = Stored(note: Notification) | Mailed(note: Notification) | Posted(embed: Embed)

  /** `send_email_notification`: no attempt without credentials, else the transport's verdict. */
  function SendEmail(config: Config, note: Notification, mail: Notification -> bool): bool {
    EmailConfigured(config) && mail(note)
  }

  /** `send_discord_notification`: no attempt without a webhook, else the transport's verdict. */
  function SendDiscord(config: Config, note: Notification, post: Embed -> bool): bool {
    DiscordConfigured(config) && post(BuildEmbed(note))
  }

  /** What one notification adds to `notifications_sent`. */
  function Delivered(config: Config, note: Notification, mail: Notification -> bool, post: Embed -> bool): nat {
    (if note.tier == UrgentTier && SendEmail(config, note, mail) then 1 else 0)
      + (if SendDiscord(config, note, post) then 1 else 0)
  }

  /** `notifications_sent` after delivering `notes` in order. */
  function SentCount(config: Config, notes: seq<Notification>, mail: Notification -> bool, post: Embed -> bool): nat {
    if notes == [] then 0
    else SentCount(config, notes[..|notes| - 1], mail, post) + Delivered(config, notes[|notes| - 1], mail, post)
  }

  /** The transport calls made while delivering `notes`, in order. */
  function Deliveries(config: Config, notes: seq<Notification>): seq<Event> {
    if notes == [] then []
    else
      var note := notes[|notes| - 1];
      Deliveries(config, notes[..|notes| - 1])
        + (if note.tier == UrgentTier && EmailConfigured(config) then [Mailed(note)] else [])
        + (if DiscordConfigured(config) then [Posted(BuildEmbed(note))] else [])
  }

  /** The store calls for `notes`, in order. */
  function Stores(notes: seq<Notification>): (log: seq<Event>)
    ensures |log| == |notes|
    ensures forall k :: 0 <= k < |notes| ==> log[k] == Stored(notes[k])
  {
    seq(|notes|, k requires 0 <= k < |notes| => Stored(notes[k]))
  }

  /** The number of urgent notifications. */
  function UrgentCount(notes: seq<Notification>): nat {
    if notes == [] then 0
    else UrgentCount(notes[..|notes| - 1]) + (if notes[|notes| - 1].tier == UrgentTier then 1 else 0)
  }

  /** Every transport call is an email for an urgent notification with credentials set, or a post with a webhook set. */
  lemma {:induction false} DeliveriesAreTransportCalls(config: Config, notes: seq<Notification>)
    ensures forall e :: e in Deliveries(config, notes) ==>
      && !e.Stored?
      && (e.Mailed? ==> EmailConfigured(config) && e.note.tier == UrgentTier)
      && (e.Posted? ==> DiscordConfigured(config))
  {
    if notes != [] {
      DeliveriesAreTransportCalls(config, notes[..|notes| - 1]);
    }
  }

  /** Every success counted is a transport call made. */
  lemma {:induction false} SentAtMostAttempts(config: Config, notes: seq<Notification>, mail: Notification -> bool, post: Embed -> bool)
    ensures SentCount(config, notes, mail, post) <= |Deliveries(config, notes)|
  {
    if notes != [] {
      SentAtMostAttempts(config, notes[..|notes| - 1], mail, post);
    }
  }

  /** `notifications_sent` is at most one per notification plus one per urgent email. */
  lemma {:induction false} SentCountBound(config: Config, notes: seq<Notification>, mail: Notification -> bool, post: Embed -> bool)
    ensures SentCount(config, notes, mail, post) <= |notes| + UrgentCount(notes)
  {
    if notes != [] {
      SentCountBound(config, notes[..|notes| - 1], mail, post);
    }
  }

  /** Urgent notifications of two lists, one after the other. */
  lemma {:induction false} UrgentCountAppend(a: seq<Notification>, b: seq<Notification>)
    ensures UrgentCount(a + b) == UrgentCount(a) + UrgentCount(b)
  {
    if b == [] {
      assert a + b == a;
    } else {
      var front := b[..|b| - 1];
      assert (a + b)[..|a + b| - 1] == a + front;
      UrgentCountAppend(a, front);
    }
  }

  /** A tier's own notifications are urgent only for the urgent tier, and there is at most one. */
  lemma TierNotesUrgentCount(g: Groups, t: Tier, now: nat)
    ensures UrgentCount(TierNotes(g, t, now)) == if t == UrgentTier && TierFindings(g, t) != [] then 1 else 0
  {
    var notes := TierNotes(g, t, now);
    if notes != [] {
      assert notes[..0] == [];
    }
  }

  /** The tiered notifications hold at most one urgent notification. */
  lemma TieredUrgentCount(g: Groups, now: nat)
    ensures UrgentCount(Tiered(g, now)) <= 1
  {
    var u := TierNotes(g, UrgentTier, now);
    var m := TierNotes(g, MediumTier, now);
    var l := TierNotes(g, LowTier, now);
    UrgentCountAppend(u + m, l);
    UrgentCountAppend(u, m);
    TierNotesUrgentCount(g, UrgentTier, now);
    TierNotesUrgentCount(g, MediumTier, now);
    TierNotesUrgentCount(g, LowTier, now);
  }

  /** So the stage reports at most one delivery per notification, plus one. */
  lemma TieredSentBound(config: Config, g: Groups, now: nat, mail: Notification -> bool, post: Embed -> bool)
    ensures SentCount(config, Tiered(g, now), mail, post) <= |Tiered(g, now)| + 1
  {
    SentCountBound(config, Tiered(g, now), mail, post);
    TieredUrgentCount(g, now);
  }

  /** The groups of two findings. */
  lemma OfSeverityPair(a: Finding, b: Finding, sev: Severity)
    ensures OfSeverity([a, b], sev)
      == (if Classify(a.severity) == sev then [a] else []) + (if Classify(b.severity) == sev then [b] else [])
  {
    assert [a, b][..1] == [a];
    assert [a][..0] == [];
  }

  /**
   * One high and one critical finding, both transports configured and
   * succeeding: a single urgent notification listing the critical finding
   * first, delivered twice.
   */
  lemma HighAndCriticalScenario(config: Config, xss: Finding, sqli: Finding, now: nat,
                                mail: Notification -> bool, post: Embed -> bool)
    requires xss.severity == Some("high") && sqli.severity == Some("critical")
    requires EmailConfigured(config) && DiscordConfigured(config)
    requires forall n :: mail(n)
    requires forall e :: post(e)
    ensures var notes := Tiered(Grouped([xss, sqli]), now);
      && notes == [Notification(TierMessage(UrgentTier, 2), UrgentTier, now, [sqli, xss])]
      && SentCount(config, notes, mail, post) == 2
  {
    HighAndCriticalGroups(xss, sqli);
    var g := Groups([sqli], [xss], [], [], []);
    var note := Notification(TierMessage(UrgentTier, 2), UrgentTier, now, [sqli, xss]);
    assert TierFindings(g, UrgentTier) == [sqli, xss];
    assert Tiered(g, now) == [note];
    assert [note][..0] == [];
  }

  /** A high and a critical finding group into the critical and high groups only. */
  lemma HighAndCriticalGroups(xss: Finding, sqli: Finding)
    requires xss.severity == Some("high") && sqli.severity == Some("critical")
    ensures Grouped([xss, sqli]) == Groups([sqli], [xss], [], [], [])
  {
    ClassifyName(High);
    ClassifyName(Critical);
    assert Classify(xss.severity) == High && Classify(sqli.severity) == Critical;
    OfSeverityPair(xss, sqli, Critical);
    OfSeverityPair(xss, sqli, High);
    OfSeverityPair(xss, sqli, Medium);
    OfSeverityPair(xss, sqli, Low);
    OfSeverityPair(xss, sqli, Info);
  }

  /** No findings give no notification. */
  lemma NoFindingsNoNotes(now: nat)
    ensures Tiered(Grouped([]), now) == []
  {
  }

  /** The three `if` blocks that build the `notifications` list from the groups. */
  method BuildNotifications(groups: Groups, now: nat) returns (notes: seq<Notification>)
    ensures notes == Tiered(groups, now)
  {
    notes := [];
    var urgent := groups.critical + groups.high;
    if urgent != [] {
      notes := notes + [Notification(TierMessage(UrgentTier, |urgent|), UrgentTier, now, urgent)];
    }
    if groups.medium != [] {
      notes := notes + [Notification(TierMessage(MediumTier, |groups.medium|), MediumTier, now, groups.medium)];
    }
    var lowInfo := groups.low + groups.info;
    if lowInfo != [] {
      notes := notes + [Notification(TierMessage(LowTier, |lowInfo|), LowTier, now, lowInfo)];
    }
  }

  /** The loop that stores every notification, in order. */
  method StoreAll(ledger: Ledger, notes: seq<Notification>) returns (log: seq<Event>)
    modifies ledger
    ensures ledger.notifications == old(ledger.notifications) + notes
    ensures log == Stores(notes)
    ensures ledger.domains == old(ledger.domains) && ledger.pending == old(ledger.pending)
    ensures ledger.hosts == old(ledger.hosts)
  {
    log := [];
    for i := 0 to |notes|
      invariant ledger.notifications == old(ledger.notifications) + notes[..i]
      invariant log == Stores(notes[..i])
      invariant ledger.domains == old(ledger.domains) && ledger.pending == old(ledger.pending)
      invariant ledger.hosts == old(ledger.hosts)
    {
      ledger.InsertNotification(notes[i]);
      assert notes[..i + 1] == notes[..i] + [notes[i]];
      log := log + [Stored(notes[i])];
    }
    assert notes[..|notes|] == notes;
  }

  /**
   * The delivery loop: an email for an urgent notification, a post for every
   * notification, one count per success; `log` lists the transport calls made.
   */
  method DeliverAll(config: Config, notes: seq<Notification>, mail: Notification -> bool, post: Embed -> bool)
    returns (sent: nat, log: seq<Event>)
    ensures sent == SentCount(config, notes, mail, post)
    ensures log == Deliveries(config, notes)
  {
    sent, log := 0, [];
    for i := 0 to |notes|
      invariant sent == SentCount(config, notes[..i], mail, post)
      invariant log == Deliveries(config, notes[..i])
    {
      var note := notes[i];
      assert notes[..i + 1][..i] == notes[..i];
      var mailed: seq<Event> := [];
      if note.tier == UrgentTier {
        if EmailConfigured(config) {
          mailed := [Mailed(note)];
        }
        if SendEmail(config, note, mail) {
          sent := sent + 1;
        }
      }
      var posted: seq<Event> := [];
      if DiscordConfigured(config) {
        posted := [Posted(BuildEmbed(note))];
      }
      if SendDiscord(config, note, post) {
        sent := sent + 1;
      }
      log := log + mailed + posted;
    }
    assert notes[..|notes|] == notes;
  }

  /**
   * `send_notifications`: with no findings it returns 0 and stores nothing;
   * otherwise it stores every tiered notification, then delivers each in turn.
   * `log` is the sequence of store and transport calls.
   */
  method SendNotifications(ledger: Ledger, config: Config, findings: seq<Finding>, now: nat,
                           mail: Notification -> bool, post: Embed -> bool)
    returns (sent: nat, log: seq<Event>)
    modifies ledger
    ensures findings == [] ==> sent == 0 && log == [] && unchanged(ledger)
    ensures findings != [] ==>
      var notes := Tiered(Grouped(findings), now);
      && ledger.notifications == old(ledger.notifications) + notes
      && sent == SentCount(config, notes, mail, post)
      && log == Stores(notes) + Deliveries(config, notes)
    ensures ledger.domains == old(ledger.domains) && ledger.pending == old(ledger.pending)
    ensures ledger.hosts == old(ledger.hosts)
  {
    if findings == [] {
      return 0, [];
    }
    var groups := GroupBySeverity(findings);
    assert groups == Grouped(findings);
    var notes := BuildNotifications(groups, now);
    var stored := StoreAll(ledger, notes);
    var delivered;
    sent, delivered := DeliverAll(config, notes, mail, post);
    log := stored + delivered;
  }

  /** In the call log, every store comes before every transport call. */
  lemma StoresFirst(config: Config, notes: seq<Notification>)
    ensures var log := Stores(notes) + Deliveries(config, notes);
      forall i, j :: 0 <= i < j < |log| && log[j].Stored? ==> log[i].Stored?
  {
    var log := Stores(notes) + Deliveries(config, notes);
    DeliveriesAreTransportCalls(config, notes);
    forall j | |notes| <= j < |log| ensures !log[j].Stored? {
      assert log[j] == Deliveries(config, notes)[j - |notes|];
    }
  }
}
