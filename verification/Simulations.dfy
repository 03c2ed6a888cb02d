/**
 The strict parser of an upgrade simulation (packages/parser.py). Regular expressions are written out as
 deterministic readers; every line of the output is read on its own, and what is accepted is a property of the
 set of lines, whatever their order.
 */
module Simulations {
  import opened Models
  import opened NativeSnapshots
  import opened Attempts
  import opened Sequences
  import opened Inventories

  const MAX_SIMULATION_BYTES := 8 * 1024 * 1024
  const MAX_NATIVE_BYTES := 4096

  // ----- readers

  function Span(s: string, accepts: char -> bool): (n: nat)
    ensures n <= |s|
  {
    if s != "" && accepts(s[0]) then 1 + Span(s[1..], accepts) else 0
  }

  function Skip(s: string, literal: string): Option<string> {
    if literal <= s then Some(s[|literal|..]) else None
  }

  /** A non-empty run of accepted characters and what follows it. */
  function Take(s: string, accepts: char -> bool): Option<(string, string)> {
    var n := Span(s, accepts);
    if n == 0 then None else Some((s[..n], s[n..]))
  }

  const NON_SPACE := (c: char) => !Whitespace(c)
  const VERSION_CHAR := (c: char) => c != ']' && !Whitespace(c)
  const RELEASE_CHAR := (c: char) => c != ')'
  const GROUP_CHAR := (c: char) => c != '[' && c != ']' && c != '\r' && c != '\n'

  /** Any number of bracketed groups up to the end of the line. */
  predicate Groups(s: string)
    decreases |s|
  {
    s == ""
    || (" [" <= s
        && var rest := s[2 + Span(s[2..], GROUP_CHAR)..];
        rest != "" && rest[0] == ']' && Groups(rest[1..]))
  }

  datatype Change = Change(name: string, installed: string, candidate: string, release: string)

  /** The "(candidate release)" part shared by Inst and Conf, and the trailing groups. */
  function ReadCandidate(s: string): Option<(string, string)> {
    var candidate := Take(s, NON_SPACE);
    if candidate.None? then None
    else
      var release := Skip(candidate.value.1, " ");
      if release.None? then None
      else
        var n := Span(release.value, RELEASE_CHAR);
        var rest := Skip(release.value[n..], ")");
        if rest.Some? && Groups(rest.value) then Some((candidate.value.0, release.value[..n])) else None
  }

  function ReadInst(line: string): Option<Change> {
    var body := Skip(line, "Inst ");
    if body.None? then None
    else
      var name := Take(body.value, NON_SPACE);
      if name.None? then None
      else
        var bracket := Skip(name.value.1, " [");
        if bracket.None? then None
        else
          var installed := Take(bracket.value, VERSION_CHAR);
          if installed.None? then None
          else
            var open := Skip(installed.value.1, "] (");
            if open.None? then None
            else
              var candidate := ReadCandidate(open.value);
              if candidate.None? then None
              else Some(Change(name.value.0, installed.value.0, candidate.value.0, candidate.value.1))
  }

  function ReadConf(line: string): Option<Change> {
    var body := Skip(line, "Conf ");
    if body.None? then None
    else
      var name := Take(body.value, NON_SPACE);
      if name.None? then None
      else
        var open := Skip(name.value.1, " (");
        if open.None? then None
        else
          var candidate := ReadCandidate(open.value);
          if candidate.None? then None
          else Some(Change(name.value.0, "", candidate.value.0, candidate.value.1))
  }

  function LastIndex(s: string, c: char): (i: int)
    ensures -1 <= i < |s| && (i >= 0 ==> s[i] == c)
  {
    if s == "" then -1 else if s[|s| - 1] == c then |s| - 1 else LastIndex(s[..|s| - 1], c)
  }

  /** The origin, if a usable one is given, and the architecture of a candidate description. */
  function ReadDescription(release: string): Option<(Option<string>, string)> {
    var open := LastIndex(release, '[');
    if release == "" || release[|release| - 1] != ']' || open < 0 then None
    else
      var architecture := release[open + 1..|release| - 1];
      var before := release[..open];
      if ']' in architecture || !ValidArchitecture(architecture) then None
      else if before != "" && before[|before| - 1] != ' ' then None
      else
        var origin := if before == "" then "" else Strip(before[..|before| - 1]);
        Some((if origin == "" || |origin| > 500 then None else Some(origin), architecture))
  }

  function IndexOf(s: string, c: char): (i: nat)
    ensures i <= |s| && (i < |s| ==> s[i] == c)
  {
    if s == "" || s[0] == c then 0 else 1 + IndexOf(s[1..], c)
  }

  function SplitQualified(raw: string): (string, Option<string>) {
    var i := IndexOf(raw, ':');
    if i == |raw| then (raw, None) else (raw[..i], Some(raw[i + 1..]))
  }

  function Lower(s: string): string {
    seq(|s|, i requires 0 <= i < |s| => if 'A' <= s[i] <= 'Z' then s[i] - 'A' + 'a' else s[i])
  }

  predicate EndsWith(s: string, suffix: string) { |suffix| <= |s| && s[|s| - |suffix|..] == suffix }

  function Segments(s: string): seq<string> {
    if s == "" then [""]
    else
      var rest := Segments(s[1..]);
      if |rest| == 0 then [""]
      else if s[0] == '/' || s[0] == ' ' || s[0] == ':' then [""] + rest
      else [[s[0]] + rest[0]] + rest[1..]
  }

  /** Some path segment of the origin ends in "-security"; anything else is unknown rather than false. */
  function Security(origin: Option<string>): Option<bool> {
    if origin.Some? && exists segment | segment in Segments(origin.value) :: EndsWith(Lower(segment), "-security")
    then Some(true) else None
  }

  function Number(digits: string): nat
    requires forall i | 0 <= i < |digits| :: Digit(digits[i])
  {
    if digits == "" then 0
    else
      assert Digit(digits[|digits| - 1]);
      10 * Number(digits[..|digits| - 1]) + (digits[|digits| - 1] as int - '0' as int)
  }

  lemma {:induction false} SpanAccepts(s: string, accepts: char -> bool)
    ensures forall i | 0 <= i < Span(s, accepts) :: accepts(s[i])
  {
    if s != "" && accepts(s[0]) {
      SpanAccepts(s[1..], accepts);
      forall i | 0 <= i < Span(s, accepts) ensures accepts(s[i]) {
        if 0 < i {
          assert s[i] == s[1..][i - 1];
        }
      }
    }
  }

  const IS_DIGIT := (c: char) => Digit(c)

  /** One to nine digits and what follows them. */
  function ReadCount(s: string): Option<(nat, string)> {
    var n := Span(s, IS_DIGIT);
    SpanAccepts(s, IS_DIGIT);
    if 1 <= n <= 9 then Some((Number(s[..n]), s[n..])) else None
  }

  datatype Totals = Totals(upgraded: nat, added: nat, removed: nat, held: nat)

  function ReadSummary(line: string): Option<Totals> {
    var upgraded := ReadCount(line);
    if upgraded.None? then None
    else
      var s1 := Skip(upgraded.value.1, " upgraded, ");
      var added := if s1.Some? then ReadCount(s1.value) else None;
      if added.None? then None
      else
        var s2 := Skip(added.value.1, " newly installed, ");
        var removed := if s2.Some? then ReadCount(s2.value) else None;
        if removed.None? then None
        else
          var s3 := Skip(removed.value.1, " to remove and ");
          var held := if s3.Some? then ReadCount(s3.value) else None;
          if held.Some? && held.value.1 == " not upgraded." then
            Some(Totals(upgraded.value.0, added.value.0, removed.value.0, held.value.0))
          else None
  }

  predicate ReportsUnfinished(line: string) {
    var count := ReadCount(line);
    count.Some? && count.value.1 == " not fully installed or removed."
  }

  // ----- one line

  datatype Line =
    | Ignored
    | Broken(failure: ScanFailure)
    | Inst(raw: string, name: string, qualified: Option<string>, architecture: string, installed: string,
           candidate: string, origin: Option<string>)
    | Conf(raw: string, candidate: string, architecture: string)
    | Summary(totals: Totals)

  function InstLine(line: string): Line {
    var change := ReadInst(line);
    if change.None? then Broken(MalformedPlan)
    else
      var (name, qualified) := SplitQualified(change.value.name);
      var description := ReadDescription(change.value.release);
      if description.None? || (qualified.Some? && qualified.value != description.value.1) then Broken(MalformedPlan)
      else
        Inst(change.value.name, name, qualified, description.value.1, change.value.installed, change.value.candidate,
             description.value.0)
  }

  function ConfLine(line: string): Line {
    var change := ReadConf(line);
    if change.None? then Broken(MalformedPlan)
    else
      var description := ReadDescription(change.value.release);
      var qualified := SplitQualified(change.value.name).1;
      if description.None? || (qualified.Some? && qualified.value != description.value.1) then Broken(MalformedPlan)
      else Conf(change.value.name, change.value.candidate, description.value.1)
  }

  /** What the parser makes of one raw line. */
  function ReadLine(raw: string): Line {
    var line := Strip(raw);
    if line == "" then Ignored
    else if "Remv " <= line || "Purg " <= line then Broken(MalformedPlan)
    else if "Inst " <= line then InstLine(line)
    else if "Conf " <= line then ConfLine(line)
    else if ReportsUnfinished(line) then Broken(DpkgUnfinished)
    else if ReadSummary(line).Some? then Summary(ReadSummary(line).value)
    else Ignored
  }

  // ----- what is accepted and returned

  function InstName(raw: string): Option<string> {
    if ReadLine(raw).Inst? then Some(ReadLine(raw).raw) else None
  }

  function ConfName(raw: string): Option<string> {
    if ReadLine(raw).Conf? then Some(ReadLine(raw).raw) else None
  }

  function SummaryKey(raw: string): Option<bool> { if ReadLine(raw).Summary? then Some(true) else None }

  function InstIdentity(raw: string): Option<Identity> {
    if ReadLine(raw).Inst? then Some((ReadLine(raw).name, ReadLine(raw).architecture)) else None
  }

  function Insts(lines: seq<string>): set<string> { set raw | raw in lines && ReadLine(raw).Inst? }

  /** The one architecture under which the named package is installed. */
  function Resolve(name: string, qualified: Option<string>, native: string, installed: Inventory): Option<string> {
    if qualified.Some? then if (name, qualified.value) in installed then qualified else None
    else if (name, native) in installed && (name, "all") in installed then None
    else if (name, native) in installed then Some(native)
    else if (name, "all") in installed then Some("all")
    else None
  }

  predicate Current(inst: Line, native: string, installed: Inventory)
    requires inst.Inst?
  {
    var architecture := Resolve(inst.name, inst.qualified, native, installed);
    && architecture.Some? && (inst.name, architecture.value) in installed
    && installed[(inst.name, architecture.value)] == inst.installed
    && architecture.value == inst.architecture
  }

  predicate Approves(inst: Line, conf: Line) {
    && inst.Inst? && conf.Conf? && inst.raw == conf.raw && inst.candidate == conf.candidate
    && inst.architecture == conf.architecture
  }

  ghost predicate ConfApproved(lines: seq<string>, conf: Line) {
    exists raw | raw in lines :: Approves(ReadLine(raw), conf)
  }

  ghost predicate Actions(lines: seq<string>) {
    && (forall raw | raw in lines :: !ReadLine(raw).Broken?)
    && DistinctBy(lines, InstName) && DistinctBy(lines, ConfName) && DistinctBy(lines, SummaryKey)
  }

  predicate UpgradeOnly(raw: string, changes: nat) {
    ReadLine(raw).Summary? && ReadLine(raw).totals.added == 0 && ReadLine(raw).totals.removed == 0
    && ReadLine(raw).totals.upgraded == changes
  }

  ghost predicate Acceptable(lines: seq<string>, native: string, installed: Inventory) {
    && Actions(lines)
    && (exists raw | raw in lines :: UpgradeOnly(raw, |Insts(lines)|))
    && (forall raw | raw in lines && ReadLine(raw).Inst? :: Current(ReadLine(raw), native, installed))
    && DistinctBy(lines, InstIdentity)
    && (forall raw | raw in lines && ReadLine(raw).Conf? :: ConfApproved(lines, ReadLine(raw)))
  }

  function Package(inst: Line): PendingPackage
    requires inst.Inst?
  {
    PendingPackage(inst.name, inst.architecture, inst.installed, inst.candidate, inst.origin, Security(inst.origin))
  }

  function PackageIdentity(p: PendingPackage): Identity { (p.name, p.architecture) }

  datatype Simulation = Simulation(packages: seq<PendingPackage>, notUpgraded: nat)

  predicate Plans(raw: string, p: PendingPackage) { ReadLine(raw).Inst? && Package(ReadLine(raw)) == p }

  ghost predicate Planned(lines: seq<string>, p: PendingPackage) { exists raw | raw in lines :: Plans(raw, p) }

  ghost predicate PackagesAre(packages: seq<PendingPackage>, lines: seq<string>) {
    && SortedBy(packages, PackageIdentity)
    && forall p: PendingPackage :: p in packages <==> Planned(lines, p)
  }

  /** What parse_apt_simulation may return for these lines against this inventory. */
  ghost predicate SimulationIs(r: Result<Simulation>, lines: seq<string>, native: string, installed: Inventory) {
    && (r.Ok? <==> Acceptable(lines, native, installed))
    && (r.Ok? ==>
      && PackagesAre(r.value.packages, lines) && |r.value.packages| == |Insts(lines)|
      && exists raw | raw in lines :: ReadLine(raw).Summary? && ReadLine(raw).totals.held == r.value.notUpgraded)
  }

  // ----- the parser, loop by loop

  lemma InstsStep(lines: seq<string>, i: nat)
    requires i < |lines|
    ensures Insts(lines[..i + 1]) == if ReadLine(lines[i]).Inst? then Insts(lines[..i]) + {lines[i]} else Insts(lines[..i])
  {
    InNext(lines, i);
  }

  ghost predicate Collected(rows: seq<string>, lines: seq<string>, wanted: Line -> bool) {
    forall raw: string :: raw in rows <==> (raw in lines && wanted(ReadLine(raw)))
  }

  function Collect(rows: seq<string>, raw: string, wanted: Line -> bool): seq<string> {
    if wanted(ReadLine(raw)) then rows + [raw] else rows
  }

  lemma CollectStep(rows: seq<string>, lines: seq<string>, i: nat, wanted: Line -> bool)
    requires i < |lines| && Collected(rows, lines[..i], wanted)
    ensures Collected(Collect(rows, lines[i], wanted), lines[..i + 1], wanted)
  {
    hide ReadLine;
    InNext(lines, i);
  }

  const IS_INST := (l: Line) => l.Inst?
  const IS_CONF := (l: Line) => l.Conf?

  ghost predicate SummaryIs(summary: Option<Totals>, lines: seq<string>) {
    && (summary.None? ==> forall raw | raw in lines :: !ReadLine(raw).Summary?)
    && (summary.Some? ==> exists raw | raw in lines :: ReadLine(raw) == Summary(summary.value))
    && (forall raw | raw in lines && ReadLine(raw).Summary? :: summary == Some(ReadLine(raw).totals))
  }

  function SummarySeen(summary: Option<Totals>): set<bool> { if summary.Some? then {true} else {} }

  /** The locals of the first loop after these lines. */
  ghost predicate ReadSoFar(
    lines: seq<string>, insts: seq<string>, confs: seq<string>, summary: Option<Totals>, seenInst: set<string>,
    seenConf: set<string>)
  {
    && Actions(lines)
    && SeenBy(seenInst, lines, InstName) && SeenBy(seenConf, lines, ConfName)
    && SeenBy(SummarySeen(summary), lines, SummaryKey)
    && Collected(insts, lines, IS_INST) && Collected(confs, lines, IS_CONF) && |insts| == |Insts(lines)|
    && SummaryIs(summary, lines)
  }

  /** The loop goes on after a line exactly when the actions so far are still acceptable. */
  lemma ActionsStep(
    lines: seq<string>, i: nat, insts: seq<string>, confs: seq<string>, summary: Option<Totals>, seenInst: set<string>,
    seenConf: set<string>)
    requires i < |lines| && ReadSoFar(lines[..i], insts, confs, summary, seenInst, seenConf)
    ensures Actions(lines[..i + 1]) <==>
      match ReadLine(lines[i])
      case Ignored => true
      case Broken(_) => false
      case Inst(name, _, _, _, _, _, _) => name !in seenInst
      case Conf(name, _, _) => name !in seenConf
      case Summary(_) => summary.None?
  {
    hide ReadLine, DistinctBy, SeenBy, Collected, SummaryIs;
    InNext(lines, i);
    KeyStep(lines, i, InstName, seenInst);
    KeyStep(lines, i, ConfName, seenConf);
    KeyStep(lines, i, SummaryKey, SummarySeen(summary));
  }

  lemma ActionsPrefix(lines: seq<string>, i: nat)
    requires i <= |lines| && !Actions(lines[..i])
    ensures !Actions(lines)
  {
    hide ReadLine;
    assert forall raw | raw in lines[..i] :: raw in lines;
  }

  function NextSummary(summary: Option<Totals>, raw: string): Option<Totals> {
    if ReadLine(raw).Summary? then Some(ReadLine(raw).totals) else summary
  }

  lemma SummaryStep(lines: seq<string>, i: nat, summary: Option<Totals>)
    requires i < |lines| && SummaryIs(summary, lines[..i]) && (ReadLine(lines[i]).Summary? ==> summary.None?)
    ensures SummaryIs(NextSummary(summary, lines[i]), lines[..i + 1])
  {
    hide ReadLine;
    InNext(lines, i);
  }

  lemma NewInst(lines: seq<string>, raw: string, seenInst: set<string>)
    requires SeenBy(seenInst, lines, InstName) && ReadLine(raw).Inst? && ReadLine(raw).raw !in seenInst
    ensures raw !in Insts(lines)
  {
    hide ReadLine;
    assert raw in lines ==> HasKey(lines, InstName, ReadLine(raw).raw);
  }

  lemma ReadStep(
    lines: seq<string>, i: nat, insts: seq<string>, confs: seq<string>, summary: Option<Totals>, seenInst: set<string>,
    seenConf: set<string>)
    requires i < |lines| && ReadSoFar(lines[..i], insts, confs, summary, seenInst, seenConf) && Actions(lines[..i + 1])
    ensures var raw := lines[i];
      ReadSoFar(lines[..i + 1], Collect(insts, raw, IS_INST), Collect(confs, raw, IS_CONF), NextSummary(summary, raw),
                With(seenInst, InstName(raw)), With(seenConf, ConfName(raw)))
  {
    hide ReadLine, DistinctBy, SeenBy, Collected, SummaryIs, Insts, Actions;
    var raw := lines[i];
    ActionsStep(lines, i, insts, confs, summary, seenInst, seenConf);
    ActionsDistinct(lines[..i]);
    KeyStep(lines, i, InstName, seenInst);
    KeyStep(lines, i, ConfName, seenConf);
    KeyStep(lines, i, SummaryKey, SummarySeen(summary));
    CollectStep(insts, lines, i, IS_INST);
    CollectStep(confs, lines, i, IS_CONF);
    SummaryStep(lines, i, summary);
    CountStep(lines, i, insts, seenInst);
    assert With(SummarySeen(summary), SummaryKey(raw)) == SummarySeen(NextSummary(summary, raw)) by {
      SummarySeenStep(summary, raw);
    }
  }

  lemma SummarySeenStep(summary: Option<Totals>, raw: string)
    requires ReadLine(raw).Summary? ==> summary.None?
    ensures With(SummarySeen(summary), SummaryKey(raw)) == SummarySeen(NextSummary(summary, raw))
  {
    hide ReadLine;
  }

  lemma CountStep(lines: seq<string>, i: nat, insts: seq<string>, seenInst: set<string>)
    requires i < |lines| && |insts| == |Insts(lines[..i])| && SeenBy(seenInst, lines[..i], InstName)
    requires ReadLine(lines[i]).Inst? ==> ReadLine(lines[i]).raw !in seenInst
    ensures |Collect(insts, lines[i], IS_INST)| == |Insts(lines[..i + 1])|
  {
    hide ReadLine, SeenBy, Insts;
    InstsStep(lines, i);
    if ReadLine(lines[i]).Inst? {
      NewInst(lines[..i], lines[i], seenInst);
    }
  }

  lemma ActionsDistinct(lines: seq<string>)
    requires Actions(lines)
    ensures DistinctBy(lines, InstName) && DistinctBy(lines, ConfName) && DistinctBy(lines, SummaryKey)
  {
  }

  /** The first loop: read every line, collect the changes and the configure actions. */
  method ReadActions(lines: seq<string>)
    returns (ok: bool, insts: seq<string>, confs: seq<string>, summary: Option<Totals>)
    ensures ok <==> Actions(lines)
    ensures ok ==> Collected(insts, lines, IS_INST) && |insts| == |Insts(lines)| && Collected(confs, lines, IS_CONF)
    ensures ok ==> SummaryIs(summary, lines)
  {
    hide ReadLine, Actions, Collected, SummaryIs, SeenBy, Insts;
    insts, confs, summary := [], [], None;
    var seenInst: set<string>, seenConf: set<string> := {}, {};
    NothingRead();
    for i := 0 to |lines|
      invariant ReadSoFar(lines[..i], insts, confs, summary, seenInst, seenConf)
    {
      var raw := lines[i];
      ActionsStep(lines, i, insts, confs, summary, seenInst, seenConf);
      if !Actions(lines[..i + 1]) {
        ActionsPrefix(lines, i + 1);
      } else {
        ReadStep(lines, i, insts, confs, summary, seenInst, seenConf);
      }
      match ReadLine(raw)
      case Ignored =>
      case Broken(_) =>
        ok := false;
        return;
      case Inst(name, _, _, _, _, _, _) =>
        if name in seenInst {
          ok := false;
          return;
        }
        seenInst := seenInst + {name};
        insts := insts + [raw];
      case Conf(name, _, _) =>
        if name in seenConf {
          ok := false;
          return;
        }
        seenConf := seenConf + {name};
        confs := confs + [raw];
      case Summary(totals) =>
        if summary.Some? {
          ok := false;
          return;
        }
        summary := Some(totals);
    }
    assert lines[..|lines|] == lines;
    AllRead(lines, insts, confs, summary, seenInst, seenConf);
    ok := true;
  }

  lemma NothingRead()
    ensures ReadSoFar([], [], [], None, {}, {})
  {
    hide ReadLine;
    assert Insts([]) == {};
  }

  lemma AllRead(
    lines: seq<string>, insts: seq<string>, confs: seq<string>, summary: Option<Totals>, seenInst: set<string>,
    seenConf: set<string>)
    requires ReadSoFar(lines, insts, confs, summary, seenInst, seenConf)
    ensures Actions(lines) && Collected(insts, lines, IS_INST) && Collected(confs, lines, IS_CONF)
    ensures |insts| == |Insts(lines)| && SummaryIs(summary, lines)
  {
  }

  // ----- the second loop: the changes against the inventory

  /** The packages of these changes, in the same order. */
  ghost predicate Resolved(packages: seq<PendingPackage>, insts: seq<string>) {
    && |packages| == |insts|
    && forall i | 0 <= i < |insts| :: Plans(insts[i], packages[i])
  }

  method ResolveChanges(insts: seq<string>, native: string, installed: Inventory)
    returns (ok: bool, packages: seq<PendingPackage>)
    requires forall raw | raw in insts :: ReadLine(raw).Inst?
    ensures ok <==>
      (forall raw | raw in insts :: Current(ReadLine(raw), native, installed)) && DistinctBy(insts, InstIdentity)
    ensures ok ==> Resolved(packages, insts)
  {
    hide ReadLine;
    packages := [];
    var identities: set<Identity> := {};
    for i := 0 to |insts|
      invariant forall raw | raw in insts[..i] :: Current(ReadLine(raw), native, installed)
      invariant DistinctBy(insts[..i], InstIdentity) && SeenBy(identities, insts[..i], InstIdentity)
      invariant Resolved(packages, insts[..i])
    {
      var raw := insts[i];
      assert raw in insts;
      var inst := ReadLine(raw);
      InNext(insts, i);
      KeyStep(insts, i, InstIdentity, identities);
      var architecture := Resolve(inst.name, inst.qualified, native, installed);
      if architecture.None? || installed[(inst.name, architecture.value)] != inst.installed {
        ok := false;
        return;
      }
      if architecture.value != inst.architecture {
        ok := false;
        return;
      }
      var identity := (inst.name, architecture.value);
      if identity in identities {
        KeyPrefix(insts, i + 1, InstIdentity);
        ok := false;
        return;
      }
      identities := identities + {identity};
      packages := packages + [Package(inst)];
    }
    assert insts[..|insts|] == insts;
    ok := true;
  }

  // ----- the third loop: the configure actions against the changes

  method CheckConfigured(confs: seq<string>, insts: seq<string>) returns (ok: bool)
    requires forall raw | raw in confs :: ReadLine(raw).Conf?
    ensures ok <==> forall raw | raw in confs :: ConfApproved(insts, ReadLine(raw))
  {
    hide ReadLine;
    for i := 0 to |confs|
      invariant forall raw | raw in confs[..i] :: ConfApproved(insts, ReadLine(raw))
    {
      InNext(confs, i);
      assert confs[i] in confs;
      var found := FindApproval(insts, ReadLine(confs[i]));
      if !found {
        ok := false;
        return;
      }
    }
    assert confs[..|confs|] == confs;
    ok := true;
  }

  /** The lookup of a configure action among the approved changes. */
  method FindApproval(insts: seq<string>, conf: Line) returns (found: bool)
    ensures found <==> ConfApproved(insts, conf)
  {
    hide ReadLine;
    for i := 0 to |insts|
      invariant !ConfApproved(insts[..i], conf)
    {
      InNext(insts, i);
      if Approves(ReadLine(insts[i]), conf) {
        assert insts[i] in insts;
        return true;
      }
    }
    assert insts[..|insts|] == insts;
    return false;
  }

  // ----- the whole parser

  lemma DistinctChanges(lines: seq<string>, insts: seq<string>)
    requires Collected(insts, lines, IS_INST) && DistinctBy(lines, InstName) && |insts| == |Insts(lines)|
    ensures DistinctBy(insts, InstIdentity) <==> DistinctBy(lines, InstIdentity)
  {
    hide ReadLine;
    NoRepeats(insts, Insts(lines));
    if DistinctBy(lines, InstIdentity) {
      forall i, j | 0 <= i < j < |insts| && InstIdentity(insts[i]).Some? ensures InstIdentity(insts[i]) != InstIdentity(insts[j]) {
        assert insts[i] in insts && insts[j] in insts;
        var p :| 0 <= p < |lines| && lines[p] == insts[i];
        var q :| 0 <= q < |lines| && lines[q] == insts[j];
      }
    }
    if DistinctBy(insts, InstIdentity) {
      forall p, q | 0 <= p < q < |lines| && InstIdentity(lines[p]).Some? ensures InstIdentity(lines[p]) != InstIdentity(lines[q]) {
        if InstIdentity(lines[q]).Some? {
          assert lines[p] in insts && lines[q] in insts;
          var i :| 0 <= i < |insts| && insts[i] == lines[p];
          var j :| 0 <= j < |insts| && insts[j] == lines[q];
          assert InstName(lines[p]) != InstName(lines[q]);
        }
      }
    }
  }

  /** A sequence with as many elements as it has distinct ones repeats none. */
  lemma {:induction false} NoRepeats(s: seq<string>, elements: set<string>)
    requires (forall x :: x in s <==> x in elements) && |s| == |elements|
    ensures forall i, j | 0 <= i < j < |s| :: s[i] != s[j]
  {
    forall i, j | 0 <= i < j < |s| ensures s[i] != s[j] {
      if s[i] == s[j] {
        var rest := s[..j] + s[j + 1..];
        assert forall x :: x in elements ==> x in rest by {
          forall x | x in elements ensures x in rest {
            var k :| 0 <= k < |s| && s[k] == x;
            if k < j {
              assert rest[k] == x;
            } else if j < k {
              assert rest[k - 1] == x;
            } else {
              assert rest[i] == x;
            }
          }
        }
        FewElements(rest, elements);
      }
    }
  }

  lemma {:induction false} FewElements(s: seq<string>, elements: set<string>)
    requires forall x :: x in elements ==> x in s
    ensures |elements| <= |s|
  {
    if s == [] {
      assert elements == {};
    } else {
      FewElements(s[1..], elements - {s[0]});
      assert |elements| <= |elements - {s[0]}| + 1;
    }
  }

  lemma SortedPackages(packages: seq<PendingPackage>, insts: seq<string>, lines: seq<string>)
    requires Resolved(packages, insts) && Collected(insts, lines, IS_INST) && DistinctBy(insts, InstIdentity)
    ensures PackagesAre(SortBy(packages, PackageIdentity), lines)
    ensures |SortBy(packages, PackageIdentity)| == |insts|
  {
    hide ReadLine;
    forall i, j | 0 <= i < j < |packages| ensures PackageIdentity(packages[i]) != PackageIdentity(packages[j]) {
      assert Plans(insts[i], packages[i]) && Plans(insts[j], packages[j]);
    }
    SortSorts(packages, PackageIdentity);
    forall p: PendingPackage ensures p in packages <==> Planned(lines, p) {
      if p in packages {
        var i :| 0 <= i < |packages| && packages[i] == p;
        assert insts[i] in insts && Plans(insts[i], p);
      }
      if Planned(lines, p) {
        var raw :| raw in lines && Plans(raw, p);
        assert raw in insts;
        var i :| 0 <= i < |insts| && insts[i] == raw;
        assert Plans(insts[i], packages[i]);
      }
    }
  }

  /** parse_apt_simulation, once the inventory is known to be finished. */
  method ParseActions(lines: seq<string>, native: string, installed: Inventory) returns (r: Result<Simulation>)
    ensures SimulationIs(r, lines, native, installed)
  {
    hide ReadLine, Current, Collected, Insts, DistinctBy, Resolved;
    var ok, insts, confs, summary := ReadActions(lines);
    if !ok {
      return Err(MalformedPlan);
    }
    CollectedAre(lines, insts, confs);
    if summary.None? {
      return Err(MalformedPlan);
    }
    var totals := summary.value;
    if totals.added != 0 || totals.removed != 0 || totals.upgraded != |insts| {
      return Err(MalformedPlan);
    }
    DistinctChanges(lines, insts);
    var current, packages := ResolveChanges(insts, native, installed);
    if !current {
      return Err(GuestChangedDuringScan);
    }
    var configured := CheckConfigured(confs, insts);
    if !configured {
      return Err(MalformedPlan);
    }
    SortedPackages(packages, insts, lines);
    return Ok(Simulation(SortBy(packages, PackageIdentity), totals.held));
  }

  lemma CollectedAre(lines: seq<string>, insts: seq<string>, confs: seq<string>)
    requires Collected(insts, lines, IS_INST) && Collected(confs, lines, IS_CONF) && Actions(lines)
    ensures forall raw :: raw in insts <==> raw in lines && ReadLine(raw).Inst?
    ensures forall raw :: raw in confs <==> raw in lines && ReadLine(raw).Conf?
    ensures forall conf :: ConfApproved(insts, conf) <==> ConfApproved(lines, conf)
    ensures DistinctBy(lines, InstName)
  {
    hide ReadLine;
  }

  // ----- with the architecture and the inventory the guest reported

  function NonBlank(lines: seq<string>): seq<string> {
    if lines == [] then []
    else if Strip(lines[0]) == "" then NonBlank(lines[1..])
    else [Strip(lines[0])] + NonBlank(lines[1..])
  }

  /** parse_native_architecture. */
  function ReadNative(lines: seq<string>, size: nat): Option<string> {
    var named := NonBlank(lines);
    if size > MAX_NATIVE_BYTES || |named| != 1 || named[0] == "all" || !ValidArchitecture(named[0]) then None
    else Some(named[0])
  }

  /** The texts the guest answered with, as lines and encoded sizes. */
  datatype Evidence = Evidence(
    simulation: seq<string>, simulationSize: nat, native: seq<string>, nativeSize: nat, inventory: seq<string>,
    inventorySize: nat)

  ghost predicate PlanIs(r: Result<Simulation>, e: Evidence, inventory: Result<InstalledInventory>) {
    var native := ReadNative(e.native, e.nativeSize);
    && InventoryIs(inventory, e.inventory, e.inventorySize)
    && (r.Ok? ==>
      && e.simulationSize <= MAX_SIMULATION_BYTES && native.Some? && inventory.Ok? && inventory.value.unfinished == []
      && SimulationIs(r, e.simulation, native.value, inventory.value.installed))
    && (r.Err? ==>
      || e.simulationSize > MAX_SIMULATION_BYTES || native.None? || inventory.Err? || inventory.value.unfinished != []
      || !Acceptable(e.simulation, native.value, inventory.value.installed))
  }

  /** parse_apt_simulation. */
  method ParseAptSimulation(e: Evidence) returns (r: Result<Simulation>, inventory: Result<InstalledInventory>)
    ensures PlanIs(r, e, inventory)
  {
    hide SimulationIs, InventoryIs, ReadNative, Acceptable;
    inventory := ParseInstalledInventory(e.inventory, e.inventorySize);
    if e.simulationSize > MAX_SIMULATION_BYTES {
      return Err(MalformedPlan), inventory;
    }
    var native := ReadNative(e.native, e.nativeSize);
    if native.None? {
      return Err(MalformedPlan), inventory;
    }
    if inventory.Err? {
      return Err(inventory.failure), inventory;
    }
    if inventory.value.unfinished != [] {
      return Err(DpkgUnfinished), inventory;
    }
    r := ParseActions(e.simulation, native.value, inventory.value.installed);
    assert r.Ok? <==> Acceptable(e.simulation, native.value, inventory.value.installed) by {
      AcceptedIs(r, e.simulation, native.value, inventory.value.installed);
    }
  }

  lemma AcceptedIs(r: Result<Simulation>, lines: seq<string>, native: string, installed: Inventory)
    requires SimulationIs(r, lines, native, installed)
    ensures r.Ok? <==> Acceptable(lines, native, installed)
  {
    hide Acceptable;
  }

  // ----- order independence

  lemma PermutedAcceptable(a: seq<string>, b: seq<string>, native: string, installed: Inventory)
    requires multiset(a) == multiset(b) && Acceptable(a, native, installed)
    ensures Acceptable(b, native, installed)
  {
    hide ReadLine, Current, DistinctBy;
    PermutedElements(a, b);
    PermutedDistinct(a, b, InstName);
    PermutedDistinct(a, b, ConfName);
    PermutedDistinct(a, b, SummaryKey);
    PermutedDistinct(a, b, InstIdentity);
    assert Insts(a) == Insts(b);
    forall raw | raw in b && ReadLine(raw).Conf? ensures ConfApproved(b, ReadLine(raw)) {
      assert ConfApproved(a, ReadLine(raw));
    }
  }

  lemma OneSummary(lines: seq<string>, x: string, y: string)
    requires Actions(lines) && x in lines && y in lines && ReadLine(x).Summary? && ReadLine(y).Summary?
    ensures x == y
  {
    hide ReadLine;
    var i :| 0 <= i < |lines| && lines[i] == x;
    var j :| 0 <= j < |lines| && lines[j] == y;
    assert SummaryKey(lines[i]) == SummaryKey(lines[j]);
  }

  /** Permuting the lines of the simulation changes neither acceptance nor the parsed plan. */
  lemma LineOrderIsIrrelevant(
    a: seq<string>, b: seq<string>, native: string, installed: Inventory, r1: Result<Simulation>, r2: Result<Simulation>)
    requires multiset(a) == multiset(b) && SimulationIs(r1, a, native, installed) && SimulationIs(r2, b, native, installed)
    ensures r1.Ok? == r2.Ok? && (r1.Ok? ==> r1 == r2)
  {
    hide ReadLine, Current, DistinctBy;
    PermutedElements(a, b);
    if r1.Ok? {
      PermutedAcceptable(a, b, native, installed);
    }
    if r2.Ok? {
      PermutedAcceptable(b, a, native, installed);
    }
    if r1.Ok? && r2.Ok? {
      assert forall p :: Planned(a, p) <==> Planned(b, p);
      assert SameElements(r1.value.packages, r2.value.packages);
      SortedIsUnique(r1.value.packages, r2.value.packages, PackageIdentity);
      var x :| x in a && ReadLine(x).Summary? && ReadLine(x).totals.held == r1.value.notUpgraded;
      var y :| y in b && ReadLine(y).Summary? && ReadLine(y).totals.held == r2.value.notUpgraded;
      OneSummary(a, x, y);
    }
  }

  /** So does permuting the rows of the inventory it is read against. */
  lemma EvidenceOrderIsIrrelevant(
    e1: Evidence, e2: Evidence, r1: Result<Simulation>, r2: Result<Simulation>, i1: Result<InstalledInventory>,
    i2: Result<InstalledInventory>)
    requires multiset(e1.simulation) == multiset(e2.simulation) && multiset(e1.inventory) == multiset(e2.inventory)
    requires e1 == e2.(simulation := e1.simulation, inventory := e1.inventory)
    requires PlanIs(r1, e1, i1) && PlanIs(r2, e2, i2)
    ensures r1.Ok? == r2.Ok? && (r1.Ok? ==> r1 == r2)
  {
    hide SimulationIs, InventoryIs, ReadNative, Acceptable;
    RowOrderIsIrrelevant(e1.inventory, e2.inventory, e1.inventorySize, i1, i2);
    var native := ReadNative(e1.native, e1.nativeSize);
    if native.Some? && i1.Ok? {
      var installed := i1.value.installed;
      if Acceptable(e1.simulation, native.value, installed) {
        PermutedAcceptable(e1.simulation, e2.simulation, native.value, installed);
      }
      if Acceptable(e2.simulation, native.value, installed) {
        PermutedAcceptable(e2.simulation, e1.simulation, native.value, installed);
      }
      if r1.Ok? {
        AcceptedIs(r1, e1.simulation, native.value, installed);
      }
      if r2.Ok? {
        AcceptedIs(r2, e2.simulation, native.value, installed);
      }
      if r1.Ok? && r2.Ok? {
        LineOrderIsIrrelevant(e1.simulation, e2.simulation, native.value, installed, r1, r2);
      }
    }
  }

  // ----- consistency of an accepted plan

  /**
   An accepted plan is exactly what APT counted: as many packages as it says are upgraded, none added or removed,
   strictly sorted by identity, each installed in exactly the stated version, and every configure action is one
   of a planned package.
   */
  lemma AcceptedPlanIsConsistent(lines: seq<string>, native: string, installed: Inventory, r: Result<Simulation>)
    requires SimulationIs(r, lines, native, installed) && r.Ok?
    ensures SortedBy(r.value.packages, PackageIdentity)
    ensures forall p | p in r.value.packages ::
      PackageIdentity(p) in installed && installed[PackageIdentity(p)] == p.installedVersion
    ensures forall raw | raw in lines && ReadLine(raw).Summary? ::
      ReadLine(raw).totals == Totals(|r.value.packages|, 0, 0, r.value.notUpgraded)
    ensures forall raw | raw in lines && ReadLine(raw).Conf? ::
      exists inst | inst in lines ::
        Approves(ReadLine(inst), ReadLine(raw)) && Package(ReadLine(inst)) in r.value.packages
  {
    hide ReadLine, DistinctBy;
    forall raw | raw in lines && ReadLine(raw).Summary?
      ensures ReadLine(raw).totals == Totals(|r.value.packages|, 0, 0, r.value.notUpgraded)
    {
      var x :| x in lines && UpgradeOnly(x, |Insts(lines)|);
      var y :| y in lines && ReadLine(y).Summary? && ReadLine(y).totals.held == r.value.notUpgraded;
      OneSummary(lines, x, raw);
      OneSummary(lines, y, raw);
    }
    forall p | p in r.value.packages
      ensures PackageIdentity(p) in installed && installed[PackageIdentity(p)] == p.installedVersion
    {
      var raw :| raw in lines && Plans(raw, p);
      assert Current(ReadLine(raw), native, installed);
    }
    forall raw | raw in lines && ReadLine(raw).Conf?
      ensures exists inst | inst in lines ::
        Approves(ReadLine(inst), ReadLine(raw)) && Package(ReadLine(inst)) in r.value.packages
    {
      assert ConfApproved(lines, ReadLine(raw));
      var inst :| inst in lines && Approves(ReadLine(inst), ReadLine(raw));
      assert Plans(inst, Package(ReadLine(inst))) && Planned(lines, Package(ReadLine(inst)));
    }
  }

  // ----- plan equality

  type PlanRow = (string, string, string, string)

  predicate PlansRow(raw: string, row: PlanRow) {
    ReadLine(raw).Inst? && row == (ReadLine(raw).name, ReadLine(raw).architecture, ReadLine(raw).installed, ReadLine(raw).candidate)
  }

  ghost predicate RowPlanned(lines: seq<string>, row: PlanRow) { exists raw | raw in lines :: PlansRow(raw, row) }

  function RowIdentity(row: PlanRow): Identity { (row.0, row.1) }

  lemma TupleElements(packages: seq<PendingPackage>, lines: seq<string>)
    requires PackagesAre(packages, lines)
    ensures SortedBy(PlanTuple(packages), RowIdentity)
    ensures forall row: PlanRow :: row in PlanTuple(packages) <==> RowPlanned(lines, row)
  {
    hide ReadLine, Security;
    var tuple := PlanTuple(packages);
    forall i, j | 0 <= i < j < |tuple| ensures IdentityBefore(RowIdentity(tuple[i]), RowIdentity(tuple[j])) {
      assert IdentityBefore(PackageIdentity(packages[i]), PackageIdentity(packages[j]));
    }
    forall row: PlanRow ensures row in tuple <==> RowPlanned(lines, row) {
      if row in tuple {
        var i :| 0 <= i < |tuple| && tuple[i] == row;
        assert packages[i] in packages;
        var raw :| raw in lines && Plans(raw, packages[i]);
        assert PlansRow(raw, row);
      }
      if RowPlanned(lines, row) {
        var raw :| raw in lines && PlansRow(raw, row);
        assert Plans(raw, Package(ReadLine(raw))) && Planned(lines, Package(ReadLine(raw)));
        var i :| 0 <= i < |packages| && packages[i] == Package(ReadLine(raw));
        assert tuple[i] == row;
      }
    }
  }

  /**
   Two accepted plans are equal to the manager, which compares their projected tuples, exactly when they plan the
   same set of (name, architecture, installed, candidate) rows.
   */
  lemma PlanTuplesDecide(a: seq<string>, b: seq<string>, p: seq<PendingPackage>, q: seq<PendingPackage>)
    requires PackagesAre(p, a) && PackagesAre(q, b)
    ensures PlanTuple(p) == PlanTuple(q) <==> forall row: PlanRow :: RowPlanned(a, row) <==> RowPlanned(b, row)
  {
    hide RowPlanned, PackagesAre, PlanTuple;
    TupleElements(p, a);
    TupleElements(q, b);
    if forall row: PlanRow :: RowPlanned(a, row) <==> RowPlanned(b, row) {
      SortedIsUnique(PlanTuple(p), PlanTuple(q), RowIdentity);
    }
  }
}
