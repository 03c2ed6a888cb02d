/**
 The Health pipeline: three timed reads of a guest that goes on changing (deploy/hubinet-package-scan-helper.py),
 the evidence made of them, its way over the wire (packages/transport.py) and the verdict (packages/models.py).
 */
module Health {
  import opened Models
  import opened Wire
  import opened Sequences
  import opened Inventories
  import opened Transport

  // ----- the guest

  /** The dpkg database at one moment, and whether a writer holds its lock. */
  datatype Guest = Guest(statuses: Statuses, locked: bool)

  const PENDING_WORDS: set<string> := {"half-configured", "unpacked", "triggers-awaited", "triggers-pending"}

  function Half(statuses: Statuses): set<Identity> { set k | k in statuses && statuses[k] == "half-installed" }

  function Pending(statuses: Statuses): set<Identity> { set k | k in statuses && statuses[k] in PENDING_WORDS }

  // ----- the audit

  /** What dpkg --audit printed, or that it could not be established. */
  datatype Audit =
    | AuditTimedOut
    | AuditUnreadable
    | AuditPrinted(busyNotice: bool, halfSection: bool, messSection: bool)

  /**
   dpkg --audit reads the database and then tests the lock, but only once what it read shows a problem. A
   half-installed package appears in one of two sections.
   */
  predicate AuditOf(audit: Audit, read: Guest, tested: Guest) {
    audit.AuditPrinted? ==>
      && (audit.halfSection || audit.messSection <==> Half(read.statuses) != {})
      && (audit.busyNotice <==> (Half(read.statuses) != {} || Pending(read.statuses) != {}) && tested.locked)
  }

  // ----- _check_dpkg_health

  datatype Dpkg = Dpkg(state: DpkgState, unfinished: Option<nat>)

  predicate Persisted(first: Statuses, second: Statuses) {
    forall k | k in Half(first) :: k in second && second[k] == first[k]
  }

  /** None when the audit timed out. The second read is taken only when the first shows something half-installed. */
  function CheckDpkg(first: Statuses, second: Statuses, audit: Audit): Option<Dpkg> {
    var half := Half(first);
    if half == {} && Pending(first) == {} then Some(Dpkg(DpkgOk, None))
    else
      match audit
      case AuditTimedOut => None
      case AuditUnreadable => Some(Dpkg(DpkgLockUnknown, None))
      case AuditPrinted(busyNotice, halfSection, messSection) =>
        if busyNotice then Some(Dpkg(DpkgBusy, None))
        else if half == {} then Some(Dpkg(DpkgPending, None))
        else if Persisted(first, second) && (halfSection || messSection) then Some(Dpkg(DpkgInterrupted, Some(|half|)))
        else Some(Dpkg(DpkgChanged, None))
  }

  predicate HasHalf(statuses: Statuses) { exists k :: k in statuses && statuses[k] == "half-installed" }

  predicate HasPending(statuses: Statuses) {
    exists k :: k in statuses
      && (statuses[k] == "half-configured" || statuses[k] == "unpacked" || statuses[k] == "triggers-awaited"
          || statuses[k] == "triggers-pending")
  }

  /** Every package the first read shows half-installed is still so at the second. */
  predicate StillHalf(first: Statuses, second: Statuses) {
    forall k | k in first && first[k] == "half-installed" :: k in second && second[k] == "half-installed"
  }

  predicate ShowsHalf(audit: Audit) { audit.AuditPrinted? && !audit.busyNotice && (audit.halfSection || audit.messSection) }

  /** What is reported, and nothing else is, for each combination of the two reads and the audit. */
  predicate DpkgCalledFor(state: DpkgState, first: Statuses, second: Statuses, audit: Audit) {
    match state
    case DpkgOk => !HasHalf(first) && !HasPending(first)
    case DpkgLockUnknown => (HasHalf(first) || HasPending(first)) && audit == AuditUnreadable
    case DpkgBusy => (HasHalf(first) || HasPending(first)) && audit.AuditPrinted? && audit.busyNotice
    case DpkgPending => !HasHalf(first) && HasPending(first) && audit.AuditPrinted? && !audit.busyNotice
    case DpkgInterrupted => HasHalf(first) && StillHalf(first, second) && ShowsHalf(audit)
    case DpkgChanged =>
      HasHalf(first) && audit.AuditPrinted? && !audit.busyNotice && !(StillHalf(first, second) && ShowsHalf(audit))
  }

  lemma HalfExactly(statuses: Statuses)
    ensures Half(statuses) != {} <==> HasHalf(statuses)
    ensures Pending(statuses) != {} <==> HasPending(statuses)
  {
    if k :| k in Half(statuses) {
      assert k in statuses && statuses[k] == "half-installed";
    }
    if k :| k in statuses && statuses[k] == "half-installed" {
      assert k in Half(statuses);
    }
    if k :| k in Pending(statuses) {
      assert k in statuses && statuses[k] in PENDING_WORDS;
    }
    if k :| k in statuses && statuses[k] in PENDING_WORDS {
      assert k in Pending(statuses);
    }
  }

  /** The check reports each state exactly when it is called for, and fails exactly on a timed-out audit of a problem. */
  lemma CheckExactly(first: Statuses, second: Statuses, audit: Audit, state: DpkgState)
    ensures (CheckDpkg(first, second, audit).Some? && CheckDpkg(first, second, audit).value.state == state)
      <==> DpkgCalledFor(state, first, second, audit)
    ensures CheckDpkg(first, second, audit).None? <==> (HasHalf(first) || HasPending(first)) && audit == AuditTimedOut
  {
    hide HasHalf, HasPending, Pending;
    HalfExactly(first);
    assert Persisted(first, second) <==> StillHalf(first, second) by {
      PersistedExactly(first, second);
    }
  }

  lemma PersistedExactly(first: Statuses, second: Statuses)
    ensures Persisted(first, second) <==> StillHalf(first, second)
  {
    assert forall k :: k in Half(first) <==> k in first && first[k] == "half-installed";
  }

  /** One check against a guest that changes in between, each step reading it no earlier than the one before. */
  datatype Check = Check(firstRead: nat, secondRead: nat, auditRead: nat, auditTest: nat, audit: Audit)

  predicate Ordered(c: Check) { c.firstRead <= c.secondRead <= c.auditRead <= c.auditTest }

  function Checked(history: nat -> Guest, c: Check): Option<Dpkg> {
    CheckDpkg(history(c.firstRead).statuses, history(c.secondRead).statuses, c.audit)
  }

  /**
   The race. An "interrupted" report means that the lock was free when the audit tested it, whatever the guest did
   in between, so a writer that holds the lock from the first read through the audit can never cause it; that every
   package half-installed at the first read was still so at the second; and that some package still was when the
   audit read.
   */
  lemma InterruptedMeansNoWriter(history: nat -> Guest, c: Check)
    requires Ordered(c) && AuditOf(c.audit, history(c.auditRead), history(c.auditTest))
    requires Checked(history, c).Some? && Checked(history, c).value.state.DpkgInterrupted?
    ensures !history(c.auditTest).locked
    ensures Persisted(history(c.firstRead).statuses, history(c.secondRead).statuses)
    ensures Half(history(c.auditRead).statuses) != {}
    ensures Checked(history, c).value.unfinished == Some(|Half(history(c.firstRead).statuses)|)
      && |Half(history(c.firstRead).statuses)| >= 1
  {
    var half := Half(history(c.firstRead).statuses);
    assert half != {} ==> |half| >= 1;
  }

  lemma WriterIsNeverInterrupted(history: nat -> Guest, c: Check)
    requires Ordered(c) && AuditOf(c.audit, history(c.auditRead), history(c.auditTest))
    requires forall t | c.firstRead <= t <= c.auditTest :: history(t).locked
    ensures Checked(history, c).Some? ==> !Checked(history, c).value.state.DpkgInterrupted?
  {
    if Checked(history, c).Some? && Checked(history, c).value.state.DpkgInterrupted? {
      InterruptedMeansNoWriter(history, c);
    }
  }

  /** The order matters: with the audit taken before the second read, a writer could be reported as interrupted. */
  lemma AuditFirstWouldBlameWriters()
    ensures exists history: nat -> Guest, audit: Audit ::
      && AuditOf(audit, history(1), history(1)) && history(2).locked
      && CheckDpkg(history(0).statuses, history(2).statuses, audit) == Some(Dpkg(DpkgInterrupted, Some(1)))
  {
    var broken: Statuses := map[("p", "amd64") := "half-installed"];
    var history := (t: nat) => Guest(broken, t == 2);
    var audit := AuditPrinted(false, true, false);
    assert ("p", "amd64") in Half(broken);
    assert Half(broken) == {("p", "amd64")};
    assert AuditOf(audit, history(1), history(1)) && history(2).locked;
    assert CheckDpkg(history(0).statuses, history(2).statuses, audit) == Some(Dpkg(DpkgInterrupted, Some(1)));
  }

  // ----- _check_health

  /** What the commands of one check came back with; `reboot` is None when its probe produced no result. */
  datatype Run = Run(execOk: bool, runningAfterExec: bool, dpkg: Option<Dpkg>, reboot: Option<int>, runningAfterReboot: bool)

  function DpkgWord(state: DpkgState): string {
    match state
    case DpkgOk => "ok"
    case DpkgInterrupted => "interrupted"
    case DpkgPending => "pending"
    case DpkgBusy => "busy"
    case DpkgLockUnknown => "lock_unknown"
    case DpkgChanged => "changed"
  }

  function EvidenceJson(exec: bool, unavailable: bool, dpkg: Json, unfinished: Json, reboot: Json): Json {
    Object(map["guest_exec" := Bool(exec), "guest_exec_unavailable" := Bool(unavailable), "dpkg" := dpkg,
               "unfinished_package_count" := unfinished, "reboot_required" := reboot])
  }

  const GONE := EvidenceJson(false, true, Null, Null, Null)

  /** The evidence, or None when the check ends in a classified failure instead. */
  function CheckHealth(run: Run): Option<Json> {
    if !run.execOk then Some(EvidenceJson(false, !run.runningAfterExec, Null, Null, Null))
    else if run.dpkg.None? then None
    else
      var dpkg := run.dpkg.value;
      var interrupted := dpkg.state.DpkgInterrupted?;
      if run.reboot.None? && !interrupted then None
      else
        var unfinished := if dpkg.unfinished.Some? then Int(dpkg.unfinished.value) else Null;
        var evidence := (reboot: Json) => EvidenceJson(true, false, Str(DpkgWord(dpkg.state)), unfinished, reboot);
        if run.reboot == Some(0) then Some(evidence(Bool(true)))
        else if !run.runningAfterReboot then Some(GONE)
        else if run.reboot != Some(1) && !interrupted then None
        else Some(evidence(Null))
  }

  /** The response around it (_response_base and handle_request). */
  function Envelope(evidence: Json, node: string, vmid: int, helperVersion: int): Json {
    Object(map["protocol_version" := Int(PROTOCOL_VERSION), "helper_version" := Int(helperVersion),
               "operation" := Str("check_health"),
               "target" := Object(map["node" := Str(node), "vmid" := Int(vmid)]),
               "ok" := Bool(true), "evidence" := evidence])
  }

  // ----- _parse_health_response

  datatype Parsed = Parsed(evidence: HealthEvidence) | Unparsed(reason: HealthReason)

  function FailureReason(classification: Json): HealthReason {
    if classification == Str("guest_unavailable") || classification == Str("identity_mismatch") then HealthGuestUnavailable
    else if classification == Str("timeout") then HealthTimeout
    else if classification == Str("package_manager_busy") then HealthManagerBusy
    else if classification == Str("unsupported_guest") then UnsupportedGuest
    else MalformedEvidence
  }

  const EVIDENCE_KEYS: set<string> :=
    {"guest_exec", "guest_exec_unavailable", "dpkg", "unfinished_package_count", "reboot_required"}

  function DpkgOf(word: Json): Option<DpkgState> {
    if word == Str("ok") then Some(DpkgOk)
    else if word == Str("interrupted") then Some(DpkgInterrupted)
    else if word == Str("pending") then Some(DpkgPending)
    else if word == Str("busy") then Some(DpkgBusy)
    else if word == Str("lock_unknown") then Some(DpkgLockUnknown)
    else if word == Str("changed") then Some(DpkgChanged)
    else None
  }

  predicate TypesOk(e: Json) {
    && Get(e, "guest_exec").Bool? && Get(e, "guest_exec_unavailable").Bool?
    && (Get(e, "dpkg").Null? || DpkgOf(Get(e, "dpkg")).Some?)
    && (Get(e, "unfinished_package_count").Null?
        || (Get(e, "unfinished_package_count").Int? && Get(e, "unfinished_package_count").n >= 0))
    && (Get(e, "reboot_required").Null? || Get(e, "reboot_required") == Bool(true))
  }

  function TypedEvidence(e: Json): HealthEvidence
    requires TypesOk(e)
  {
    HealthEvidence(
      Get(e, "guest_exec").b, Get(e, "guest_exec_unavailable").b,
      if Get(e, "dpkg").Null? then None else DpkgOf(Get(e, "dpkg")),
      if Get(e, "unfinished_package_count").Null? then None else Some(Get(e, "unfinished_package_count").n),
      if Get(e, "reboot_required").Null? then None else Some(true))
  }

  /** No combination of individually valid fields that contradicts itself. */
  predicate Coherent(e: HealthEvidence) {
    && (if e.guestExec then !e.guestExecUnavailable && e.dpkg.Some?
        else e.dpkg.None? && e.unfinishedCount.None? && e.rebootRequired.None?)
    && (if e.dpkg == Some(DpkgInterrupted) then e.unfinishedCount.Some? && e.unfinishedCount.value >= 1
        else e.unfinishedCount.None?)
  }

  function ParseHealthResponse(payload: Json, node: string, vmid: int): Parsed {
    if !payload.Object? then Unparsed(HealthProtocolMismatch)
    else if !ProtocolKnown(payload) then Unparsed(HealthProtocolMismatch)
    else if !HelperVersioned(payload) || Get(payload, "operation") != Str("check_health") then Unparsed(HealthHelperOutdated)
    else
      var target := Get(payload, "target");
      if Get(payload, "ok") != Bool(true) then
        if TargetContradicts(target, node, vmid) then Unparsed(HealthGuestUnavailable)
        else Unparsed(FailureReason(Get(Get(payload, "error"), "classification")))
      else if !TargetMatches(target, node, vmid) then Unparsed(HealthGuestUnavailable)
      else
        var e := Get(payload, "evidence");
        if !e.Object? || e.fields.Keys != EVIDENCE_KEYS || !TypesOk(e) || !Coherent(TypedEvidence(e)) then
          Unparsed(MalformedEvidence)
        else Parsed(TypedEvidence(e))
  }

  // ----- classify_health

  function ClassifyHealth(e: HealthEvidence): HealthOutcome {
    if !e.guestExec then
      if e.guestExecUnavailable then HealthOutcome(None, Some(HealthGuestUnavailable), Some(e))
      else HealthOutcome(Some(Unhealthy), Some(GuestExecFailed), Some(e))
    else if e.dpkg.None? then HealthOutcome(None, Some(MalformedEvidence), Some(e))
    else
      match e.dpkg.value
      case DpkgOk => HealthOutcome(Some(if e.rebootRequired == Some(true) then Degraded else Healthy), None, Some(e))
      case DpkgInterrupted => HealthOutcome(Some(Unhealthy), Some(DpkgInterruptedReason), Some(e))
      case DpkgPending => HealthOutcome(None, Some(DpkgPendingReason), Some(e))
      case DpkgBusy => HealthOutcome(None, Some(HealthManagerBusy), Some(e))
      case DpkgLockUnknown => HealthOutcome(None, Some(DpkgLockUnknownReason), Some(e))
      case DpkgChanged => HealthOutcome(None, Some(GuestChanged), Some(e))
  }

  function Verdict(payload: Json, node: string, vmid: int): HealthOutcome {
    match ParseHealthResponse(payload, node, vmid)
    case Unparsed(reason) => HealthOutcome(None, Some(reason), None)
    case Parsed(evidence) => ClassifyHealth(evidence)
  }

  // ----- end to end

  /** What _check_dpkg_health can return. */
  predicate Reportable(dpkg: Dpkg) {
    if dpkg.state.DpkgInterrupted? then dpkg.unfinished.Some? && dpkg.unfinished.value >= 1 else dpkg.unfinished.None?
  }

  lemma ChecksAreReportable(first: Statuses, second: Statuses, audit: Audit)
    ensures CheckDpkg(first, second, audit).Some? ==> Reportable(CheckDpkg(first, second, audit).value)
  {
    assert Half(first) != {} ==> |Half(first)| >= 1;
  }

  predicate Possible(run: Run) { run.dpkg.Some? ==> Reportable(run.dpkg.value) }

  lemma EvidenceFields(exec: bool, unavailable: bool, dpkg: Json, unfinished: Json, reboot: Json)
    ensures var e := EvidenceJson(exec, unavailable, dpkg, unfinished, reboot);
      && e.fields.Keys == EVIDENCE_KEYS
      && Get(e, "guest_exec") == Bool(exec) && Get(e, "guest_exec_unavailable") == Bool(unavailable)
      && Get(e, "dpkg") == dpkg && Get(e, "unfinished_package_count") == unfinished && Get(e, "reboot_required") == reboot
  {
  }

  lemma EnvelopeFields(evidence: Json, node: string, vmid: int, helperVersion: int)
    ensures var p := Envelope(evidence, node, vmid, helperVersion);
      && p.Object? && Get(p, "protocol_version") == Int(PROTOCOL_VERSION)
      && Get(p, "helper_version") == Int(helperVersion) && Get(p, "operation") == Str("check_health")
      && TargetMatches(Get(p, "target"), node, vmid)
      && Get(p, "ok") == Bool(true) && Get(p, "evidence") == evidence
  {
    var target := Object(map["node" := Str(node), "vmid" := Int(vmid)]);
    assert "node" in target.fields;
  }

  lemma WordsReadBack(state: DpkgState)
    ensures DpkgOf(Str(DpkgWord(state))) == Some(state)
  {
  }

  /** Every piece of evidence the helper can report is well typed and coherent. */
  lemma EvidenceIsCoherent(run: Run)
    requires Possible(run) && CheckHealth(run).Some?
    ensures var e := CheckHealth(run).value;
      e.Object? && e.fields.Keys == EVIDENCE_KEYS && TypesOk(e) && Coherent(TypedEvidence(e))
    ensures TypedEvidence(CheckHealth(run).value) == Expected(run)
  {
    hide EvidenceJson, EVIDENCE_KEYS, DpkgWord, DpkgOf;
    EvidenceFields(false, !run.runningAfterExec, Null, Null, Null);
    EvidenceFields(false, true, Null, Null, Null);
    if run.dpkg.Some? {
      var dpkg := run.dpkg.value;
      var unfinished := if dpkg.unfinished.Some? then Int(dpkg.unfinished.value) else Null;
      WordsReadBack(dpkg.state);
      EvidenceFields(true, false, Str(DpkgWord(dpkg.state)), unfinished, Bool(true));
      EvidenceFields(true, false, Str(DpkgWord(dpkg.state)), unfinished, Null);
    }
  }

  /** The typed evidence of a run, stated without the wire. */
  function Expected(run: Run): HealthEvidence
    requires CheckHealth(run).Some?
  {
    if !run.execOk then HealthEvidence(false, !run.runningAfterExec, None, None, None)
    else if run.reboot != Some(0) && !run.runningAfterReboot then HealthEvidence(false, true, None, None, None)
    else
      var dpkg := run.dpkg.value;
      var unfinished: Option<int> := if dpkg.unfinished.Some? then Some(dpkg.unfinished.value) else None;
      HealthEvidence(true, false, Some(dpkg.state), unfinished, if run.reboot == Some(0) then Some(true) else None)
  }

  lemma EvidenceSurvivesTheWire(run: Run, node: string, vmid: int, helperVersion: int)
    requires Possible(run) && CheckHealth(run).Some? && helperVersion >= 1
    ensures ParseHealthResponse(Envelope(CheckHealth(run).value, node, vmid, helperVersion), node, vmid) == Parsed(Expected(run))
  {
    hide CheckHealth, Envelope, TypesOk, TypedEvidence, Coherent, TargetMatches, EVIDENCE_KEYS, Expected;
    EnvelopeFields(CheckHealth(run).value, node, vmid, helperVersion);
    EvidenceIsCoherent(run);
  }

  /**
   End to end. The verdict is HEALTHY exactly when dpkg was fine, the reboot probe said no and the guest was still
   running afterwards; DEGRADED exactly when dpkg was fine and the marker exists; FAILED only for a failed exec in a
   running guest or an interrupted dpkg.
   */
  lemma VerdictsMeanWhatTheySay(run: Run, node: string, vmid: int, helperVersion: int)
    requires Possible(run) && CheckHealth(run).Some? && helperVersion >= 1
    ensures var state := Verdict(Envelope(CheckHealth(run).value, node, vmid, helperVersion), node, vmid).state;
      && (state == Some(Healthy) <==>
        run.execOk && run.dpkg == Some(Dpkg(DpkgOk, None)) && run.reboot == Some(1) && run.runningAfterReboot)
      && (state == Some(Degraded) <==> run.execOk && run.dpkg == Some(Dpkg(DpkgOk, None)) && run.reboot == Some(0))
      && (state == Some(Unhealthy) <==>
        || (!run.execOk && run.runningAfterExec)
        || (run.execOk && run.dpkg.Some? && run.dpkg.value.state.DpkgInterrupted?
            && (run.reboot == Some(0) || run.runningAfterReboot)))
  {
    hide Envelope, ParseHealthResponse;
    EvidenceSurvivesTheWire(run, node, vmid, helperVersion);
  }

  /** Whatever arrives, accepted evidence is coherent and about this guest, so the fallback verdict is never taken. */
  lemma AcceptedEvidenceIsCoherent(payload: Json, node: string, vmid: int)
    ensures ParseHealthResponse(payload, node, vmid).Parsed? ==>
      && Coherent(ParseHealthResponse(payload, node, vmid).evidence)
      && TargetMatches(Get(payload, "target"), node, vmid)
      && Verdict(payload, node, vmid).reason != Some(MalformedEvidence)
  {
    hide TypesOk, TypedEvidence, TargetMatches, EVIDENCE_KEYS;
  }

  /** Its commands decide nothing: the audit timed out, or the reboot probe failed and dpkg was not interrupted. */
  predicate Undecided(run: Run) {
    run.execOk
    && (run.dpkg.None?
        || (!run.dpkg.value.state.DpkgInterrupted?
            && (run.reboot.None? || (run.reboot != Some(0) && run.reboot != Some(1) && run.runningAfterReboot))))
  }

  /** The guest was found gone: when nothing could be run in it, or after the reboot probe said nothing good. */
  predicate Lost(run: Run) {
    if !run.execOk then !run.runningAfterExec else run.dpkg.Some? && run.reboot != Some(0) && !run.runningAfterReboot
  }

  /** What the check comes to is told by its commands alone: no evidence, a guest gone, or dpkg's own state. */
  lemma CheckComesTo(run: Run)
    ensures CheckHealth(run).None? <==> Undecided(run)
    ensures CheckHealth(run).Some? ==> (Expected(run).guestExecUnavailable <==> Lost(run))
    ensures CheckHealth(run).Some? && !Lost(run) && run.execOk ==>
      && Expected(run).guestExec && Expected(run).dpkg == Some(run.dpkg.value.state)
      && (Expected(run).rebootRequired == Some(true) <==> run.reboot == Some(0))
  {
    hide EvidenceJson;
  }

  // ----- the reasons

  /** A Health answer of this protocol by a helper that says its version. */
  predicate AnswersHealth(payload: Json) {
    && Says(payload, "protocol_version", Int(1)) && Says(payload, "operation", Str("check_health"))
    && "helper_version" in payload.fields && payload.fields["helper_version"].Int? && payload.fields["helper_version"].n >= 1
  }

  /** A refused check is reported by its own word, unless the answer names another guest. */
  lemma RefusedCheckExactly(payload: Json, node: string, vmid: int, word: string)
    requires AnswersHealth(payload) && !Says(payload, "ok", Bool(true)) && Refuses(payload, word)
    ensures Verdict(payload, node, vmid) == HealthOutcome(
      None,
      Some(if Elsewhere(payload, node, vmid) then HealthGuestUnavailable
           else match word
             case "guest_unavailable" => HealthGuestUnavailable
             case "identity_mismatch" => HealthGuestUnavailable
             case "timeout" => HealthTimeout
             case "package_manager_busy" => HealthManagerBusy
             case "unsupported_guest" => UnsupportedGuest
             case _ => MalformedEvidence),
      None)
  {
    hide TargetMatches, AboutGuest, TypesOk, Coherent, ClassifyHealth, EVIDENCE_KEYS;
    assert Get(Get(payload, "error"), "classification") == Str(word);
    AnswersExactly(payload, node, vmid, PingGuest);
    assert TargetContradicts(Get(payload, "target"), node, vmid) <==> Elsewhere(payload, node, vmid);
  }

  /** Another protocol and another helper are told apart. */
  lemma MismatchExactly(payload: Json, node: string, vmid: int)
    ensures ParseHealthResponse(payload, node, vmid) == Unparsed(HealthProtocolMismatch) <==>
      !Says(payload, "protocol_version", Int(1))
    ensures ParseHealthResponse(payload, node, vmid) == Unparsed(HealthHelperOutdated) <==>
      Says(payload, "protocol_version", Int(1)) && !AnswersHealth(payload)
  {
    hide TargetMatches, TypesOk, Coherent, EVIDENCE_KEYS;
  }

  /** The verdict on coherent evidence: its state and its reason, for everything the evidence can say. */
  lemma ClassifiedExactly(e: HealthEvidence)
    requires Coherent(e)
    ensures ClassifyHealth(e).evidence == Some(e)
    ensures ClassifyHealth(e).reason == None <==> e.dpkg == Some(DpkgOk)
    ensures ClassifyHealth(e).state == Some(Healthy) <==> e.dpkg == Some(DpkgOk) && e.rebootRequired != Some(true)
    ensures ClassifyHealth(e).state == Some(Degraded) <==> e.dpkg == Some(DpkgOk) && e.rebootRequired == Some(true)
    ensures ClassifyHealth(e).reason == Some(HealthGuestUnavailable) <==> !e.guestExec && e.guestExecUnavailable
    ensures ClassifyHealth(e).reason == Some(GuestExecFailed) <==> !e.guestExec && !e.guestExecUnavailable
    ensures ClassifyHealth(e).reason == Some(DpkgInterruptedReason) <==> e.dpkg == Some(DpkgInterrupted)
    ensures ClassifyHealth(e).reason == Some(DpkgPendingReason) <==> e.dpkg == Some(DpkgPending)
    ensures ClassifyHealth(e).reason == Some(HealthManagerBusy) <==> e.dpkg == Some(DpkgBusy)
    ensures ClassifyHealth(e).reason == Some(DpkgLockUnknownReason) <==> e.dpkg == Some(DpkgLockUnknown)
    ensures ClassifyHealth(e).reason == Some(GuestChanged) <==> e.dpkg == Some(DpkgChanged)
    ensures ClassifyHealth(e).state == Some(Unhealthy) <==>
      ClassifyHealth(e).reason == Some(GuestExecFailed) || ClassifyHealth(e).reason == Some(DpkgInterruptedReason)
  {
  }
}
