/**
 How the transport classifies what came back over SSH (packages/transport.py). Every answer is a decoded value of
 any shape; the classification is what the run bodies' outcomes rest on.
 */
module Transport {
  import opened Models
  import opened Wire
  import opened Attempts

  const PROTOCOL_VERSION := 1

  datatype Operation = PlanPackages | UpdatePackages | PlanAutoremove | AutoremovePackages | PingGuest

  function OperationName(operation: Operation): string {
    match operation
    case PlanPackages => "plan_packages"
    case UpdatePackages => "update_packages"
    case PlanAutoremove => "plan_autoremove"
    case AutoremovePackages => "autoremove_packages"
    case PingGuest => "ping"
  }

  predicate Plans(operation: Operation) { operation.PlanPackages? || operation.PlanAutoremove? }

  predicate TargetMatches(target: Json, node: string, vmid: int) {
    target.Object? && target.fields != map[] && Get(target, "node") == Str(node) && Get(target, "vmid") == Int(vmid)
  }

  predicate TargetContradicts(target: Json, node: string, vmid: int) {
    target.Object? && target.fields != map[] && !TargetMatches(target, node, vmid)
  }

  predicate ProtocolKnown(payload: Json) { Get(payload, "protocol_version") == Int(PROTOCOL_VERSION) }

  predicate HelperVersioned(payload: Json) { Get(payload, "helper_version").Int? && Get(payload, "helper_version").n >= 1 }

  /** What one response amounts to: its evidence, a bounded failure, or an exception nothing classifies. */
  datatype Response = Delivered(evidence: Json) | Bounded(outcome: UpdateOutcome) | Crashed

  /** A classification is looked up in a set, which only a hashable value survives. */
  predicate Hashable(value: Json) { !value.List? && !value.Object? }

  function ErrorOutcome(classification: Json, operation: Operation): Response {
    if classification == Str("package_manager_busy") then Bounded(PackageManagerBusy)
    else if !Hashable(classification) then Crashed
    else if classification == Str("guest_unavailable") || classification == Str("identity_mismatch") then
      Bounded(GuestUnavailable)
    else if Plans(operation) then Bounded(PlanFailed)
    else if operation.PingGuest? then Bounded(LivenessFailed)
    else if classification == Str("timeout") then Bounded(MutationTimedOut)
    else Bounded(MutationFailed)
  }

  function EvidenceFailure(operation: Operation): UpdateOutcome {
    if Plans(operation) then PlanFailed else if operation.PingGuest? then LivenessFailed else MutationUncertain
  }

  /** _parse_update_response. */
  function ParseUpdateResponse(payload: Json, node: string, vmid: int, operation: Operation): Response {
    if !payload.Object? then Bounded(HelperOutdated)
    else if
      !ProtocolKnown(payload) || !HelperVersioned(payload) || Get(payload, "operation") != Str(OperationName(operation))
    then Bounded(HelperOutdated)
    else
      var target := Get(payload, "target");
      if Get(payload, "ok") == Bool(true) then
        if !TargetMatches(target, node, vmid) then Bounded(GuestUnavailable)
        else if !Get(payload, "evidence").Object? then Bounded(EvidenceFailure(operation))
        else Delivered(Get(payload, "evidence"))
      else if TargetContradicts(target, node, vmid) then Bounded(GuestUnavailable)
      else ErrorOutcome(Get(Get(payload, "error"), "classification"), operation)
  }

  /** What the request itself came back with. */
  datatype Delivery = InvalidTarget | TimedOut | ConnectionFailed | Answered(payload: Json)

  function Classify(delivery: Delivery, node: string, vmid: int, operation: Operation): Response {
    match delivery
    case InvalidTarget => Bounded(GuestUnavailable)
    case TimedOut =>
      Bounded(if Plans(operation) then PlanFailed else if operation.PingGuest? then LivenessFailed else MutationTimedOut)
    case ConnectionFailed => Bounded(EvidenceFailure(operation))
    case Answered(payload) => ParseUpdateResponse(payload, node, vmid, operation)
  }

  predicate AllText(evidence: Json, fields: seq<string>) {
    forall field | field in fields :: Get(evidence, field).Str?
  }

  /** The plan of an upgrade simulation; `parse` is the strict parser, which may refuse the evidence. */
  function AsyncPlan(
    delivery: Delivery, node: string, vmid: int, parse: (string, string, string) -> Option<seq<PendingPackage>>): Reply
  {
    match Classify(delivery, node, vmid, PlanPackages)
    case Bounded(outcome) => Refused(outcome)
    case Crashed => Raised
    case Delivered(evidence) =>
      if !AllText(evidence, ["native_architecture", "installed_inventory", "simulation"]) then Refused(PlanFailed)
      else
        var plan := parse(Get(evidence, "simulation").s, Get(evidence, "native_architecture").s,
                          Get(evidence, "installed_inventory").s);
        if plan.Some? then UpgradePlanned(plan.value) else Refused(PlanFailed)
  }

  /** One finished inventory, or an unfinished one, or none that could be parsed. */
  datatype Observed = Unparseable | Unfinished | Finished(installed: Inventory)

  /** The result of one mutation; `read` is the strict inventory parser. */
  function AsyncMutation(
    delivery: Delivery, node: string, vmid: int, operation: Operation, read: string -> Observed): Reply
  {
    match Classify(delivery, node, vmid, operation)
    case Bounded(outcome) => Refused(outcome)
    case Crashed => Raised
    case Delivered(evidence) =>
      if !AllText(evidence, ["before_inventory", "after_inventory"]) then Refused(MutationUncertain)
      else
        var before, after := read(Get(evidence, "before_inventory").s), read(Get(evidence, "after_inventory").s);
        if before.Finished? && after.Finished? then Mutated(before.installed, after.installed) else Refused(MutationFailed)
  }

  // ----- what the run bodies may rely on

  /** A plan request only ever fails with an outcome that leaves the guest untouched. */
  lemma PlanFailuresArePlanStage(
    delivery: Delivery, node: string, vmid: int, parse: (string, string, string) -> Option<seq<PendingPackage>>,
    a: Attempt, w: Snapshot)
    requires a.at.AwaitPlan?
    ensures Possible(a, w, AsyncPlan(delivery, node, vmid, parse))
    ensures AsyncPlan(delivery, node, vmid, parse).Refused? ==>
      PlanStage(AsyncPlan(delivery, node, vmid, parse).outcome) && !AdmitsMutation(AsyncPlan(delivery, node, vmid, parse).outcome)
  {
  }

  /** A mutation request never fails with an outcome that promises the guest was not touched. */
  lemma MutationFailuresAreMutationStage(
    delivery: Delivery, node: string, vmid: int, operation: Operation, read: string -> Observed, a: Attempt, w: Snapshot)
    requires a.at.AwaitMutation? && (operation.UpdatePackages? || operation.AutoremovePackages?)
    ensures Possible(a, w, AsyncMutation(delivery, node, vmid, operation, read))
    ensures AsyncMutation(delivery, node, vmid, operation, read).Refused? ==>
      MutationStage(AsyncMutation(delivery, node, vmid, operation, read).outcome)
      && !PromisesUntouched(AsyncMutation(delivery, node, vmid, operation, read).outcome)
  {
  }

  /**
   Evidence is taken from nothing but an affirmative answer of this protocol to this very operation about this very
   guest.
   */
  lemma DeliveredOnlyForThisGuest(payload: Json, node: string, vmid: int, operation: Operation)
    ensures ParseUpdateResponse(payload, node, vmid, operation).Delivered? <==>
      && ProtocolKnown(payload) && HelperVersioned(payload)
      && Get(payload, "operation") == Str(OperationName(operation))
      && Get(payload, "ok") == Bool(true) && TargetMatches(Get(payload, "target"), node, vmid)
      && Get(payload, "evidence").Object?
  {
    assert Get(payload, "protocol_version") == Int(PROTOCOL_VERSION) ==> payload.Object?;
  }

  /**
   The parser of a response fails in a way nothing classifies exactly when a refusal of this operation carries a
   list or an object as its classification.
   */
  lemma CrashesExactlyOnUnhashable(payload: Json, node: string, vmid: int, operation: Operation)
    ensures ParseUpdateResponse(payload, node, vmid, operation).Crashed? <==>
      && ProtocolKnown(payload) && HelperVersioned(payload)
      && Get(payload, "operation") == Str(OperationName(operation))
      && Get(payload, "ok") != Bool(true) && !TargetContradicts(Get(payload, "target"), node, vmid)
      && !Hashable(Get(Get(payload, "error"), "classification"))
  {
    assert Get(payload, "protocol_version") == Int(PROTOCOL_VERSION) ==> payload.Object?;
  }

  // ----- the same answers read off their fields

  /** An answer of this protocol, by a helper that says its version, to this very operation. */
  predicate Answers(payload: Json, operation: Operation) {
    && Says(payload, "protocol_version", Int(1)) && Says(payload, "operation", Str(OperationName(operation)))
    && "helper_version" in payload.fields && payload.fields["helper_version"].Int? && payload.fields["helper_version"].n >= 1
  }

  predicate AboutGuest(payload: Json, node: string, vmid: int) {
    payload.Object? && "target" in payload.fields
    && Says(payload.fields["target"], "node", Str(node)) && Says(payload.fields["target"], "vmid", Int(vmid))
  }

  lemma AnswersExactly(payload: Json, node: string, vmid: int, operation: Operation)
    ensures Answers(payload, operation) <==>
      payload.Object? && ProtocolKnown(payload) && HelperVersioned(payload)
      && Get(payload, "operation") == Str(OperationName(operation))
    ensures AboutGuest(payload, node, vmid) <==> payload.Object? && TargetMatches(Get(payload, "target"), node, vmid)
  {
    if AboutGuest(payload, node, vmid) {
      assert "node" in payload.fields["target"].fields;
    }
  }

  /** No answer to one operation is ever taken for an answer to another. */
  lemma OneOperation(payload: Json, one: Operation, other: Operation)
    requires Answers(payload, one) && Answers(payload, other)
    ensures one == other
  {
    assert |OperationName(PlanPackages)| == 13 && |OperationName(UpdatePackages)| == 15;
    assert |OperationName(PlanAutoremove)| == 15 && |OperationName(AutoremovePackages)| == 19 && |OperationName(PingGuest)| == 4;
    assert OperationName(UpdatePackages)[0] == 'u' && OperationName(PlanAutoremove)[0] == 'p';
  }

  /** Whatever is not such an answer means an outdated helper, and nothing else does. */
  lemma OutdatedExactly(payload: Json, node: string, vmid: int, operation: Operation)
    ensures ParseUpdateResponse(payload, node, vmid, operation) == Bounded(HelperOutdated) <==> !Answers(payload, operation)
  {
    hide TargetMatches;
    AnswersExactly(payload, node, vmid, operation);
  }

  /** What a helper's refusal of this operation is reported as. */
  function Refusal(word: string, operation: Operation): UpdateOutcome {
    match (operation, word)
    case (_, "package_manager_busy") => PackageManagerBusy
    case (_, "guest_unavailable") => GuestUnavailable
    case (_, "identity_mismatch") => GuestUnavailable
    case (UpdatePackages, "timeout") => MutationTimedOut
    case (AutoremovePackages, "timeout") => MutationTimedOut
    case (UpdatePackages, _) => MutationFailed
    case (AutoremovePackages, _) => MutationFailed
    case (PingGuest, _) => LivenessFailed
    case (_, _) => PlanFailed
  }

  /** The answer names a target, and it is not this guest. */
  predicate Elsewhere(payload: Json, node: string, vmid: int) {
    && payload.Object? && "target" in payload.fields && payload.fields["target"].Object?
    && payload.fields["target"].fields != map[] && !AboutGuest(payload, node, vmid)
  }

  /** The refusal names its reason in error.classification. */
  predicate Refuses(payload: Json, word: string) {
    payload.Object? && "error" in payload.fields && Says(payload.fields["error"], "classification", Str(word))
  }

  /**
   A refusal that names no other guest is reported by its own word and by what was asked for: busy and gone are told
   apart from failure everywhere, and a time-out from failure exactly where the guest may have been changed.
   */
  lemma RefusalExactly(payload: Json, node: string, vmid: int, operation: Operation, word: string)
    requires Answers(payload, operation) && !Says(payload, "ok", Bool(true)) && Refuses(payload, word)
    ensures ParseUpdateResponse(payload, node, vmid, operation) ==
      Bounded(if Elsewhere(payload, node, vmid) then GuestUnavailable else Refusal(word, operation))
  {
    hide OperationName, TargetMatches, AboutGuest;
    AnswersExactly(payload, node, vmid, operation);
    assert Get(Get(payload, "error"), "classification") == Str(word);
    assert TargetContradicts(Get(payload, "target"), node, vmid) <==> Elsewhere(payload, node, vmid);
  }

  lemma WordRefuses(payload: Json)
    ensures var classification := Get(Get(payload, "error"), "classification");
      classification.Str? ==> Refuses(payload, classification.s)
  {
  }

  /** A refusal without a word is a failure of what was asked for, unless what stands for the word cannot be looked up. */
  lemma WordlessRefusal(payload: Json, node: string, vmid: int, operation: Operation)
    requires Answers(payload, operation) && !Says(payload, "ok", Bool(true)) && !Elsewhere(payload, node, vmid)
    requires forall word :: !Refuses(payload, word)
    ensures ParseUpdateResponse(payload, node, vmid, operation) == Crashed
      || ParseUpdateResponse(payload, node, vmid, operation) == Bounded(Refusal("", operation))
  {
    hide OperationName, TargetMatches, AboutGuest;
    AnswersExactly(payload, node, vmid, operation);
    WordRefuses(payload);
    assert TargetContradicts(Get(payload, "target"), node, vmid) <==> Elsewhere(payload, node, vmid);
  }

  /** An affirmative answer about another guest, or without evidence, is reported as the guest gone or by what was asked. */
  lemma AffirmationExactly(payload: Json, node: string, vmid: int, operation: Operation)
    requires Answers(payload, operation) && Says(payload, "ok", Bool(true))
    ensures !AboutGuest(payload, node, vmid) ==>
      ParseUpdateResponse(payload, node, vmid, operation) == Bounded(GuestUnavailable)
    ensures AboutGuest(payload, node, vmid) && !("evidence" in payload.fields && payload.fields["evidence"].Object?) ==>
      ParseUpdateResponse(payload, node, vmid, operation) == Bounded(
        if operation == PlanPackages || operation == PlanAutoremove then PlanFailed
        else if operation == PingGuest then LivenessFailed else MutationUncertain)
    ensures AboutGuest(payload, node, vmid) && "evidence" in payload.fields && payload.fields["evidence"].Object? ==>
      ParseUpdateResponse(payload, node, vmid, operation) == Delivered(payload.fields["evidence"])
  {
    hide OperationName, TargetMatches, AboutGuest;
    AnswersExactly(payload, node, vmid, operation);
  }

  /** Without an answer a plan or a ping merely failed, and a mutation timed out or, if the line broke, is uncertain. */
  lemma SilenceExactly(node: string, vmid: int, operation: Operation)
    ensures Classify(TimedOut, node, vmid, operation) == Bounded(
      match operation
      case PlanPackages => PlanFailed
      case PlanAutoremove => PlanFailed
      case PingGuest => LivenessFailed
      case UpdatePackages => MutationTimedOut
      case AutoremovePackages => MutationTimedOut)
    ensures Classify(ConnectionFailed, node, vmid, operation) == Bounded(
      match operation
      case PlanPackages => PlanFailed
      case PlanAutoremove => PlanFailed
      case PingGuest => LivenessFailed
      case UpdatePackages => MutationUncertain
      case AutoremovePackages => MutationUncertain)
    ensures Classify(InvalidTarget, node, vmid, operation) == Bounded(GuestUnavailable)
  {
  }

  /** The three texts of a plan's evidence. */
  predicate Simulated(evidence: Json, simulation: string, native: string, inventory: string) {
    Says(evidence, "simulation", Str(simulation)) && Says(evidence, "native_architecture", Str(native))
    && Says(evidence, "installed_inventory", Str(inventory))
  }

  /** A plan is what the strict parser makes of the three texts of the evidence, and a failure without them. */
  lemma PlannedExactly(
    evidence: Json, payload: Json, node: string, vmid: int, parse: (string, string, string) -> Option<seq<PendingPackage>>)
    requires ParseUpdateResponse(payload, node, vmid, PlanPackages) == Delivered(evidence)
    ensures var reply := AsyncPlan(Answered(payload), node, vmid, parse);
      && (forall simulation, native, inventory | Simulated(evidence, simulation, native, inventory) ::
        reply == if parse(simulation, native, inventory).Some? then UpgradePlanned(parse(simulation, native, inventory).value)
                 else Refused(PlanFailed))
      && ((forall simulation, native, inventory :: !Simulated(evidence, simulation, native, inventory)) ==>
        reply == Refused(PlanFailed))
  {
    hide ParseUpdateResponse;
    if AllText(evidence, ["native_architecture", "installed_inventory", "simulation"]) {
      assert "native_architecture" in ["native_architecture", "installed_inventory", "simulation"];
      assert "installed_inventory" in ["native_architecture", "installed_inventory", "simulation"];
      assert "simulation" in ["native_architecture", "installed_inventory", "simulation"];
      assert Simulated(evidence, Get(evidence, "simulation").s, Get(evidence, "native_architecture").s,
                       Get(evidence, "installed_inventory").s);
    }
  }

  /** Both inventories of the evidence, as strings. */
  predicate Inventoried(evidence: Json, before: string, after: string) {
    Says(evidence, "before_inventory", Str(before)) && Says(evidence, "after_inventory", Str(after))
  }

  /**
   A mutation is known to be done exactly when both inventories of the evidence were read to the end, and these are
   the inventories the change is counted between; half-read evidence leaves it failed, missing evidence uncertain.
   */
  lemma MutatedExactly(evidence: Json, payload: Json, node: string, vmid: int, operation: Operation, read: string -> Observed)
    requires ParseUpdateResponse(payload, node, vmid, operation) == Delivered(evidence)
    ensures var reply := AsyncMutation(Answered(payload), node, vmid, operation, read);
      && (forall before, after | Inventoried(evidence, before, after) ::
        reply == if read(before).Finished? && read(after).Finished? then Mutated(read(before).installed, read(after).installed)
                 else Refused(MutationFailed))
      && ((forall before, after :: !Inventoried(evidence, before, after)) ==> reply == Refused(MutationUncertain))
  {
    hide ParseUpdateResponse;
    if AllText(evidence, ["before_inventory", "after_inventory"]) {
      assert "before_inventory" in ["before_inventory", "after_inventory"];
      assert "after_inventory" in ["before_inventory", "after_inventory"];
      assert Inventoried(evidence, Get(evidence, "before_inventory").s, Get(evidence, "after_inventory").s);
    }
  }
}
