/**
 The strict parser of an autoremove simulation (packages/parser.py): only removals, each of them resolved against
 the inventory as it is read.
 */
module Removals {
  import opened Models
  import opened NativeSnapshots
  import opened Attempts
  import opened Sequences
  import opened Inventories
  import opened Simulations

  // ----- one line

  datatype Removal = Skipped | Forbidden | Remv(name: string, qualified: Option<string>, installed: string) | Total(totals: Totals)

  function ReadRemv(line: string): Removal {
    var body := Skip(line, "Remv ");
    var name := if body.Some? then Take(body.value, NON_SPACE) else None;
    var bracket := if name.Some? then Skip(name.value.1, " [") else None;
    var installed := if bracket.Some? then Take(bracket.value, VERSION_CHAR) else None;
    var rest := if installed.Some? then Skip(installed.value.1, "]") else None;
    if rest.Some? && Groups(rest.value) then
      var (unqualified, architecture) := SplitQualified(name.value.0);
      Remv(unqualified, architecture, installed.value.0)
    else Forbidden
  }

  function ReadRemoval(raw: string): Removal {
    var line := Strip(raw);
    if line == "" then Skipped
    else if "Purg " <= line || "Inst " <= line || "Conf " <= line then Forbidden
    else if "Remv " <= line then ReadRemv(line)
    else if ReportsUnfinished(line) then Forbidden
    else if ReadSummary(line).Some? then Total(ReadSummary(line).value)
    else Skipped
  }

  /** The installed package a removal names, if it still is what the removal says. */
  function Removed(raw: string, native: string, installed: Inventory): Option<RemovablePackage> {
    var line := ReadRemoval(raw);
    if !line.Remv? then None
    else
      var architecture := Resolve(line.name, line.qualified, native, installed);
      if
        architecture.Some? && (line.name, architecture.value) in installed
        && installed[(line.name, architecture.value)] == line.installed
      then Some(RemovablePackage(line.name, architecture.value, line.installed))
      else None
  }

  function RemovedIdentity(p: RemovablePackage): Identity { (p.name, p.architecture) }

  /** The identity a line removes, against this inventory. */
  function IdentityKey(native: string, installed: Inventory): string -> Option<Identity> {
    raw =>
      var p := Removed(raw, native, installed);
      if p.Some? then Some(RemovedIdentity(p.value)) else None
  }

  function TotalKey(raw: string): Option<bool> { if ReadRemoval(raw).Total? then Some(true) else None }

  // ----- what is accepted and returned

  function Remvs(lines: seq<string>): set<string> { set raw | raw in lines && ReadRemoval(raw).Remv? }

  ghost predicate RemovalsOk(lines: seq<string>, native: string, installed: Inventory) {
    && (forall raw | raw in lines :: !ReadRemoval(raw).Forbidden?)
    && (forall raw | raw in lines && ReadRemoval(raw).Remv? :: Removed(raw, native, installed).Some?)
    && DistinctBy(lines, IdentityKey(native, installed)) && DistinctBy(lines, TotalKey)
  }

  predicate RemovalOnly(raw: string, removals: nat) {
    var line := ReadRemoval(raw);
    line.Total? && line.totals.upgraded == 0 && line.totals.added == 0 && line.totals.removed == removals
  }

  ghost predicate Removable(lines: seq<string>, native: string, installed: Inventory) {
    RemovalsOk(lines, native, installed) && exists raw | raw in lines :: RemovalOnly(raw, |Remvs(lines)|)
  }

  ghost predicate Removes(lines: seq<string>, native: string, installed: Inventory, p: RemovablePackage) {
    exists raw | raw in lines :: Removed(raw, native, installed) == Some(p)
  }

  ghost predicate RemovalsAre(packages: seq<RemovablePackage>, lines: seq<string>, native: string, installed: Inventory) {
    && SortedBy(packages, RemovedIdentity)
    && forall p: RemovablePackage :: p in packages <==> Removes(lines, native, installed, p)
  }

  datatype Cleanup = Cleanup(packages: seq<RemovablePackage>, notUpgraded: nat)

  ghost predicate CleanupIs(r: Result<Cleanup>, lines: seq<string>, native: string, installed: Inventory) {
    && (r.Ok? <==> Removable(lines, native, installed))
    && (r.Ok? ==>
      && RemovalsAre(r.value.packages, lines, native, installed) && |r.value.packages| == |Remvs(lines)|
      && exists raw | raw in lines :: ReadRemoval(raw).Total? && ReadRemoval(raw).totals.held == r.value.notUpgraded)
  }

  // ----- the loop

  ghost predicate TotalIs(total: Option<Totals>, lines: seq<string>) {
    && (total.None? ==> forall raw | raw in lines :: !ReadRemoval(raw).Total?)
    && (total.Some? ==> exists raw | raw in lines :: ReadRemoval(raw) == Total(total.value))
    && (forall raw | raw in lines && ReadRemoval(raw).Total? :: total == Some(ReadRemoval(raw).totals))
  }

  ghost predicate RemovedAre(packages: seq<RemovablePackage>, lines: seq<string>, native: string, installed: Inventory) {
    && (forall p: RemovablePackage :: p in packages <==> Removes(lines, native, installed, p))
    && DistinctKeys(packages, RemovedIdentity) && |packages| == |Remvs(lines)|
  }

  /** The locals of the loop after these lines. */
  ghost predicate ReadThrough(
    lines: seq<string>, native: string, installed: Inventory, packages: seq<RemovablePackage>, seen: set<Identity>,
    total: Option<Totals>)
  {
    && RemovalsOk(lines, native, installed) && TotalIs(total, lines)
    && SeenBy(seen, lines, IdentityKey(native, installed)) && SeenBy(SummarySeen(total), lines, TotalKey)
    && RemovedAre(packages, lines, native, installed)
  }

  lemma OkStep(
    lines: seq<string>, i: nat, native: string, installed: Inventory, packages: seq<RemovablePackage>,
    seen: set<Identity>, total: Option<Totals>)
    requires i < |lines| && ReadThrough(lines[..i], native, installed, packages, seen, total)
    ensures RemovalsOk(lines[..i + 1], native, installed) <==>
      match ReadRemoval(lines[i])
      case Skipped => true
      case Forbidden => false
      case Remv(_, _, _) =>
        var p := Removed(lines[i], native, installed);
        p.Some? && RemovedIdentity(p.value) !in seen
      case Total(_) => total.None?
  {
    hide ReadRemoval, DistinctBy, SeenBy, TotalIs, RemovedAre, Resolve;
    InNext(lines, i);
    KeyStep(lines, i, IdentityKey(native, installed), seen);
    KeyStep(lines, i, TotalKey, SummarySeen(total));
  }

  lemma OkPrefix(lines: seq<string>, i: nat, native: string, installed: Inventory)
    requires i <= |lines| && !RemovalsOk(lines[..i], native, installed)
    ensures !RemovalsOk(lines, native, installed)
  {
    hide ReadRemoval, Removed;
    assert forall raw | raw in lines[..i] :: raw in lines;
  }

  lemma RemvsStep(lines: seq<string>, i: nat)
    requires i < |lines|
    ensures Remvs(lines[..i + 1]) ==
      if ReadRemoval(lines[i]).Remv? then Remvs(lines[..i]) + {lines[i]} else Remvs(lines[..i])
  {
    hide ReadRemoval;
    InNext(lines, i);
  }

  function NextTotal(total: Option<Totals>, raw: string): Option<Totals> {
    if ReadRemoval(raw).Total? then Some(ReadRemoval(raw).totals) else total
  }

  lemma TotalStep(lines: seq<string>, i: nat, total: Option<Totals>)
    requires i < |lines| && TotalIs(total, lines[..i]) && (ReadRemoval(lines[i]).Total? ==> total.None?)
    requires SeenBy(SummarySeen(total), lines[..i], TotalKey) && DistinctBy(lines[..i], TotalKey)
    ensures TotalIs(NextTotal(total, lines[i]), lines[..i + 1])
    ensures SeenBy(SummarySeen(NextTotal(total, lines[i])), lines[..i + 1], TotalKey)
  {
    hide ReadRemoval, SeenBy, DistinctBy;
    InNext(lines, i);
    KeyStep(lines, i, TotalKey, SummarySeen(total));
    assert With(SummarySeen(total), TotalKey(lines[i])) == SummarySeen(NextTotal(total, lines[i]));
  }

  function NextRemoved(packages: seq<RemovablePackage>, p: Option<RemovablePackage>): seq<RemovablePackage> {
    if p.Some? then packages + [p.value] else packages
  }

  lemma RemovesStep(lines: seq<string>, i: nat, native: string, installed: Inventory, q: RemovablePackage)
    requires i < |lines|
    ensures Removes(lines[..i + 1], native, installed, q) <==>
      Removes(lines[..i], native, installed, q) || Removed(lines[i], native, installed) == Some(q)
  {
    hide Removed;
    InNext(lines, i);
    assert lines[i] in lines[..i + 1];
  }

  lemma RemovedStep(
    lines: seq<string>, i: nat, native: string, installed: Inventory, packages: seq<RemovablePackage>, seen: set<Identity>)
    requires i < |lines| && RemovedAre(packages, lines[..i], native, installed)
    requires SeenBy(seen, lines[..i], IdentityKey(native, installed))
    requires ReadRemoval(lines[i]).Remv? ==>
      Removed(lines[i], native, installed).Some? && RemovedIdentity(Removed(lines[i], native, installed).value) !in seen
    ensures RemovedAre(NextRemoved(packages, Removed(lines[i], native, installed)), lines[..i + 1], native, installed)
  {
    hide ReadRemoval, Resolve, Removes;
    var p := Removed(lines[i], native, installed);
    RemvsStep(lines, i);
    forall q: RemovablePackage
      ensures Removes(lines[..i + 1], native, installed, q) <==> Removes(lines[..i], native, installed, q) || p == Some(q)
    {
      RemovesStep(lines, i, native, installed, q);
    }
    if p.Some? {
      NewIdentity(lines[..i], native, installed, packages, seen);
      NewRemoval(lines[..i], lines[i], native, installed, packages);
    }
  }

  lemma NewIdentity(
    lines: seq<string>, native: string, installed: Inventory, packages: seq<RemovablePackage>, seen: set<Identity>)
    requires RemovedAre(packages, lines, native, installed) && SeenBy(seen, lines, IdentityKey(native, installed))
    ensures forall q | q in packages :: RemovedIdentity(q) in seen
  {
    hide Removed;
    forall q | q in packages ensures RemovedIdentity(q) in seen {
      assert Removes(lines, native, installed, q);
      assert HasKey(lines, IdentityKey(native, installed), RemovedIdentity(q));
    }
  }

  lemma NewRemoval(
    lines: seq<string>, raw: string, native: string, installed: Inventory, packages: seq<RemovablePackage>)
    requires RemovedAre(packages, lines, native, installed) && Removed(raw, native, installed).Some?
    requires Removed(raw, native, installed).value !in packages
    ensures raw !in Remvs(lines)
  {
    hide ReadRemoval, Resolve;
    var p := Removed(raw, native, installed).value;
    assert raw in lines ==> Removes(lines, native, installed, p);
  }

  lemma ThroughStep(
    lines: seq<string>, i: nat, native: string, installed: Inventory, packages: seq<RemovablePackage>,
    seen: set<Identity>, total: Option<Totals>)
    requires i < |lines| && ReadThrough(lines[..i], native, installed, packages, seen, total)
    requires RemovalsOk(lines[..i + 1], native, installed)
    ensures var p := Removed(lines[i], native, installed);
      ReadThrough(lines[..i + 1], native, installed, NextRemoved(packages, p),
                  With(seen, IdentityKey(native, installed)(lines[i])), NextTotal(total, lines[i]))
  {
    hide ReadRemoval, Removed, SeenBy, DistinctBy, TotalIs, RemovedAre, RemovalsOk;
    OkStep(lines, i, native, installed, packages, seen, total);
    OkDistinct(lines[..i], native, installed);
    KeyStep(lines, i, IdentityKey(native, installed), seen);
    TotalStep(lines, i, total);
    RemovedStep(lines, i, native, installed, packages, seen);
  }

  lemma OkDistinct(lines: seq<string>, native: string, installed: Inventory)
    requires RemovalsOk(lines, native, installed)
    ensures DistinctBy(lines, IdentityKey(native, installed)) && DistinctBy(lines, TotalKey)
  {
  }

  lemma NothingThrough(native: string, installed: Inventory)
    ensures ReadThrough([], native, installed, [], {}, None)
  {
    hide ReadRemoval, Removed;
    assert Remvs([]) == {};
  }

  /** parse_autoremove_simulation, once the inventory is known to be finished. */
  method ParseRemovals(lines: seq<string>, native: string, installed: Inventory) returns (r: Result<Cleanup>)
    ensures CleanupIs(r, lines, native, installed)
  {
    hide ReadRemoval, Resolve, RemovalsOk, TotalIs, RemovedAre, SeenBy, Remvs, ReadThrough;
    var packages: seq<RemovablePackage>, seen: set<Identity>, total: Option<Totals> := [], {}, None;
    NothingThrough(native, installed);
    for i := 0 to |lines|
      invariant ReadThrough(lines[..i], native, installed, packages, seen, total)
    {
      var raw := lines[i];
      OkStep(lines, i, native, installed, packages, seen, total);
      if !RemovalsOk(lines[..i + 1], native, installed) {
        OkPrefix(lines, i + 1, native, installed);
      } else {
        ThroughStep(lines, i, native, installed, packages, seen, total);
      }
      match ReadRemoval(raw)
      case Skipped =>
      case Forbidden =>
        return Err(MalformedPlan);
      case Remv(_, _, _) =>
        var p := Removed(raw, native, installed);
        if p.None? {
          return Err(GuestChangedDuringScan);
        }
        if RemovedIdentity(p.value) in seen {
          return Err(MalformedPlan);
        }
        seen := seen + {RemovedIdentity(p.value)};
        packages := packages + [p.value];
      case Total(totals) =>
        if total.Some? {
          return Err(MalformedPlan);
        }
        total := Some(totals);
    }
    assert lines[..|lines|] == lines;
    AllThrough(lines, native, installed, packages, seen, total);
    if total.None? {
      return Err(MalformedPlan);
    }
    if total.value.upgraded != 0 || total.value.added != 0 || total.value.removed != |packages| {
      return Err(MalformedPlan);
    }
    return Ok(Cleanup(SortBy(packages, RemovedIdentity), total.value.held));
  }

  lemma AllThrough(
    lines: seq<string>, native: string, installed: Inventory, packages: seq<RemovablePackage>, seen: set<Identity>,
    total: Option<Totals>)
    requires ReadThrough(lines, native, installed, packages, seen, total)
    ensures RemovalsOk(lines, native, installed) && |packages| == |Remvs(lines)|
    ensures RemovalsAre(SortBy(packages, RemovedIdentity), lines, native, installed)
    ensures |SortBy(packages, RemovedIdentity)| == |packages|
    ensures total.None? ==> forall raw | raw in lines :: !ReadRemoval(raw).Total?
    ensures total.Some? ==>
      (exists raw | raw in lines :: ReadRemoval(raw) == Total(total.value))
      && forall raw | raw in lines && ReadRemoval(raw).Total? :: ReadRemoval(raw).totals == total.value
  {
    hide ReadRemoval, Removed;
    SortSorts(packages, RemovedIdentity);
  }

  ghost predicate CleanupPlanIs(r: Result<Cleanup>, e: Evidence, inventory: Result<InstalledInventory>) {
    var native := ReadNative(e.native, e.nativeSize);
    && InventoryIs(inventory, e.inventory, e.inventorySize)
    && (r.Ok? ==>
      && e.simulationSize <= MAX_SIMULATION_BYTES && native.Some? && inventory.Ok? && inventory.value.unfinished == []
      && CleanupIs(r, e.simulation, native.value, inventory.value.installed))
    && (r.Err? ==>
      || e.simulationSize > MAX_SIMULATION_BYTES || native.None? || inventory.Err? || inventory.value.unfinished != []
      || !Removable(e.simulation, native.value, inventory.value.installed))
  }

  /** parse_autoremove_simulation. */
  method ParseAutoremoveSimulation(e: Evidence) returns (r: Result<Cleanup>, inventory: Result<InstalledInventory>)
    ensures CleanupPlanIs(r, e, inventory)
  {
    hide CleanupIs, InventoryIs, ReadNative, Removable;
    inventory := ParseInstalledInventory(e.inventory, e.inventorySize);
    if e.simulationSize > MAX_SIMULATION_BYTES {
      return Err(MalformedPlan), inventory;
    }
    var native := ReadNative(e.native, e.nativeSize);
    if native.None? {
      return Err(MalformedPlan), inventory;
    }
    if inventory.Err? {
      return Err(inventory.failure), inventory;
    }
    if inventory.value.unfinished != [] {
      return Err(DpkgUnfinished), inventory;
    }
    r := ParseRemovals(e.simulation, native.value, inventory.value.installed);
    CleanedIs(r, e.simulation, native.value, inventory.value.installed);
  }

  lemma CleanedIs(r: Result<Cleanup>, lines: seq<string>, native: string, installed: Inventory)
    requires CleanupIs(r, lines, native, installed)
    ensures r.Ok? <==> Removable(lines, native, installed)
  {
    hide Removable;
  }

  // ----- order independence and plan equality

  lemma PermutedRemovable(a: seq<string>, b: seq<string>, native: string, installed: Inventory)
    requires multiset(a) == multiset(b) && Removable(a, native, installed)
    ensures Removable(b, native, installed)
  {
    hide ReadRemoval, Removed, DistinctBy;
    PermutedElements(a, b);
    PermutedDistinct(a, b, IdentityKey(native, installed));
    PermutedDistinct(a, b, TotalKey);
    assert Remvs(a) == Remvs(b);
  }

  lemma OneTotal(lines: seq<string>, x: string, y: string)
    requires DistinctBy(lines, TotalKey) && x in lines && y in lines && ReadRemoval(x).Total? && ReadRemoval(y).Total?
    ensures x == y
  {
    hide ReadRemoval;
    var i :| 0 <= i < |lines| && lines[i] == x;
    var j :| 0 <= j < |lines| && lines[j] == y;
    assert TotalKey(lines[i]) == TotalKey(lines[j]);
  }

  /** Permuting the lines of the simulation changes neither acceptance nor the parsed removals. */
  lemma RemovalOrderIsIrrelevant(
    a: seq<string>, b: seq<string>, native: string, installed: Inventory, r1: Result<Cleanup>, r2: Result<Cleanup>)
    requires multiset(a) == multiset(b) && CleanupIs(r1, a, native, installed) && CleanupIs(r2, b, native, installed)
    ensures r1.Ok? == r2.Ok? && (r1.Ok? ==> r1 == r2)
  {
    hide ReadRemoval, Removed, DistinctBy;
    PermutedElements(a, b);
    if r1.Ok? {
      PermutedRemovable(a, b, native, installed);
    }
    if r2.Ok? {
      PermutedRemovable(b, a, native, installed);
    }
    if r1.Ok? && r2.Ok? {
      assert forall p :: Removes(a, native, installed, p) <==> Removes(b, native, installed, p);
      assert SameElements(r1.value.packages, r2.value.packages);
      SortedIsUnique(r1.value.packages, r2.value.packages, RemovedIdentity);
      var x :| x in a && ReadRemoval(x).Total? && ReadRemoval(x).totals.held == r1.value.notUpgraded;
      var y :| y in b && ReadRemoval(y).Total? && ReadRemoval(y).totals.held == r2.value.notUpgraded;
      OneTotal(a, x, y);
    }
  }

  type CleanupRow = (string, string, string)

  function CleanupRowIdentity(row: CleanupRow): Identity { (row.0, row.1) }

  lemma CleanupTupleElements(packages: seq<RemovablePackage>, lines: seq<string>, native: string, installed: Inventory)
    requires RemovalsAre(packages, lines, native, installed)
    ensures SortedBy(CleanupTuple(packages), CleanupRowIdentity)
    ensures forall row: CleanupRow ::
      row in CleanupTuple(packages) <==> Removes(lines, native, installed, RemovablePackage(row.0, row.1, row.2))
  {
    hide ReadRemoval, Removed;
    var tuple := CleanupTuple(packages);
    forall i, j | 0 <= i < j < |tuple|
      ensures IdentityBefore(CleanupRowIdentity(tuple[i]), CleanupRowIdentity(tuple[j]))
    {
      assert IdentityBefore(RemovedIdentity(packages[i]), RemovedIdentity(packages[j]));
    }
    forall row: CleanupRow
      ensures row in tuple <==> RemovablePackage(row.0, row.1, row.2) in packages
    {
      if row in tuple {
        var i :| 0 <= i < |tuple| && tuple[i] == row;
        assert packages[i] in packages;
      }
      if RemovablePackage(row.0, row.1, row.2) in packages {
        var i :| 0 <= i < |packages| && packages[i] == RemovablePackage(row.0, row.1, row.2);
        assert tuple[i] == row;
      }
    }
  }

  /**
   Two accepted cleanup plans are equal to the manager exactly when they remove the same set of installed packages;
   in particular the inventories they were read against need not be the same.
   */
  lemma CleanupTuplesDecide(
    a: seq<string>, b: seq<string>, p: seq<RemovablePackage>, q: seq<RemovablePackage>, native1: string, native2: string,
    installed1: Inventory, installed2: Inventory)
    requires RemovalsAre(p, a, native1, installed1) && RemovalsAre(q, b, native2, installed2)
    ensures CleanupTuple(p) == CleanupTuple(q) <==>
      forall x: RemovablePackage :: Removes(a, native1, installed1, x) <==> Removes(b, native2, installed2, x)
  {
    hide Removes, CleanupTuple;
    CleanupTupleElements(p, a, native1, installed1);
    CleanupTupleElements(q, b, native2, installed2);
    if forall x: RemovablePackage :: Removes(a, native1, installed1, x) <==> Removes(b, native2, installed2, x) {
      SortedIsUnique(CleanupTuple(p), CleanupTuple(q), CleanupRowIdentity);
    }
    if CleanupTuple(p) == CleanupTuple(q) {
      forall x: RemovablePackage ensures Removes(a, native1, installed1, x) <==> Removes(b, native2, installed2, x) {
        var row := (x.name, x.architecture, x.installedVersion);
        assert row in CleanupTuple(p) <==> Removes(a, native1, installed1, RemovablePackage(row.0, row.1, row.2));
        assert row in CleanupTuple(q) <==> Removes(b, native2, installed2, RemovablePackage(row.0, row.1, row.2));
      }
    }
  }
}
