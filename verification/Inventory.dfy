/**
 The two independent readers of one dpkg inventory: Home Assistant's strict parser (packages/parser.py) and the
 host helper's sanity check (deploy/hubinet-package-scan-helper.py). Both work on the lines of the text.
 */
module Inventories {
  import opened Models
  import opened NativeSnapshots
  import opened Sequences

  const MAX_INVENTORY_BYTES := 16 * 1024 * 1024
  const MAX_COMMAND_OUTPUT_BYTES := 16 * 1024 * 1024

  datatype Result<T> = Ok(value: T) | Err(failure: ScanFailure)

  datatype Unfinished = Unfinished(name: string, architecture: string, status: string)

  datatype InstalledInventory = InstalledInventory(installed: Inventory, unfinished: seq<Unfinished>)

  // ----- one row

  const UNFINISHED_WORDS: set<string> :=
    {"half-installed", "unpacked", "half-configured", "triggers-awaited", "triggers-pending"}

  const STATUS_WORDS: set<string> := UNFINISHED_WORDS + {"installed", "not-installed", "config-files"}

  predicate LowerAlnum(c: char) { 'a' <= c <= 'z' || Digit(c) }

  /** The rest of an architecture name: alphanumerics and single inner hyphens. */
  predicate ArchitectureRest(s: string) {
    s == ""
    || (LowerAlnum(s[0]) && ArchitectureRest(s[1..]))
    || (|s| >= 2 && s[0] == '-' && LowerAlnum(s[1]) && ArchitectureRest(s[2..]))
  }

  predicate ValidArchitecture(s: string) { s != "" && 'a' <= s[0] <= 'z' && ArchitectureRest(s[1..]) }

  datatype Row = Row(name: string, architecture: string, version: string, status: string)

  /** The four tab-separated fields of one line, if it has exactly four and a known status. */
  function RowOf(line: string): Option<Row> {
    var fields := Split(line, '\t');
    if |fields| == 4 && fields[3] in STATUS_WORDS then Some(Row(fields[0], fields[1], fields[2], fields[3])) else None
  }

  predicate WellFormed(row: Row) {
    && row.name != "" && |row.name| <= 300 && |row.version| <= 500 && ValidArchitecture(row.architecture)
    && (row.status == "installed" ==> row.version != "")
  }

  function IdentityOf(row: Row): Identity { (row.name, row.architecture) }

  /** The line states something the strict parser keeps track of. */
  predicate Counted(line: string) { line != "" && RowOf(line).Some? && RowOf(line).value.status != "not-installed" }

  function CountedIdentity(line: string): Option<Identity> {
    if Counted(line) then Some(IdentityOf(RowOf(line).value)) else None
  }

  // ----- what the strict parser accepts and returns

  predicate LineParses(line: string) { line == "" || (RowOf(line).Some? && (Counted(line) ==> WellFormed(RowOf(line).value))) }

  ghost predicate Parses(lines: seq<string>, size: nat) {
    && size <= MAX_INVENTORY_BYTES
    && (forall line | line in lines :: LineParses(line))
    && DistinctBy(lines, CountedIdentity)
  }

  predicate States(line: string, identity: Identity, version: string) {
    RowOf(line) == Some(Row(identity.0, identity.1, version, "installed"))
  }

  ghost predicate Stated(lines: seq<string>, identity: Identity, version: string) {
    exists line | line in lines :: States(line, identity, version)
  }

  ghost predicate MapIs(installed: Inventory, lines: seq<string>) {
    forall identity: Identity, version: string ::
      Stated(lines, identity, version) <==> identity in installed && installed[identity] == version
  }

  predicate StatesUnfinished(line: string, row: Unfinished) {
    && row.status in UNFINISHED_WORDS && RowOf(line).Some?
    && RowOf(line).value.name == row.name && RowOf(line).value.architecture == row.architecture
    && RowOf(line).value.status == row.status
  }

  function UnfinishedIdentity(row: Unfinished): Identity { (row.name, row.architecture) }

  ghost predicate StatedUnfinished(lines: seq<string>, row: Unfinished) {
    exists line | line in lines :: StatesUnfinished(line, row)
  }

  ghost predicate ListIs(unfinished: seq<Unfinished>, lines: seq<string>) {
    forall row: Unfinished :: StatedUnfinished(lines, row) <==> row in unfinished
  }

  /** What parse_installed_inventory may return for a text of these lines. */
  ghost predicate InventoryIs(r: Result<InstalledInventory>, lines: seq<string>, size: nat) {
    && (r.Ok? <==> Parses(lines, size))
    && (r.Ok? ==>
      && MapIs(r.value.installed, lines)
      && ListIs(r.value.unfinished, lines) && SortedBy(r.value.unfinished, UnfinishedIdentity))
    && (r.Err? ==> r.failure == MalformedPlan)
  }

  // ----- the strict parser

  function WithRow(installed: Inventory, row: Option<Row>): Inventory {
    if row.Some? && row.value.status == "installed" then installed[IdentityOf(row.value) := row.value.version] else installed
  }

  /** An installed row adds itself, and any other row adds nothing. */
  lemma MapStep(lines: seq<string>, i: nat, seen: set<Identity>, installed: Inventory)
    requires i < |lines| && SeenBy(seen, lines[..i], CountedIdentity) && MapIs(installed, lines[..i])
    requires CountedIdentity(lines[i]).Some? ==> CountedIdentity(lines[i]).value !in seen
    ensures MapIs(WithRow(installed, RowOf(lines[i])), lines[..i + 1])
  {
    var row, next := RowOf(lines[i]), lines[..i + 1];
    var grown := WithRow(installed, row);
    forall identity: Identity, version: string
      ensures Stated(next, identity, version) <==> identity in grown && grown[identity] == version
    {
      StatedStep(lines, i, identity, version);
      if row.Some? && row.value.status == "installed" && identity == IdentityOf(row.value) {
        EmptyHasNoRow(lines[i]);
        NotStated(lines[..i], seen, identity, version);
      }
    }
  }

  lemma StatedStep(lines: seq<string>, i: nat, identity: Identity, version: string)
    requires i < |lines|
    ensures Stated(lines[..i + 1], identity, version) <==>
      Stated(lines[..i], identity, version) || States(lines[i], identity, version)
  {
    InNext(lines, i);
  }

  lemma NotStated(lines: seq<string>, seen: set<Identity>, identity: Identity, version: string)
    requires SeenBy(seen, lines, CountedIdentity) && identity !in seen
    ensures !Stated(lines, identity, version)
  {
    forall line | line in lines
      ensures States(line, identity, version) ==> HasKey(lines, CountedIdentity, identity)
    {
      if RowOf(line).Some? {
        EmptyHasNoRow(line);
      }
    }
  }

  lemma EmptyHasNoRow(line: string)
    requires RowOf(line).Some?
    ensures line != ""
  {
  }

  function WithUnfinished(unfinished: seq<Unfinished>, row: Option<Row>): seq<Unfinished> {
    if row.Some? && row.value.status in UNFINISHED_WORDS
    then unfinished + [Unfinished(row.value.name, row.value.architecture, row.value.status)]
    else unfinished
  }

  lemma ListStep(lines: seq<string>, i: nat, unfinished: seq<Unfinished>)
    requires i < |lines| && ListIs(unfinished, lines[..i])
    ensures ListIs(WithUnfinished(unfinished, RowOf(lines[i])), lines[..i + 1])
  {
    var next, grown := lines[..i + 1], WithUnfinished(unfinished, RowOf(lines[i]));
    InNext(lines, i);
    forall row: Unfinished ensures StatedUnfinished(next, row) <==> row in grown {
      assert StatedUnfinished(next, row) <==> StatedUnfinished(lines[..i], row) || StatesUnfinished(lines[i], row) by {
        assert lines[i] in next;
      }
    }
  }

  lemma NothingStated()
    ensures MapIs(map[], []) && ListIs([], []) && SeenBy({}, [], CountedIdentity)
    ensures RowOf("").None? && "installed" !in UNFINISHED_WORDS && "not-installed" !in UNFINISHED_WORDS
  {
  }

  lemma SortedList(unfinished: seq<Unfinished>, lines: seq<string>)
    requires ListIs(unfinished, lines) && DistinctKeys(unfinished, UnfinishedIdentity)
    ensures ListIs(SortBy(unfinished, UnfinishedIdentity), lines)
    ensures SortedBy(SortBy(unfinished, UnfinishedIdentity), UnfinishedIdentity)
  {
    SortSorts(unfinished, UnfinishedIdentity);
  }

  /** parse_installed_inventory. */
  method ParseInstalledInventory(lines: seq<string>, size: nat) returns (r: Result<InstalledInventory>)
    ensures InventoryIs(r, lines, size)
  {
    hide MapIs, ListIs, SeenBy, RowOf, UNFINISHED_WORDS, STATUS_WORDS, ValidArchitecture;
    if size > MAX_INVENTORY_BYTES {
      return Err(MalformedPlan);
    }
    NothingStated();
    var installed: Inventory := map[];
    var unfinished: seq<Unfinished> := [];
    var seen: set<Identity> := {};
    for i := 0 to |lines|
      invariant forall line | line in lines[..i] :: LineParses(line)
      invariant DistinctBy(lines[..i], CountedIdentity) && SeenBy(seen, lines[..i], CountedIdentity)
      invariant MapIs(installed, lines[..i]) && ListIs(unfinished, lines[..i])
      invariant DistinctKeys(unfinished, UnfinishedIdentity)
      invariant forall row | row in unfinished :: UnfinishedIdentity(row) in seen
    {
      var line := lines[i];
      InNext(lines, i);
      KeyStep(lines, i, CountedIdentity, seen);
      ListStep(lines, i, unfinished);
      if line != "" {
        var parsed := RowOf(line);
        if parsed.None? {
          assert line in lines && !LineParses(line);
          return Err(MalformedPlan);
        }
        var row := parsed.value;
        if row.status != "not-installed" {
          if row.name == "" || |row.name| > 300 || |row.version| > 500 || !ValidArchitecture(row.architecture) {
            assert line in lines && !LineParses(line);
            return Err(MalformedPlan);
          }
          if IdentityOf(row) in seen {
            KeyPrefix(lines, i + 1, CountedIdentity);
            return Err(MalformedPlan);
          }
          MapStep(lines, i, seen, installed);
          seen := seen + {IdentityOf(row)};
          if row.status in UNFINISHED_WORDS {
            unfinished := unfinished + [Unfinished(row.name, row.architecture, row.status)];
          } else if row.status == "installed" {
            if row.version == "" {
              assert line in lines && !LineParses(line);
              return Err(MalformedPlan);
            }
            installed := installed[IdentityOf(row) := row.version];
          }
        } else {
          MapStep(lines, i, seen, installed);
        }
      } else {
        MapStep(lines, i, seen, installed);
      }
    }
    assert lines[..|lines|] == lines;
    SortedList(unfinished, lines);
    return Ok(InstalledInventory(installed, SortBy(unfinished, UnfinishedIdentity)));
  }

  // ----- the helper's sanity check

  datatype SanityFailure = SanityFailed | SanityUnfinished

  /** The helper looks at every row, also at those that only say that nothing is installed. */
  function AnyIdentity(line: string): Option<Identity> {
    if RowOf(line).Some? then Some(IdentityOf(RowOf(line).value)) else None
  }

  predicate LineSane(line: string) {
    line == "" || (RowOf(line).Some? && WellFormed(RowOf(line).value) && RowOf(line).value.status !in UNFINISHED_WORDS)
  }

  ghost predicate HelperAccepts(lines: seq<string>) {
    (forall line | line in lines :: LineSane(line)) && DistinctBy(lines, AnyIdentity)
  }

  /** _validate_inventory_sane: nothing when it returns, and the classification of the error it raises otherwise. */
  method ValidateInventorySane(lines: seq<string>) returns (failure: Option<SanityFailure>)
    ensures failure.None? <==> HelperAccepts(lines)
    ensures failure == Some(SanityUnfinished) ==>
      exists line | line in lines :: RowOf(line).Some? && RowOf(line).value.status in UNFINISHED_WORDS
  {
    var seen: set<Identity> := {};
    for i := 0 to |lines|
      invariant forall line | line in lines[..i] :: LineSane(line)
      invariant DistinctBy(lines[..i], AnyIdentity) && SeenBy(seen, lines[..i], AnyIdentity)
    {
      var line := lines[i];
      InNext(lines, i);
      KeyStep(lines, i, AnyIdentity, seen);
      assert line in lines;
      if line != "" {
        var parsed := RowOf(line);
        if parsed.None? {
          return Some(SanityFailed);
        }
        var row := parsed.value;
        if row.name == "" || |row.name| > 300 || |row.version| > 500 || !ValidArchitecture(row.architecture) {
          return Some(SanityFailed);
        }
        if IdentityOf(row) in seen {
          KeyPrefix(lines, i + 1, AnyIdentity);
          return Some(SanityFailed);
        }
        seen := seen + {IdentityOf(row)};
        if row.status in UNFINISHED_WORDS {
          return Some(SanityUnfinished);
        }
        if row.status == "installed" && row.version == "" {
          return Some(SanityFailed);
        }
      }
    }
    assert lines[..|lines|] == lines;
    return None;
  }

  // ----- the helper's own reader for Health

  type Statuses = map<Identity, string>

  predicate LineReadable(line: string) {
    line == ""
    || (RowOf(line).Some?
        && var row := RowOf(line).value;
        row.name != "" && |row.name| <= 300 && |row.version| <= 500 && ValidArchitecture(row.architecture))
  }

  ghost predicate HealthAccepts(lines: seq<string>) {
    (forall line | line in lines :: LineReadable(line)) && DistinctBy(lines, AnyIdentity)
  }

  predicate StatesStatus(line: string, identity: Identity, status: string) {
    RowOf(line).Some? && IdentityOf(RowOf(line).value) == identity && RowOf(line).value.status == status
  }

  ghost predicate StatedStatus(lines: seq<string>, identity: Identity, status: string) {
    exists line | line in lines :: StatesStatus(line, identity, status)
  }

  ghost predicate StatusesAre(statuses: Statuses, lines: seq<string>) {
    forall identity: Identity, status: string ::
      StatedStatus(lines, identity, status) <==> identity in statuses && statuses[identity] == status
  }

  lemma StatusStep(lines: seq<string>, i: nat, statuses: Statuses)
    requires i < |lines| && StatusesAre(statuses, lines[..i]) && SeenBy(statuses.Keys, lines[..i], AnyIdentity)
    requires RowOf(lines[i]).Some? ==> IdentityOf(RowOf(lines[i]).value) !in statuses
    ensures var row := RowOf(lines[i]);
      var grown := if row.Some? then statuses[IdentityOf(row.value) := row.value.status] else statuses;
      StatusesAre(grown, lines[..i + 1]) && SeenBy(grown.Keys, lines[..i + 1], AnyIdentity)
  {
    hide RowOf;
    var row, next := RowOf(lines[i]), lines[..i + 1];
    var grown := if row.Some? then statuses[IdentityOf(row.value) := row.value.status] else statuses;
    InNext(lines, i);
    forall identity: Identity, status: string
      ensures StatedStatus(next, identity, status) <==> identity in grown && grown[identity] == status
    {
      assert StatedStatus(next, identity, status) <==>
        StatedStatus(lines[..i], identity, status) || StatesStatus(lines[i], identity, status);
    }
    forall identity: Identity ensures identity in grown.Keys <==> HasKey(next, AnyIdentity, identity) {
      assert HasKey(next, AnyIdentity, identity) <==>
        HasKey(lines[..i], AnyIdentity, identity) || AnyIdentity(lines[i]) == Some(identity);
    }
  }

  /** _read_health_inventory: every package's status, or nothing when the text is malformed. */
  method ReadHealthInventory(lines: seq<string>) returns (r: Option<Statuses>)
    ensures r.Some? <==> HealthAccepts(lines)
    ensures r.Some? ==> StatusesAre(r.value, lines)
  {
    hide RowOf, ValidArchitecture, StatusesAre;
    var statuses: Statuses := map[];
    NoStatuses();
    for i := 0 to |lines|
      invariant forall line | line in lines[..i] :: LineReadable(line)
      invariant DistinctBy(lines[..i], AnyIdentity) && SeenBy(statuses.Keys, lines[..i], AnyIdentity)
      invariant StatusesAre(statuses, lines[..i])
    {
      var line := lines[i];
      InNext(lines, i);
      KeyStep(lines, i, AnyIdentity, statuses.Keys);
      assert line in lines;
      if line == "" {
        StatusStep(lines, i, statuses);
      } else {
        var parsed := RowOf(line);
        if parsed.None? {
          return None;
        }
        var row := parsed.value;
        if row.name == "" || |row.name| > 300 || |row.version| > 500 || !ValidArchitecture(row.architecture) {
          return None;
        }
        if IdentityOf(row) in statuses {
          KeyPrefix(lines, i + 1, AnyIdentity);
          return None;
        }
        StatusStep(lines, i, statuses);
        statuses := statuses[IdentityOf(row) := row.status];
      }
    }
    assert lines[..|lines|] == lines;
    return Some(statuses);
  }

  lemma NoStatuses()
    ensures StatusesAre(map[], []) && SeenBy({}, [], AnyIdentity) && RowOf("").None?
  {
  }

  /** Whatever the sanity check lets through, Health reads as well, and it finds nothing unfinished there. */
  lemma SaneIsReadable(lines: seq<string>, statuses: Statuses)
    requires HelperAccepts(lines)
    ensures HealthAccepts(lines)
    ensures StatusesAre(statuses, lines) ==> forall k | k in statuses :: statuses[k] !in UNFINISHED_WORDS
  {
    hide ValidArchitecture, STATUS_WORDS, UNFINISHED_WORDS;
    forall line | line in lines ensures LineReadable(line) {
      assert LineSane(line);
    }
    if StatusesAre(statuses, lines) {
      forall k | k in statuses ensures statuses[k] !in UNFINISHED_WORDS {
        assert StatedStatus(lines, k, statuses[k]);
        var line :| line in lines && StatesStatus(line, k, statuses[k]);
        EmptyHasNoRow(line);
        assert LineSane(line);
      }
    }
  }

  // ----- the two readers against each other

  /** What the helper asks of rows the strict parser skips. */
  ghost predicate SkippedRowsSane(lines: seq<string>) {
    && (forall line | line in lines && line != "" && !Counted(line) :: RowOf(line).Some? && WellFormed(RowOf(line).value))
    && DistinctBy(lines, AnyIdentity)
  }

  lemma NoneUnfinished(lines: seq<string>, unfinished: seq<Unfinished>)
    requires ListIs(unfinished, lines)
    ensures unfinished == [] <==>
      forall line | line in lines :: RowOf(line).Some? ==> RowOf(line).value.status !in UNFINISHED_WORDS
  {
    if unfinished != [] {
      assert StatedUnfinished(lines, unfinished[0]);
    }
    forall line | line in lines && RowOf(line).Some? && RowOf(line).value.status in UNFINISHED_WORDS
      ensures unfinished != []
    {
      var row := RowOf(line).value;
      assert StatesUnfinished(line, Unfinished(row.name, row.architecture, row.status));
      assert StatedUnfinished(lines, Unfinished(row.name, row.architecture, row.status));
    }
  }

  lemma FewerIdentities(lines: seq<string>)
    requires DistinctBy(lines, AnyIdentity)
    ensures DistinctBy(lines, CountedIdentity)
  {
    forall i, j | 0 <= i < j < |lines| && CountedIdentity(lines[i]).Some?
      ensures CountedIdentity(lines[i]) != CountedIdentity(lines[j])
    {
      assert AnyIdentity(lines[i]) != AnyIdentity(lines[j]);
    }
  }

  /**
   The two readers agree: within the size bound the helper accepts a text exactly when the strict parser accepts
   it with nothing unfinished and the rows the strict parser skips are sane as well.
   */
  lemma ReadersAgree(lines: seq<string>, size: nat, r: Result<InstalledInventory>)
    requires InventoryIs(r, lines, size) && size <= MAX_COMMAND_OUTPUT_BYTES
    ensures HelperAccepts(lines) <==> r.Ok? && r.value.unfinished == [] && SkippedRowsSane(lines)
  {
    if HelperAccepts(lines) {
      FewerIdentities(lines);
      forall line | line in lines ensures LineParses(line) {
        assert LineSane(line);
      }
      assert r.Ok?;
    }
    if r.Ok? {
      NoneUnfinished(lines, r.value.unfinished);
      if r.value.unfinished == [] && SkippedRowsSane(lines) {
        forall line | line in lines ensures LineSane(line) {
          assert LineParses(line);
        }
      }
    }
  }

  /** Neither acceptance nor the result of the strict parser depends on the order of the rows. */
  lemma RowOrderIsIrrelevant(
    a: seq<string>, b: seq<string>, size: nat, r1: Result<InstalledInventory>, r2: Result<InstalledInventory>)
    requires multiset(a) == multiset(b) && InventoryIs(r1, a, size) && InventoryIs(r2, b, size)
    ensures r1 == r2
  {
    PermutedElements(a, b);
    if Parses(a, size) {
      PermutedDistinct(a, b, CountedIdentity);
    }
    if Parses(b, size) {
      PermutedDistinct(b, a, CountedIdentity);
    }
    if r1.Ok? {
      SameStatements(a, b);
      forall identity ensures identity in r1.value.installed <==> identity in r2.value.installed {
        SameEntry(a, b, r1.value.installed, r2.value.installed, identity);
        SameEntry(b, a, r2.value.installed, r1.value.installed, identity);
      }
      forall identity | identity in r1.value.installed
        ensures r1.value.installed[identity] == r2.value.installed[identity]
      {
        SameEntry(a, b, r1.value.installed, r2.value.installed, identity);
      }
      assert r1.value.installed == r2.value.installed;
      assert SameElements(r1.value.unfinished, r2.value.unfinished);
      SortedIsUnique(r1.value.unfinished, r2.value.unfinished, UnfinishedIdentity);
    }
  }

  lemma SameStatements(a: seq<string>, b: seq<string>)
    requires SameElements(a, b)
    ensures forall identity, version :: Stated(a, identity, version) <==> Stated(b, identity, version)
    ensures forall row :: StatedUnfinished(a, row) <==> StatedUnfinished(b, row)
  {
  }

  lemma SameEntry(a: seq<string>, b: seq<string>, m1: Inventory, m2: Inventory, identity: Identity)
    requires MapIs(m1, a) && MapIs(m2, b) && SameElements(a, b)
    ensures identity in m1 ==> identity in m2 && m1[identity] == m2[identity]
  {
    SameStatements(a, b);
    if identity in m1 {
      assert Stated(a, identity, m1[identity]);
      assert Stated(b, identity, m1[identity]);
    }
  }

  // ----- printing and reading back

  function PrintRow(row: Row): string {
    row.name + ['\t'] + (row.architecture + ['\t'] + (row.version + ['\t'] + row.status))
  }

  lemma {:induction false} ArchitectureHasNoTab(s: string)
    requires ArchitectureRest(s)
    ensures '\t' !in s
  {
    if s != "" {
      if LowerAlnum(s[0]) && ArchitectureRest(s[1..]) {
        ArchitectureHasNoTab(s[1..]);
        assert s == [s[0]] + s[1..];
      } else {
        ArchitectureHasNoTab(s[2..]);
        assert s == [s[0], s[1]] + s[2..];
      }
    }
  }

  lemma StatusHasNoTab(status: string)
    requires status in STATUS_WORDS
    ensures '\t' !in status
  {
  }

  /** A well-formed row without tabs in its free fields reads back as itself. */
  lemma PrintedRowReads(row: Row)
    requires '\t' !in row.name && '\t' !in row.version && ValidArchitecture(row.architecture) && row.status in STATUS_WORDS
    ensures RowOf(PrintRow(row)) == Some(row)
  {
    hide Split, ArchitectureRest, STATUS_WORDS;
    ArchitectureHasNoTab(row.architecture[1..]);
    assert row.architecture == [row.architecture[0]] + row.architecture[1..];
    var tail3 := row.status;
    var tail2 := row.version + ['\t'] + tail3;
    var tail1 := row.architecture + ['\t'] + tail2;
    SplitFirst(row.name, tail1, '\t');
    SplitFirst(row.architecture, tail2, '\t');
    SplitFirst(row.version, tail3, '\t');
    StatusHasNoTab(row.status);
    SplitLast(row.status, '\t');
  }

  predicate Printable(m: Inventory) {
    forall identity | identity in m ::
      && '\t' !in identity.0 && '\t' !in m[identity]
      && WellFormed(Row(identity.0, identity.1, m[identity], "installed"))
  }

  function PrintAll(m: Inventory, keys: seq<Identity>): (lines: seq<string>)
    requires forall identity | identity in keys :: identity in m
    ensures |lines| == |keys|
    ensures forall i | 0 <= i < |keys| :: lines[i] == PrintRow(Row(keys[i].0, keys[i].1, m[keys[i]], "installed"))
  {
    seq(|keys|, i requires 0 <= i < |keys| => PrintRow(Row(keys[i].0, keys[i].1, m[keys[i]], "installed")))
  }

  ghost predicate Enumerates(keys: seq<Identity>, m: Inventory) {
    && (forall identity: Identity :: identity in keys <==> identity in m)
    && (forall i, j | 0 <= i < j < |keys| :: keys[i] != keys[j])
  }

  lemma PrintedLines(m: Inventory, keys: seq<Identity>)
    requires Printable(m) && Enumerates(keys, m)
    ensures var lines := PrintAll(m, keys);
      && (forall i | 0 <= i < |keys| :: RowOf(lines[i]) == Some(Row(keys[i].0, keys[i].1, m[keys[i]], "installed")))
      && (forall line | line in lines :: LineSane(line) && line != "")
  {
    hide PrintRow, Split, WellFormed, ArchitectureRest;
    var lines := PrintAll(m, keys);
    forall i | 0 <= i < |keys|
      ensures RowOf(lines[i]) == Some(Row(keys[i].0, keys[i].1, m[keys[i]], "installed"))
      ensures LineSane(lines[i]) && lines[i] != ""
    {
      assert keys[i] in keys;
      PrintableRow(m, keys[i]);
      PrintedRowReads(Row(keys[i].0, keys[i].1, m[keys[i]], "installed"));
      EmptyHasNoRow(lines[i]);
    }
  }

  lemma PrintableRow(m: Inventory, identity: Identity)
    requires Printable(m) && identity in m
    ensures var row := Row(identity.0, identity.1, m[identity], "installed");
      '\t' !in row.name && '\t' !in row.version && ValidArchitecture(row.architecture) && WellFormed(row)
    ensures "installed" in STATUS_WORDS && "installed" !in UNFINISHED_WORDS
  {
  }

  lemma PrintedMap(m: Inventory, keys: seq<Identity>)
    requires Printable(m) && Enumerates(keys, m)
    ensures MapIs(m, PrintAll(m, keys)) && DistinctBy(PrintAll(m, keys), AnyIdentity)
  {
    hide PrintAll, Split, WellFormed, ArchitectureRest;
    var lines := PrintAll(m, keys);
    PrintedLines(m, keys);
    forall identity: Identity, version: string
      ensures Stated(lines, identity, version) <==> identity in m && m[identity] == version
    {
      if identity in m {
        assert identity in keys;
        var i :| 0 <= i < |keys| && keys[i] == identity;
        assert lines[i] in lines && States(lines[i], identity, m[identity]);
      }
    }
  }

  /** Printing a well-formed map as installed rows, in any order, and parsing it returns the map. */
  lemma PrintedMapReadsBack(m: Inventory, keys: seq<Identity>, size: nat, r: Result<InstalledInventory>)
    requires Printable(m) && Enumerates(keys, m) && size <= MAX_INVENTORY_BYTES
    requires InventoryIs(r, PrintAll(m, keys), size)
    ensures r == Ok(InstalledInventory(m, []))
    ensures HelperAccepts(PrintAll(m, keys))
  {
    hide PrintAll, Printable, RowOf;
    var lines := PrintAll(m, keys);
    PrintedLines(m, keys);
    PrintedMap(m, keys);
    ReadersAgree(lines, size, r);
    SameMap(r.value.installed, m, lines);
  }

  lemma SameMap(m1: Inventory, m2: Inventory, lines: seq<string>)
    requires MapIs(m1, lines) && MapIs(m2, lines)
    ensures m1 == m2
  {
    forall identity ensures identity in m1 <==> identity in m2 {
      SameEntry(lines, lines, m1, m2, identity);
      SameEntry(lines, lines, m2, m1, identity);
    }
    forall identity | identity in m1 ensures m1[identity] == m2[identity] {
      SameEntry(lines, lines, m1, m2, identity);
    }
  }
}
