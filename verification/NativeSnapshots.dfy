/**
 Decisions the native snapshot glue takes on what PVE returned (packages/snapshots.py), and the polling loop
 that watches one PVE task.
 */
module NativeSnapshots {
  import opened Models
  import opened Wire

  const SNAPSHOT_PREFIX := "hubinet-preupd-"
  const PVE_SNAPSHOT_NAME_MAX_LENGTH := 40
  const TASK_MAX_POLLS: nat := 120

  predicate Letter(c: char) { 'A' <= c <= 'Z' || 'a' <= c <= 'z' }

  predicate Digit(c: char) { '0' <= c <= '9' }

  predicate NameChar(c: char) { Letter(c) || Digit(c) || c == '_' || c == '-' }

  predicate ValidSnapshotName(name: string) {
    && 2 <= |name| <= PVE_SNAPSHOT_NAME_MAX_LENGTH
    && Letter(name[0])
    && (forall i | 1 <= i < |name| :: NameChar(name[i]))
    && name != "current" && name != "vzdump"
  }

  /** A name this integration may delete: valid for PVE and carrying its own prefix. */
  predicate OwnSnapshotName(name: string) {
    ValidSnapshotName(name) && SNAPSHOT_PREFIX <= name
  }

  function GenerateSnapshotName(stamp: string, suffix: string): string {
    SNAPSHOT_PREFIX + stamp + "-" + suffix
  }

  /** Fourteen timestamp digits and six hexadecimal digits always make a name PVE accepts and cleanup may delete. */
  lemma GeneratedNameIsOwn(stamp: string, suffix: string)
    requires |stamp| == 14 && forall i | 0 <= i < |stamp| :: Digit(stamp[i])
    requires |suffix| == 6 && forall i | 0 <= i < |suffix| :: Digit(suffix[i]) || 'a' <= suffix[i] <= 'f'
    ensures OwnSnapshotName(GenerateSnapshotName(stamp, suffix))
  {
    var name := GenerateSnapshotName(stamp, suffix);
    assert name[..|SNAPSHOT_PREFIX|] == SNAPSHOT_PREFIX;
    assert name[0] == 'h' && |name| == 36;
    forall i | 1 <= i < |name| ensures NameChar(name[i]) {
      if i < 15 {
        assert name[i] == SNAPSHOT_PREFIX[i];
      } else if i < 29 {
        assert name[i] == stamp[i - 15];
      } else if 29 < i {
        assert name[i] == suffix[i - 30];
      }
    }
  }

  /** A name is own exactly if at most twenty-five letters, digits, underscores or hyphens follow the prefix. */
  lemma OwnNameExactly(name: string, rest: string)
    ensures OwnSnapshotName("hubinet-preupd-" + rest) <==>
      |rest| <= 25 && forall i | 0 <= i < |rest| ::
        'A' <= rest[i] <= 'Z' || 'a' <= rest[i] <= 'z' || '0' <= rest[i] <= '9' || rest[i] == '_' || rest[i] == '-'
    ensures OwnSnapshotName(name) ==> name == "hubinet-preupd-" + name[15..]
  {
    var own := "hubinet-preupd-" + rest;
    assert own[..15] == SNAPSHOT_PREFIX && own[0] == 'h';
    assert forall i | 0 <= i < 15 :: own[i] == SNAPSHOT_PREFIX[i];
    assert forall i | 15 <= i < |own| :: own[i] == rest[i - 15];
    assert forall i | 0 <= i < |rest| :: rest[i] == own[i + 15];
  }

  // ----- snapshot listings

  predicate ListingRow(row: Json) { row.Object? && Get(row, "name").Str? }

  predicate WellFormedListing(rows: Json) {
    rows.List? && forall i | 0 <= i < |rows.items| :: ListingRow(rows.items[i])
  }

  predicate Names(row: Json, name: string) { Get(row, "name") == Str(name) }

  function Matches(rows: seq<Json>, name: string): (found: seq<Json>)
    ensures forall i | 0 <= i < |rows| :: Names(rows[i], name) ==> rows[i] in found
    ensures forall row | row in found :: row in rows && Names(row, name)
  {
    if rows == [] then []
    else
      var rest := Matches(rows[1..], name);
      if Names(rows[0], name) then [rows[0]] + rest else rest
  }

  predicate SnapshotIsComplete(rows: Json, name: string) {
    && WellFormedListing(rows)
    && var found := Matches(rows.items, name);
    |found| == 1 && !Truthy(Get(found[0], "snapstate"))
  }

  predicate SnapshotIsAbsent(rows: Json, name: string) {
    WellFormedListing(rows) && forall i | 0 <= i < |rows.items| :: !Names(rows.items[i], name)
  }

  // ----- the same decisions read off the rows alone

  /** A list of objects, each with a string for its name: the only listing anything is concluded from. */
  predicate Readable(rows: Json) {
    rows.List?
    && forall i | 0 <= i < |rows.items| ::
      rows.items[i].Object? && "name" in rows.items[i].fields && rows.items[i].fields["name"].Str?
  }

  predicate Carries(row: Json, name: string) {
    row.Object? && "name" in row.fields && row.fields["name"] == Str(name)
  }

  /** The listing has a row of this name, whatever else the row says. */
  predicate Shows(rows: Json, name: string) {
    rows.List? && exists i | 0 <= i < |rows.items| :: Carries(rows.items[i], name)
  }

  /** PVE marks a snapshot it is still working on, or gave up on half-way, with any value Python takes for true. */
  predicate HalfMade(row: Json) {
    row.Object? && "snapstate" in row.fields
    && row.fields["snapstate"] != Null && row.fields["snapstate"] != Bool(false) && row.fields["snapstate"] != Int(0)
    && row.fields["snapstate"] != Str("") && row.fields["snapstate"] != List([]) && row.fields["snapstate"] != Object(map[])
  }

  predicate ShownOnceAt(rows: seq<Json>, name: string, i: nat)
    requires i < |rows|
  {
    Carries(rows[i], name) && !HalfMade(rows[i]) && forall j | 0 <= j < |rows| && j != i :: !Carries(rows[j], name)
  }

  lemma ReadableExactly(rows: Json)
    ensures WellFormedListing(rows) <==> Readable(rows)
  {
    if rows.List? {
      forall i | 0 <= i < |rows.items|
        ensures ListingRow(rows.items[i]) <==>
          rows.items[i].Object? && "name" in rows.items[i].fields && rows.items[i].fields["name"].Str?
      {
      }
    }
  }

  /** A snapshot counts as absent exactly when the listing can be read and no row carries its name. */
  lemma AbsentExactly(rows: Json, name: string)
    ensures SnapshotIsAbsent(rows, name) <==> Readable(rows) && !Shows(rows, name)
  {
    if rows.List? {
      forall i | 0 <= i < |rows.items| ensures Carries(rows.items[i], name) <==> Names(rows.items[i], name) {
      }
    }
  }

  lemma {:induction false} MatchesExactly(rows: seq<Json>, name: string)
    ensures Matches(rows, name) == [] <==> forall i | 0 <= i < |rows| :: !Carries(rows[i], name)
    ensures |Matches(rows, name)| == 1 && !HalfMade(Matches(rows, name)[0]) <==>
      exists i | 0 <= i < |rows| :: ShownOnceAt(rows, name, i)
  {
    if rows != [] {
      var rest := rows[1..];
      MatchesExactly(rest, name);
      assert forall i | 0 <= i < |rest| :: rest[i] == rows[i + 1];
      assert Carries(rows[0], name) <==> Names(rows[0], name);
      if Carries(rows[0], name) {
        assert Matches(rows, name) == [rows[0]] + Matches(rest, name);
        assert ShownOnceAt(rows, name, 0) <==> !HalfMade(rows[0]) && Matches(rest, name) == [];
      } else {
        assert Matches(rows, name) == Matches(rest, name);
        assert forall i | 0 <= i < |rest| :: ShownOnceAt(rest, name, i) <==> ShownOnceAt(rows, name, i + 1);
        assert forall i | 0 < i < |rows| :: ShownOnceAt(rows, name, i) ==> ShownOnceAt(rest, name, i - 1);
      }
    }
  }

  /** It counts as complete exactly when one row carries its name and that row is not marked as half-made. */
  lemma CompleteExactly(rows: Json, name: string)
    ensures SnapshotIsComplete(rows, name) <==>
      Readable(rows) && exists i | 0 <= i < |rows.items| :: ShownOnceAt(rows.items, name, i)
  {
    hide Matches, ShownOnceAt;
    if WellFormedListing(rows) {
      MatchesExactly(rows.items, name);
      var found := Matches(rows.items, name);
      if |found| == 1 {
        assert found[0] in found;
        assert HalfMade(found[0]) <==> Truthy(Get(found[0], "snapstate"));
      }
    }
  }

  /** No listing confirms a snapshot complete and absent at once, and an unreadable one confirms neither. */
  lemma CompleteExcludesAbsent(rows: Json, name: string)
    ensures !(SnapshotIsComplete(rows, name) && SnapshotIsAbsent(rows, name))
    ensures SnapshotIsComplete(rows, name) ==> Shows(rows, name)
    ensures !Readable(rows) ==> !SnapshotIsComplete(rows, name) && !SnapshotIsAbsent(rows, name)
  {
    hide SnapshotIsComplete, SnapshotIsAbsent;
    AbsentExactly(rows, name);
    CompleteExactly(rows, name);
  }

  // ----- task identifiers and task status

  predicate Whitespace(c: char) {
    || c == ' ' || ('\t' <= c <= '\r') || ('\U{1c}' <= c <= '\U{1f}') || c == '\U{85}' || c == '\U{a0}'
    || c == '\U{1680}' || ('\U{2000}' <= c <= '\U{200a}') || c == '\U{2028}' || c == '\U{2029}'
    || c == '\U{202f}' || c == '\U{205f}' || c == '\U{3000}'
  }

  predicate ValidUpid(value: Json) {
    && value.Str? && "UPID:" <= value.s && |value.s| <= 1024
    && forall i | 0 <= i < |value.s| :: !Whitespace(value.s[i]) && 32 <= value.s[i] as int
  }

  datatype TaskState = TaskRunning | TaskSucceeded | TaskFailed

  predicate WarningStatus(text: string) {
    "WARNINGS: " <= text && |text| > 10 && forall i | 10 <= i < |text| :: Digit(text[i])
  }

  predicate ExitAccepted(exitStatus: Json) {
    exitStatus == Str("OK") || (exitStatus.Str? && WarningStatus(exitStatus.s))
  }

  /** Only a payload that positively says "stopped" proves that PVE has finished with the task. */
  predicate TaskStopped(payload: Json) { Get(payload, "status") == Str("stopped") }

  function ParseTaskStatus(payload: Json): (state: TaskState)
    ensures state.TaskSucceeded? ==> TaskStopped(payload)
    ensures state.TaskRunning? ==> !TaskStopped(payload)
  {
    if !payload.Object? then TaskFailed
    else
      var status := Get(payload, "status");
      if status == Str("running") then TaskRunning
      else if status != Str("stopped") then TaskFailed
      else if ExitAccepted(Get(payload, "exitstatus")) then TaskSucceeded else TaskFailed
  }

  // ----- the same verdicts read off the fields alone

  /** PVE ends a task well with "OK", or with a positive report of how many warnings it gave. */
  ghost predicate EndsWell(exit: string) {
    exit == "OK"
    || exists digits :: exit == "WARNINGS: " + digits && digits != "" && forall i | 0 <= i < |digits| :: Digit(digits[i])
  }

  lemma ExitExactly(exitStatus: Json)
    ensures ExitAccepted(exitStatus) <==> exitStatus.Str? && EndsWell(exitStatus.s)
  {
    if exitStatus.Str? {
      var exit := exitStatus.s;
      if WarningStatus(exit) {
        var digits := exit[10..];
        assert exit == "WARNINGS: " + digits;
        assert forall i | 0 <= i < |digits| :: digits[i] == exit[i + 10];
      }
      if digits :| exit == "WARNINGS: " + digits && digits != "" && forall i | 0 <= i < |digits| :: Digit(digits[i]) {
        assert forall i | 10 <= i < |exit| :: exit[i] == digits[i - 10];
      }
    }
  }

  /** A task runs, has stopped or has succeeded exactly when the answer says so; anything else is a failure. */
  lemma StatusExactly(payload: Json)
    ensures TaskStopped(payload) <==> Says(payload, "status", Str("stopped"))
    ensures ParseTaskStatus(payload).TaskRunning? <==> Says(payload, "status", Str("running"))
    ensures ParseTaskStatus(payload).TaskSucceeded? <==>
      Says(payload, "status", Str("stopped"))
      && exists exit: string :: Says(payload, "exitstatus", Str(exit)) && EndsWell(exit)
  {
    hide ExitAccepted, EndsWell;
    ExitExactly(Get(payload, "exitstatus"));
    if ParseTaskStatus(payload).TaskSucceeded? {
      assert Says(payload, "exitstatus", Str(Get(payload, "exitstatus").s));
    }
  }

  /** A task identifier is what follows "UPID:" in at most 1024 characters, none of them blank or a control. */
  lemma UpidExactly(value: Json, rest: string)
    ensures ValidUpid(Str("UPID:" + rest)) <==>
      |rest| <= 1019 && forall i | 0 <= i < |rest| :: 32 < rest[i] as int && !Whitespace(rest[i])
    ensures ValidUpid(value) ==> value.Str? && value.s == "UPID:" + value.s[5..]
  {
    hide Whitespace;
    var text := "UPID:" + rest;
    assert text[..5] == "UPID:" && !Whitespace('U') && !Whitespace('P') && !Whitespace('I') && !Whitespace('D')
      && !Whitespace(':') && Whitespace(' ') by {
      WhitespaceFacts();
    }
    assert forall i | 0 <= i < 5 :: text[i] == "UPID:"[i];
    assert forall i | 5 <= i < |text| :: text[i] == rest[i - 5];
    assert forall i | 0 <= i < |rest| :: rest[i] == text[i + 5];
  }

  lemma WhitespaceFacts()
    ensures Whitespace(' ') && forall c: char | '!' <= c <= '~' :: !Whitespace(c)
  {
  }

  // ----- the polling loop

  /** What one status request returned: a payload, or nothing when it raised. */
  type Poll = Option<Json>

  datatype Watch =
    | WatchDone
    | WatchFailed(terminal: bool)

  predicate StillRunning(poll: Poll) { poll.Some? && ParseTaskStatus(poll.value).TaskRunning? }

  function Conclude(poll: Poll): Watch {
    match poll
    case None => WatchFailed(false)
    case Some(payload) =>
      if ParseTaskStatus(payload).TaskSucceeded? then WatchDone else WatchFailed(TaskStopped(payload))
  }

  /**
   Watch one task over the answers PVE would give to successive status requests. The verdict is the conclusion
   of the first answer that is not "running", provided it comes within the poll budget; otherwise the task is
   left unfinished, which is never a terminal failure.
   */
  method WaitForTask(answers: seq<Poll>, maxPolls: nat) returns (watch: Watch, polled: nat)
    requires maxPolls <= |answers|
    ensures polled <= maxPolls
    ensures forall i | 0 <= i < polled - 1 :: StillRunning(answers[i])
    ensures watch.WatchDone? ==> 0 < polled && Conclude(answers[polled - 1]) == WatchDone
    ensures watch == WatchFailed(true) ==> 0 < polled && answers[polled - 1].Some? && TaskStopped(answers[polled - 1].value)
    ensures (exists i :: 0 <= i < maxPolls && !StillRunning(answers[i])) ==>
      0 < polled && !StillRunning(answers[polled - 1]) && watch == Conclude(answers[polled - 1])
    ensures (forall i | 0 <= i < maxPolls :: StillRunning(answers[i])) ==> watch == WatchFailed(false)
  {
    var poll := 0;
    while poll < maxPolls
      invariant 0 <= poll <= maxPolls
      invariant forall i | 0 <= i < poll :: StillRunning(answers[i])
    {
      var answer := answers[poll];
      if answer.None? {
        return WatchFailed(false), poll + 1;
      }
      var state := ParseTaskStatus(answer.value);
      if state.TaskSucceeded? {
        return WatchDone, poll + 1;
      }
      if state.TaskFailed? {
        return WatchFailed(TaskStopped(answer.value)), poll + 1;
      }
      poll := poll + 1;
    }
    return WatchFailed(false), maxPolls;
  }
}
