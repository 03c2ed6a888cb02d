/**
 The deadline every command of one helper operation shares (deploy/hubinet-package-scan-helper.py), against the
 time the transport is prepared to wait for the answer (packages/transport.py). Times are in seconds.
 */
module Deadlines {
  datatype Operation = Probe | ScanPackages | PlanPackages | UpdatePackages | PlanAutoremove | AutoremovePackages | Ping | CheckHealth

  function OperationTimeout(operation: Operation): real {
    match operation
    case UpdatePackages => 1800.0
    case AutoremovePackages => 1800.0
    case Ping => 30.0
    case CheckHealth => 60.0
    case _ => 240.0
  }

  function TransportTimeout(operation: Operation): real {
    match operation
    case UpdatePackages => 1860.0
    case AutoremovePackages => 1860.0
    case Ping => 45.0
    case CheckHealth => 90.0
    case Probe => 30.0
    case _ => 300.0
  }

  /**
   One command: the time that passes before it is run, its own timeout, how long its process would take, and how
   long its clean-up takes once the process is done or was killed. The clean-up waits at most twice five seconds.
   */
  datatype Command = Command(gap: real, cap: real, needed: real, cleanup: real)

  predicate Timely(c: Command) { 0.0 <= c.gap && 0.0 <= c.cap && 0.0 <= c.needed && 0.0 <= c.cleanup <= 10.0 }

  predicate AllTimely(commands: seq<Command>) { forall c | c in commands :: Timely(c) }

  function Min(a: real, b: real): real { if a <= b then a else b }

  function Max(a: real, b: real): real { if a <= b then b else a }

  function Remaining(deadline: real, now: real): real { Max(0.0, deadline - now) }

  /** The last moment at which a command of this operation is still at work. */
  function LastWork(commands: seq<Command>, now: real, deadline: real, worked: real): real
    decreases |commands|
  {
    if commands == [] then worked
    else
      var c := commands[0];
      var started := now + c.gap;
      var remaining := Remaining(deadline, started);
      if remaining <= 0.0 then worked
      else
        var limit := Min(c.cap, remaining);
        var ended := started + Min(c.needed, limit) + c.cleanup;
        if c.needed > limit || Remaining(deadline, ended) <= 0.0 then ended
        else LastWork(commands[1..], ended, deadline, ended)
  }

  /** The commands of one operation, run in sequence until one times out or the deadline has passed. */
  method RunCommands(commands: seq<Command>, started: real, timeout: real) returns (worked: real)
    requires AllTimely(commands)
    requires 0.0 <= timeout
    ensures worked == LastWork(commands, started, started + timeout, started)
    ensures worked <= started + timeout + 10.0
  {
    var deadline, now := started + timeout, started;
    worked := started;
    for i := 0 to |commands|
      invariant LastWork(commands[i..], now, deadline, worked) == LastWork(commands, started, deadline, started)
      invariant worked == now <= deadline + 10.0
    {
      var c := commands[i];
      assert c in commands;
      assert commands[i..][0] == c && commands[i..][1..] == commands[i + 1..];
      now := now + c.gap;
      var remaining := Remaining(deadline, now);
      if remaining <= 0.0 {
        return;
      }
      var limit := Min(c.cap, remaining);
      now := now + Min(c.needed, limit) + c.cleanup;
      worked := now;
      if c.needed > limit || Remaining(deadline, now) <= 0.0 {
        return;
      }
    }
  }

  lemma OneCommandEndsInTime(c: Command, started: real, deadline: real)
    requires Timely(c) && Remaining(deadline, started) > 0.0
    ensures started + Min(c.needed, Min(c.cap, Remaining(deadline, started))) + c.cleanup <= deadline + 10.0
  {
  }

  /** Whatever the commands are, the last of them is done ten seconds after the operation's own timeout. */
  lemma {:induction false} WorkEndsInTime(commands: seq<Command>, now: real, deadline: real, worked: real)
    requires AllTimely(commands) && worked <= deadline + 10.0
    ensures LastWork(commands, now, deadline, worked) <= deadline + 10.0
    decreases |commands|
  {
    if commands != [] {
      var c := commands[0];
      var started := now + c.gap;
      if Remaining(deadline, started) > 0.0 {
        var ended := started + Min(c.needed, Min(c.cap, Remaining(deadline, started))) + c.cleanup;
        OneCommandEndsInTime(c, started, deadline);
        WorkEndsInTime(commands[1..], ended, deadline, ended);
      }
    }
  }

  /** The time these commands take when nothing cuts them short. */
  function Total(commands: seq<Command>): real {
    if commands == [] then 0.0 else commands[0].gap + commands[0].needed + commands[0].cleanup + Total(commands[1..])
  }

  lemma {:induction false} TotalGrows(commands: seq<Command>)
    requires AllTimely(commands)
    ensures Total(commands) >= 0.0
  {
    if commands != [] {
      assert commands[0] in commands;
      TotalGrows(commands[1..]);
    }
  }

  /** Commands that fit their own timeouts and the deadline together are all run to their end, one after the other. */
  lemma {:induction false} UnhurriedRun(commands: seq<Command>, now: real, deadline: real)
    requires AllTimely(commands) && commands != []
    requires forall c | c in commands :: c.needed <= c.cap
    requires now + Total(commands) < deadline
    ensures LastWork(commands, now, deadline, now) == now + Total(commands)
    decreases |commands|
  {
    var c := commands[0];
    assert c in commands;
    TotalGrows(commands[1..]);
    var ended := now + c.gap + c.needed + c.cleanup;
    if commands[1..] == [] {
      assert LastWork(commands[1..], ended, deadline, ended) == ended;
    } else {
      UnhurriedRun(commands[1..], ended, deadline);
    }
  }

  /**
   A command that would take too long is cut off at its own limit or at the deadline, whichever comes first, and is the
   last; none is begun once the deadline has passed.
   */
  lemma OverrunExactly(commands: seq<Command>, now: real, deadline: real, worked: real)
    requires AllTimely(commands) && commands != []
    ensures var c := commands[0];
      var started := now + c.gap;
      && (deadline <= started ==> LastWork(commands, now, deadline, worked) == worked)
      && (started < deadline && c.needed > c.cap && started + c.cap <= deadline ==>
        LastWork(commands, now, deadline, worked) == started + c.cap + c.cleanup)
      && (started < deadline && started + c.needed > deadline && started + c.cap >= deadline ==>
        LastWork(commands, now, deadline, worked) == deadline + c.cleanup)
  {
  }

  /** When the helper's last command for this operation is done. */
  function WorkOf(operation: Operation, commands: seq<Command>, started: real): real {
    LastWork(commands, started, started + OperationTimeout(operation), started)
  }

  /** The transport outwaits every command of this operation, whatever the commands do. */
  ghost predicate Outwaits(operation: Operation) {
    forall commands, started | AllTimely(commands) ::
      WorkOf(operation, commands, started) < started + TransportTimeout(operation)
  }

  /**
   The transport outwaits every operation but the probe, whose helper side runs under the general operation timeout
   while the transport gives up after thirty seconds.
   */
  lemma TransportOutwaits(operation: Operation)
    ensures Outwaits(operation) <==> !operation.Probe?
  {
    if operation.Probe? {
      var slow := [Command(0.0, 120.0, 100.0, 0.0)];
      assert slow[1..] == [];
      assert WorkOf(operation, slow, 0.0) == 100.0;
    } else {
      forall commands, started | AllTimely(commands)
        ensures WorkOf(operation, commands, started) < started + TransportTimeout(operation)
      {
        WorkEndsInTime(commands, started, started + OperationTimeout(operation), started);
      }
    }
  }
}
