/** The scheduling of main.go: each worker runs slow sessions one after the
    other, sleeping between them as the session's retry hint says, and `main`
    starts three workers a little apart. The endless worker loop is modelled
    over a finite list of rounds; randomness is a given draw per sleep. */
module Scheduler {
  import opened Common
  import Logging
  import Startup
  import Session

  /** The sleep in milliseconds after a session returned `delay`:
      `1000 + rand.Intn(delay*1000)`, with `draw % (delay*1000)` standing for
      the random choice; no sleep at all after a zero hint. */
  function Backoff(delay: nat, draw: nat): (ms: nat)
    ensures delay == 0 ==> ms == 0
    ensures delay > 0 ==> 1000 <= ms < 1000 + 1000 * delay
  {
    if delay == 0 then 0 else 1000 + draw % (delay * 1000)
  }

  /** Every sleep in the range is possible. */
  lemma BackoffCoversRange(delay: nat, ms: nat)
    requires delay > 0 && 1000 <= ms < 1000 + 1000 * delay
    ensures Backoff(delay, ms - 1000) == ms
  {
    var m := delay * 1000;
    assert m == 1000 * delay;
    SmallRemainder(ms - 1000, m);
  }

  lemma SmallRemainder(x: nat, m: nat)
    requires x < m
    ensures x % m == x
  {
  }

  /** After any slow session the worker restarts at once or sleeps between
      1 and 10 seconds (short backoff) or between 1 and 100 seconds (after a
      failed SetDeadline); a failed dial always gives the short backoff. */
  lemma SessionBackoff(ctx: Startup.Context, env: Session.RemoteEnv, draw: nat)
    requires Session.RemoteSpec(false, ctx, env).ending.Hint?
    ensures var d := Session.RemoteSpec(false, ctx, env).ending.delay;
      var ms := Backoff(d, draw);
      && (ms == 0 <==> d == 0)
      && (d == 9 ==> 1000 <= ms <= 9999)
      && (d == 99 ==> 1000 <= ms <= 99999)
      && (!env.dialOk ==> d == 9 && 1000 <= ms <= 9999)
  {
    Session.RemoteOutcomes(false, ctx, env);
  }

  /** One turn of a worker: the session's inputs and the random draw for the
      sleep that may follow. */
  datatype Round = Round(env: Session.RemoteEnv, draw: nat)

  /** worker: runs slow sessions round after round, sleeping as each hint
      says, until a session exits the process or the rounds run out. */
  method Worker(ctx: Startup.Context, rounds: seq<Round>) returns (sleeps: seq<nat>, exited: bool)
    ensures |sleeps| <= |rounds|
    ensures exited <==> |sleeps| < |rounds|
    ensures exited ==> Session.RemoteSpec(false, ctx, rounds[|sleeps|].env).ending.Exit?
    ensures forall k :: 0 <= k < |sleeps| ==>
      Session.RemoteSpec(false, ctx, rounds[k].env).ending.Hint? &&
      sleeps[k] == Backoff(Session.RemoteSpec(false, ctx, rounds[k].env).ending.delay, rounds[k].draw)
  {
    sleeps := [];
    exited := false;
    var i := 0;
    while i < |rounds|
      invariant 0 <= i <= |rounds| && |sleeps| == i
      invariant forall k :: 0 <= k < i ==>
        Session.RemoteSpec(false, ctx, rounds[k].env).ending.Hint? &&
        sleeps[k] == Backoff(Session.RemoteSpec(false, ctx, rounds[k].env).ending.delay, rounds[k].draw)
    {
      var outcome := Session.Remote(false, ctx, rounds[i].env);
      Session.RemoteOutcomes(false, ctx, rounds[i].env);
      match outcome.ending
      case Exit(_) =>
        exited := true;
        return;
      case Hint(delay) =>
        var ms := 0;
        if delay != 0 {
          ms := 1000 + rounds[i].draw % (delay * 1000);
        }
        sleeps := sleeps + [ms];
      i := i + 1;
    }
  }

  /** main's start-up: workers "2" and "1" are started with a pause of
      900 + rand.Int31n(200) milliseconds after each, then worker "0" runs
      in the main goroutine; `draw(i)` is the random choice after worker i.
      `workerLoggers[j]` is the child logger handed to the j-th `worker`
      call; it stands for that call, since the worker loop itself is
      Worker and never logs through it. */
  method SpawnPool(root: Logging.Logger, draw: nat -> nat) returns (workerLoggers: seq<Logging.Logger>, pauses: seq<nat>)
    ensures |workerLoggers| == 3 && |pauses| == 2
    ensures forall j :: 0 <= j < 3 ==> fresh(workerLoggers[j])
    ensures forall j :: 0 <= j < 3 ==> workerLoggers[j].name == root.name + "." + Decimal(2 - j)
    ensures forall j :: 0 <= j < 3 ==> workerLoggers[j].level == root.level && workerLoggers[j].sink == root.sink
    ensures forall j :: 0 <= j < 2 ==> pauses[j] == 900 + draw(2 - j) % 200 && 900 <= pauses[j] <= 1099
  {
    workerLoggers := [];
    pauses := [];
    var i := 2;
    while i > 0
      invariant 0 <= i <= 2 && |workerLoggers| == 2 - i && |pauses| == 2 - i
      invariant forall j :: 0 <= j < |workerLoggers| ==> fresh(workerLoggers[j])
      invariant forall j :: 0 <= j < |workerLoggers| ==>
        workerLoggers[j].name == root.name + "." + Decimal(2 - j) &&
        workerLoggers[j].level == root.level && workerLoggers[j].sink == root.sink
      invariant forall j :: 0 <= j < |pauses| ==> pauses[j] == 900 + draw(2 - j) % 200
    {
      var w := root.Child(Decimal(i));
      workerLoggers := workerLoggers + [w];
      pauses := pauses + [900 + draw(i) % 200];
      i := i - 1;
    }
    var last := root.Child(Decimal(0));
    workerLoggers := workerLoggers + [last];
  }

  /** The three workers' loggers have pairwise distinct names. */
  lemma WorkerNamesDistinct(rootName: string, i: nat, j: nat)
    requires i != j
    ensures rootName + "." + Decimal(i) != rootName + "." + Decimal(j)
  {
    DecimalInjective(i, j);
    var p := rootName + ".";
    assert (p + Decimal(i))[|p|..] == Decimal(i);
    assert (p + Decimal(j))[|p|..] == Decimal(j);
  }
}
