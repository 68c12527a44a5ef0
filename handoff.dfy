/** The hand-off of main.go (`local`): after a `start` message the promoted
    rendezvous connection is paired with a fresh connection to the local
    service and the relay runs between them. */
module Handoff {
  import opened Common
  import opened Framing
  import Startup
  import Relay
  import Session

  /** Outcomes of dialing the local service, arming its deadline and sending
      `success`, and how the relay's two directions settle. `local` calls
      `Transfer(rconn, lconn)` with the rendezvous connection first, so in
      `relay` the direction LToR copies from the rendezvous connection into
      the local service and RToL copies back. */
  datatype LocalEnv = LocalEnv(dialOk: bool, deadlineOk: bool, successOk: bool, relay: Relay.RelayRun)

  /** The side of Transfer that receives the rendezvous connection (its first
      parameter) and the side that receives the local service. */
  const Rendezvous: Relay.Side := Relay.LSide
  const LocalService: Relay.Side := Relay.RSide

  /** The relay's result: its two byte counters, their total, and what it did
      to the connections. */
  datatype RelayReport = RelayReport(sent: nat, rcvd: nat, total: nat, events: seq<Relay.Event>)

  datatype HandoffOutcome = HandoffOutcome(spawnedFast: nat, sent: seq<Msg>, localDialed: bool,
                                           relay: Option<RelayReport>, rconnClosed: bool)

  function Success(): Msg { Typed("success") }

  /** What `local` does with a `start` message whose connection is of kind
      `rkind` (TLS when TLS is enabled, plain TCP otherwise). The relay's
      `sent` counts the bytes from the rendezvous connection to the local
      service and `rcvd` those from the local service back. */
  function LocalSpec(start: Msg, rkind: Relay.ConnKind, env: LocalEnv): (r: HandoffOutcome)
    ensures r.spawnedFast == (if start.Fast then 2 else 0)
    ensures r.rconnClosed
    ensures r.localDialed <==> env.dialOk
    ensures r.sent != [] <==> env.dialOk && env.deadlineOk
    ensures r.sent != [] ==> r.sent == [Success()]
    ensures r.relay.Some? <==> env.dialOk && env.deadlineOk && env.successOk
    ensures r.relay.Some? ==> r.relay.value.total == r.relay.value.sent + r.relay.value.rcvd
                              == env.relay.firstOutcome.n + env.relay.secondOutcome.n
    ensures r.relay.Some? ==> forall dir :: Relay.Src(dir) == Rendezvous && Relay.Dst(dir) == LocalService ==>
      r.relay.value.sent == Relay.DirectionBytes(env.relay, dir)
    ensures r.relay.Some? ==> forall dir :: Relay.Src(dir) == LocalService && Relay.Dst(dir) == Rendezvous ==>
      r.relay.value.rcvd == Relay.DirectionBytes(env.relay, dir)
  {
    var spawned := if start.Fast then 2 else 0;
    if !env.dialOk then HandoffOutcome(spawned, [], false, None, true)
    else if !env.deadlineOk then HandoffOutcome(spawned, [], true, None, true)
    else if !env.successOk then HandoffOutcome(spawned, [Success()], true, None, true)
    else
      var run := env.relay;
      var sent, rcvd := Relay.DirectionBytes(run, Relay.LToR), Relay.DirectionBytes(run, Relay.RToL);
      var report := RelayReport(sent, rcvd, sent + rcvd, Relay.TransferEvents(rkind, Relay.Tcp, run));
      HandoffOutcome(spawned, [Success()], true, Some(report), true)
  }

  /** local: spawns two fast sessions first when the server asked for fast
      hand-off, takes a connection ID, and relays once the local side is up.
      Transfer is called with the rendezvous connection first, so its
      `lconn` is the rendezvous side and its `rconn` the local service. */
  method Local(ids: Startup.ConnIds, start: Msg, rkind: Relay.ConnKind, env: LocalEnv)
    returns (connId: nat, r: HandoffOutcome)
    requires ids.Valid()
    modifies ids
    ensures ids.Valid() && ids.handed == old(ids.handed) + 1
    ensures connId == old(ids.handed) % U64
    ensures r == LocalSpec(start, rkind, env)
  {
    var spawned := 0;
    if start.Fast {
      spawned := spawned + 1;
      spawned := spawned + 1;
    }
    connId := ids.Next();
    if !env.dialOk {
      return connId, HandoffOutcome(spawned, [], false, None, true);
    }
    if !env.deadlineOk {
      return connId, HandoffOutcome(spawned, [], true, None, true);
    }
    if !env.successOk {
      return connId, HandoffOutcome(spawned, [Success()], true, None, true);
    }
    var p := new Relay.Proxy();
    var total := p.Transfer(rkind, Relay.Tcp, env.relay);
    assert p.sent == Relay.DirectionBytes(env.relay, Relay.LToR);
    assert p.rcvd == Relay.DirectionBytes(env.relay, Relay.RToL);
    assert p.events == Relay.TransferEvents(rkind, Relay.Tcp, env.relay);
    assert spawned == (if start.Fast then 2 else 0);
    r := HandoffOutcome(spawned, [Success()], true, Some(RelayReport(p.sent, p.rcvd, total, p.events)), true);
  }

  /** A session that promotes its connection on `start` spawns one fast
      session if it is itself fast, and the hand-off spawns two more if the
      message asked for fast hand-off: three in all on a fast promotion. */
  lemma PromotionSpawns(fast: bool, ctx: Startup.Context, env: Session.RemoteEnv, rkind: Relay.ConnKind, local: LocalEnv)
    requires Session.RemoteSpec(fast, ctx, env).rconn.HandedOff?
    ensures var o := Session.RemoteSpec(fast, ctx, env);
      o.spawnedFast + LocalSpec(o.rconn.start, rkind, local).spawnedFast
        == (if fast then 1 else 0) + (if o.rconn.start.Fast then 2 else 0)
  {
    Session.RemoteOutcomes(fast, ctx, env);
  }

  /** A hand-off whose relay sees both directions end cleanly reports the
      bytes of both directions, half-closes both connections and resets
      neither. */
  lemma CleanRelay(start: Msg, rkind: Relay.ConnKind, n1: nat, n2: nat)
    requires rkind != Relay.OtherConn
    ensures var run := Relay.RelayRun(Relay.LToR, Relay.CopyOutcome(n1, Relay.Clean), Relay.CopyOutcome(n2, Relay.Clean));
      var r := LocalSpec(start, rkind, LocalEnv(true, true, true, run));
      && r.relay.Some? && r.relay.value.sent == n1 && r.relay.value.rcvd == n2
      && r.relay.value.total == n1 + n2
      && Relay.CloseWrite(Relay.LSide) in r.relay.value.events
      && Relay.CloseWrite(Relay.RSide) in r.relay.value.events
      && forall e <- r.relay.value.events :: !e.LingerZero?
  {
    var run := Relay.RelayRun(Relay.LToR, Relay.CopyOutcome(n1, Relay.Clean), Relay.CopyOutcome(n2, Relay.Clean));
    var e1 := Relay.DirectionEffects(Relay.LToR, rkind, Relay.Tcp, Relay.Clean);
    var e2 := Relay.DirectionEffects(Relay.RToL, rkind, Relay.Tcp, Relay.Clean);
    assert e1 == [Relay.CloseWrite(Relay.RSide)];
    assert e2 == [Relay.CloseWrite(Relay.LSide)];
  }
}
