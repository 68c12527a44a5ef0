/** One rendezvous session of main.go (`remote`): dial, arm a deadline,
    optionally negotiate TLS, register with `listen`, then dispatch on the
    server's messages until the session ends. Every network step is given by
    its outcome; the result is the retry hint (or a process exit) together
    with what the session sent, how many fast sessions it spawned and what
    became of its connection. */
module Session {
  import opened Common
  import opened Framing
  import Startup

  /** One turn of the receive loop: a received message together with the
      outcomes of the reply and deadline re-arm it may cause, or a failed
      receive. */
  datatype Incoming = Received(msg: Msg, replyOk: bool, rearmOk: bool) | ReceiveFailed

  /** The outcomes of the steps before the loop, and the loop's input. When
      `incoming` runs out the next receive fails (the deadline expires). */
  datatype RemoteEnv = RemoteEnv(dialOk: bool, deadlineOk: bool, handshakeOk: bool, listenOk: bool,
                                 incoming: seq<Incoming>)

  /** `remote` either returns a retry hint or exits the process. */
  datatype Ending = Hint(delay: nat) | Exit(code: int)

  /** What became of the rendezvous connection: never opened, closed by the
      deferred close, handed to `local` with the `start` message, or left
      open when the process exited (deferred calls do not run on os.Exit). */
  datatype Rconn = NotDialed | Closed | HandedOff(start: Msg) | LeftAtExit

  datatype Outcome = Outcome(ending: Ending, sent: seq<Msg>, spawnedFast: nat, rconn: Rconn, rearms: nat)

  function Listen(ctx: Startup.Context): Msg
  {
    Msg("listen", "", ctx.port, ctx.key, false, "")
  }

  function KeepaliveReply(): Msg { Typed("keepalive") }

  function TimeoutNotice(): Msg { Msg("info", "TIMEOUT", 0, [], false, "") }

  predicate IsNotice(kind: string)
  {
    kind == "debug" || kind == "info" || kind == "warning"
  }

  /** The outcome of the rest of the loop, preceded by replies already sent
      and deadlines already re-armed. */
  function Continue(replies: seq<Msg>, rearms: nat, rest: Outcome): Outcome
  {
    rest.(sent := replies + rest.sent, rearms := rearms + rest.rearms)
  }

  /** The receive loop of `remote` over its remaining input. */
  function Serve(fast: bool, incoming: seq<Incoming>): (r: Outcome)
    ensures r.ending == Hint(0) || r.ending == Hint(9) || r.ending == Exit(1)
    ensures r.rconn != NotDialed
    decreases |incoming|
  {
    if |incoming| == 0 || incoming[0].ReceiveFailed? then Outcome(Hint(9), [], 0, Closed, 0)
    else
      var m := incoming[0].msg;
      if m.Type == "start" then Outcome(Hint(0), [], if fast then 1 else 0, HandedOff(m), 0)
      else if m.Type == "keepalive" then
        if fast then Outcome(Hint(0), [TimeoutNotice()], 0, Closed, 0)
        else if !incoming[0].replyOk then Outcome(Hint(9), [KeepaliveReply()], 0, Closed, 0)
        else if !incoming[0].rearmOk then Outcome(Hint(9), [KeepaliveReply()], 0, Closed, 1)
        else Continue([KeepaliveReply()], 1, Serve(fast, incoming[1..]))
      else if IsNotice(m.Type) then Outcome(Hint(0), [], 0, Closed, 0)
      else if m.Type == "error" then Outcome(Exit(1), [], 0, LeftAtExit, 0)
      else Serve(fast, incoming[1..])
  }

  /** The whole of `remote`. */
  function RemoteSpec(fast: bool, ctx: Startup.Context, env: RemoteEnv): (r: Outcome)
    ensures r.ending == Hint(0) || r.ending == Hint(9) || r.ending == Hint(99) || r.ending == Exit(1)
    ensures r.rconn == NotDialed <==> !env.dialOk
  {
    if !env.dialOk then Outcome(Hint(9), [], 0, NotDialed, 0)
    else if !env.deadlineOk then Outcome(Hint(99), [], 0, Closed, 0)
    else if ctx.tls && !env.handshakeOk then Outcome(Hint(9), [], 0, Closed, 0)
    else if !env.listenOk then Outcome(Hint(9), [Listen(ctx)], 0, Closed, 0)
    else Continue([Listen(ctx)], 0, Serve(fast, env.incoming))
  }

  /** The connection's fate as the deferred close decides it. */
  function AfterDefer(ropen: bool, start: Msg): Rconn
  {
    if ropen then Closed else HandedOff(start)
  }

  method Remote(fast: bool, ctx: Startup.Context, env: RemoteEnv) returns (r: Outcome)
    ensures r == RemoteSpec(fast, ctx, env)
  {
    if !env.dialOk {
      return Outcome(Hint(9), [], 0, NotDialed, 0);
    }
    var ropen := true;
    var none := Typed("");
    if !env.deadlineOk {
      return Outcome(Hint(99), [], 0, AfterDefer(ropen, none), 0);
    }
    if ctx.tls && !env.handshakeOk {
      return Outcome(Hint(9), [], 0, AfterDefer(ropen, none), 0);
    }
    var sent := [Listen(ctx)];
    if !env.listenOk {
      return Outcome(Hint(9), sent, 0, AfterDefer(ropen, none), 0);
    }
    var rearms := 0;
    var i := 0;
    while i < |env.incoming|
      invariant 0 <= i <= |env.incoming|
      invariant ropen
      invariant RemoteSpec(fast, ctx, env) == Continue(sent, rearms, Serve(fast, env.incoming[i..]))
    {
      match env.incoming[i] {
        case ReceiveFailed =>
        return Outcome(Hint(9), sent, 0, AfterDefer(ropen, none), rearms);
        case Received(message, replyOk, rearmOk) =>
        if message.Type == "start" {
          ropen := false;
          var spawned := if fast then 1 else 0;
          return Outcome(Hint(0), sent, spawned, AfterDefer(ropen, message), rearms);
        } else if message.Type == "keepalive" {
          if fast {
            sent := sent + [TimeoutNotice()];
            return Outcome(Hint(0), sent, 0, AfterDefer(ropen, none), rearms);
          }
          sent := sent + [KeepaliveReply()];
          if !replyOk {
            return Outcome(Hint(9), sent, 0, AfterDefer(ropen, none), rearms);
          }
          rearms := rearms + 1;
          if !rearmOk {
            return Outcome(Hint(9), sent, 0, AfterDefer(ropen, none), rearms);
          }
        } else if IsNotice(message.Type) {
          return Outcome(Hint(0), sent, 0, AfterDefer(ropen, none), rearms);
        } else if message.Type == "error" {
          return Outcome(Exit(1), sent, 0, LeftAtExit, rearms);
        }
      }
      assert env.incoming[i..][1..] == env.incoming[i + 1..];
      i := i + 1;
    }
    return Outcome(Hint(9), sent, 0, AfterDefer(ropen, none), rearms);
  }

  /** What the receive loop can produce: a zero hint, a short-backoff hint or
      an exit; the connection is handed off only on `start` (and then one
      fast session is spawned iff this session is fast); a fast session never
      re-arms a deadline and only ever sends the TIMEOUT notice, a slow one
      only keepalive replies, each re-arm following a reply. */
  lemma {:induction false} ServeOutcomes(fast: bool, incoming: seq<Incoming>)
    ensures var o := Serve(fast, incoming);
      && (o.ending == Hint(0) || o.ending == Hint(9) || o.ending == Exit(1))
      && (o.ending.Exit? <==> o.rconn == LeftAtExit)
      && o.rconn != NotDialed
      && (o.rconn.HandedOff? ==> o.rconn.start.Type == "start" && o.ending == Hint(0))
      && o.spawnedFast == (if fast && o.rconn.HandedOff? then 1 else 0)
      && (fast ==> o.rearms == 0 && forall m <- o.sent :: m == TimeoutNotice())
      && (!fast ==> forall m <- o.sent :: m == KeepaliveReply())
      && o.rearms <= |o.sent|
    decreases |incoming|
  {
    if |incoming| > 0 && incoming[0].Received? {
      var m := incoming[0].msg;
      if m.Type != "start" && !IsNotice(m.Type) && m.Type != "error" {
        ServeOutcomes(fast, incoming[1..]);
      }
    }
  }

  /** The process exits only on an `error` message. */
  lemma {:induction false} ServeExitsOnError(fast: bool, incoming: seq<Incoming>)
    ensures Serve(fast, incoming).ending.Exit? ==>
      exists k :: 0 <= k < |incoming| && incoming[k].Received? && incoming[k].msg.Type == "error"
    decreases |incoming|
  {
    if |incoming| > 0 && incoming[0].Received? && incoming[0].msg.Type != "error" {
      ServeExitsOnError(fast, incoming[1..]);
      if Serve(fast, incoming).ending.Exit? {
        var k :| 0 <= k < |incoming[1..]| && incoming[1..][k].Received? && incoming[1..][k].msg.Type == "error";
        assert incoming[k + 1] == incoming[1..][k];
      }
    }
  }

  /** The message types on which the loop returns 0: `start`, a notice, and a
      keepalive on a fast session. */
  predicate EndsWithZero(fast: bool, kind: string)
  {
    kind == "start" || IsNotice(kind) || (fast && kind == "keepalive")
  }

  /** The loop returns 0 only after receiving a message that ends it with 0. */
  lemma {:induction false} ServeZeroHint(fast: bool, incoming: seq<Incoming>)
    ensures Serve(fast, incoming).ending == Hint(0) ==>
      exists k :: 0 <= k < |incoming| && incoming[k].Received? && EndsWithZero(fast, incoming[k].msg.Type)
    decreases |incoming|
  {
    if |incoming| > 0 && incoming[0].Received? && !EndsWithZero(fast, incoming[0].msg.Type) {
      ServeZeroHint(fast, incoming[1..]);
      if Serve(fast, incoming).ending == Hint(0) {
        var k :| 0 <= k < |incoming[1..]| && incoming[1..][k].Received? && EndsWithZero(fast, incoming[1..][k].msg.Type);
        assert incoming[k + 1] == incoming[1..][k];
      }
    } else if |incoming| > 0 && incoming[0].Received? {
      assert incoming[0].Received? && EndsWithZero(fast, incoming[0].msg.Type);
    }
  }

  /** The retry hint is always 0, 9 or 99, the exit code always 1; 99 comes
      only from the first SetDeadline failing; the connection is left open
      for `local` exactly when the session ends on `start`. */
  lemma RemoteOutcomes(fast: bool, ctx: Startup.Context, env: RemoteEnv)
    ensures var o := RemoteSpec(fast, ctx, env);
      && (o.ending.Hint? ==> o.ending.delay in {0, 9, 99})
      && (o.ending.Exit? ==> o.ending.code == 1)
      && (o.ending == Hint(99) <==> env.dialOk && !env.deadlineOk)
      && (o.rconn == NotDialed <==> !env.dialOk)
      && (o.rconn.HandedOff? ==> o.rconn.start.Type == "start" && o.ending == Hint(0))
      && o.spawnedFast == (if fast && o.rconn.HandedOff? then 1 else 0)
      && (o.ending.Exit? ==> exists k :: 0 <= k < |env.incoming| && env.incoming[k].Received?
                                            && env.incoming[k].msg.Type == "error")
      && (o.sent != [] <==> env.dialOk && env.deadlineOk && (!ctx.tls || env.handshakeOk))
      && (o.sent != [] ==> o.sent[0] == Listen(ctx))
      && (!env.dialOk ==> o.ending == Hint(9))
      && (env.dialOk && env.deadlineOk && ctx.tls && !env.handshakeOk ==> o.ending == Hint(9) && o.rconn == Closed)
      && (env.dialOk && env.deadlineOk && (!ctx.tls || env.handshakeOk) && !env.listenOk ==>
            o.ending == Hint(9) && o.sent == [Listen(ctx)] && o.rconn == Closed)
      && (env.dialOk && env.deadlineOk && (!ctx.tls || env.handshakeOk) && env.listenOk ==>
            o == Continue([Listen(ctx)], 0, Serve(fast, env.incoming)))
      && (o.ending == Hint(0) ==>
            exists k :: (0 <= k < |env.incoming| && env.incoming[k].Received? &&
                         EndsWithZero(fast, env.incoming[k].msg.Type)))
  {
    ServeOutcomes(fast, env.incoming);
    ServeExitsOnError(fast, env.incoming);
    ServeZeroHint(fast, env.incoming);
  }

  /** The dispatch on one received message. */
  lemma ServeDispatch(fast: bool, m: Msg, replyOk: bool, rearmOk: bool, rest: seq<Incoming>)
    ensures var o := Serve(fast, [Received(m, replyOk, rearmOk)] + rest);
      && (m.Type == "start" ==> o == Outcome(Hint(0), [], if fast then 1 else 0, HandedOff(m), 0))
      && (m.Type == "keepalive" && !fast && !replyOk ==> o == Outcome(Hint(9), [KeepaliveReply()], 0, Closed, 0))
      && (m.Type == "keepalive" && !fast && replyOk && !rearmOk ==>
            o == Outcome(Hint(9), [KeepaliveReply()], 0, Closed, 1))
      && (m.Type == "keepalive" && fast ==> o == Outcome(Hint(0), [TimeoutNotice()], 0, Closed, 0))
      && (m.Type == "keepalive" && !fast && replyOk && rearmOk ==>
            o == Continue([KeepaliveReply()], 1, Serve(fast, rest)))
      && (IsNotice(m.Type) ==> o == Outcome(Hint(0), [], 0, Closed, 0))
      && (m.Type == "error" ==> o.ending == Exit(1))
      && (m.Type !in {"start", "keepalive", "debug", "info", "warning", "error"} ==> o == Serve(fast, rest))
  {
    assert ([Received(m, replyOk, rearmOk)] + rest)[1..] == rest;
  }

  /** A failed receive, or running out of messages, ends the loop with the
      short backoff and closes the connection. */
  lemma ReceiveFailureEnds(fast: bool, rest: seq<Incoming>)
    ensures Serve(fast, [ReceiveFailed] + rest) == Outcome(Hint(9), [], 0, Closed, 0)
    ensures Serve(fast, []) == Outcome(Hint(9), [], 0, Closed, 0)
  {
  }

  /** The version label logged after a TLS handshake: Go evaluates
      `v>>8-2` and `v&255-1` in uint16 arithmetic, which wraps below zero. */
  function TlsVersionLabel(v: nat): string
    requires v < 0x1_0000
  {
    "TLSv" + Decimal((v / 256 - 2) % 0x1_0000) + "." + Decimal((v % 256 - 1) % 0x1_0000)
  }

  /** Wire versions 0x0301 to 0x030A are labelled TLSv1.0 to TLSv1.9;
      0x0304 (the minimum the client accepts) is TLSv1.3. */
  lemma TlsVersionLabels(minor: nat)
    requires minor < 10
    ensures TlsVersionLabel(0x0301 + minor) == "TLSv1." + [DigitChar(minor)]
    ensures TlsVersionLabel(0x0304) == "TLSv1.3"
  {
    var v := 0x0301 + minor;
    assert (v / 256 - 2) % 0x1_0000 == 1 && (v % 256 - 1) % 0x1_0000 == minor;
    assert Decimal(1) == [DigitChar(1)] && Decimal(minor) == [DigitChar(minor)];
    assert (0x0304 / 256 - 2) % 0x1_0000 == 1 && (0x0304 % 256 - 1) % 0x1_0000 == 3;
    assert Decimal(3) == [DigitChar(3)];
  }
}
