/** The byte relay of proxy.go. The two copy directions run concurrently in
    the source; here they run one after the other, in the order in which they
    settle, each over a given outcome (bytes copied, clean end or error). The
    effects on the two connections are recorded as events, in order. */
module Relay {

  /** The dynamic type of a connection, which decides how it is shut down. */
  datatype ConnKind = Tcp | Tls | OtherConn

  /** The two connections by the names Transfer's parameters give them. */
  datatype Side = LSide | RSide

  /** LToR copies from `lconn` into `rconn` and is counted in `sent`; RToL
      copies from `rconn` into `lconn` and is counted in `rcvd`. */
  datatype Direction = LToR | RToL

  datatype CopyEnd = Clean | Failed

  /** How one `io.Copy` ended. */
  datatype CopyOutcome = CopyOutcome(n: nat, end: CopyEnd)

  datatype Deadline = Disabled | InOneMinute

  datatype Event =
    | SetDeadline(side: Side, deadline: Deadline)
    | CloseWrite(side: Side)      // TCP FIN or TLS close_notify
    | LingerZero(side: Side)      // the socket is reset when closed
    | Settled(dir: Direction, end: CopyEnd)   // Transfer takes one completion

  /** The order in which the two directions settle and how each ended. */
  datatype RelayRun = RelayRun(first: Direction, firstOutcome: CopyOutcome, secondOutcome: CopyOutcome)

  function Other(dir: Direction): Direction
  {
    if dir == LToR then RToL else LToR
  }

  function Dst(dir: Direction): Side { if dir == LToR then RSide else LSide }
  function Src(dir: Direction): Side { if dir == LToR then LSide else RSide }

  function KindOf(side: Side, lkind: ConnKind, rkind: ConnKind): ConnKind
  {
    if side == LSide then lkind else rkind
  }

  /** What `copy` does to the connections once `io.Copy` returns: a clean end
      half-closes a TCP or TLS destination; an error sets linger 0 on each
      end that is a plain TCP socket. */
  function CopyEffects(dst: Side, src: Side, dstKind: ConnKind, srcKind: ConnKind, end: CopyEnd): (r: seq<Event>)
    requires dst != src
    ensures end == Clean ==> forall e <- r :: e == CloseWrite(dst)
    ensures end == Clean ==> (CloseWrite(dst) in r <==> dstKind.Tcp? || dstKind.Tls?)
    ensures end == Failed ==> forall e <- r :: e.LingerZero?
    ensures end == Failed ==> (LingerZero(dst) in r <==> dstKind == Tcp)
    ensures end == Failed ==> (LingerZero(src) in r <==> srcKind == Tcp)
    ensures |r| <= 2
  {
    if end == Clean then
      if dstKind == Tcp || dstKind == Tls then [CloseWrite(dst)] else []
    else
      (if dstKind == Tcp then [LingerZero(dst)] else []) + (if srcKind == Tcp then [LingerZero(src)] else [])
  }

  function DirectionEffects(dir: Direction, lkind: ConnKind, rkind: ConnKind, end: CopyEnd): seq<Event>
  {
    CopyEffects(Dst(dir), Src(dir), KindOf(Dst(dir), lkind, rkind), KindOf(Src(dir), lkind, rkind), end)
  }

  /** One phase of Transfer: set `deadline` on both connections, then the
      direction `dir` finishes and its completion is taken. */
  function PhaseEvents(dir: Direction, deadline: Deadline, lkind: ConnKind, rkind: ConnKind, end: CopyEnd): seq<Event>
  {
    [SetDeadline(RSide, deadline), SetDeadline(LSide, deadline)]
    + DirectionEffects(dir, lkind, rkind, end)
    + [Settled(dir, end)]
  }

  /** Everything Transfer does to the two connections, in order: deadlines
      disabled before the first direction settles, one-minute deadlines
      before the second. */
  function TransferEvents(lkind: ConnKind, rkind: ConnKind, run: RelayRun): seq<Event>
  {
    PhaseEvents(run.first, Disabled, lkind, rkind, run.firstOutcome.end)
    + PhaseEvents(Other(run.first), InOneMinute, lkind, rkind, run.secondOutcome.end)
  }

  /** The bytes copied in direction `dir` during `run`. */
  function DirectionBytes(run: RelayRun, dir: Direction): nat
  {
    if run.first == dir then run.firstOutcome.n else run.secondOutcome.n
  }

  /** Transfer's shape: deadlines are disabled before any copy settles, each
      direction settles exactly once, and the one-minute deadline is set
      only between the first and the second settlement. */
  lemma TransferPhases(lkind: ConnKind, rkind: ConnKind, run: RelayRun)
    ensures var t := TransferEvents(lkind, rkind, run);
      var k := |DirectionEffects(run.first, lkind, rkind, run.firstOutcome.end)|;
      && |t| >= 6 + k
      && t[0] == SetDeadline(RSide, Disabled) && t[1] == SetDeadline(LSide, Disabled)
      && t[2 + k] == Settled(run.first, run.firstOutcome.end)
      && t[|t| - 1] == Settled(Other(run.first), run.secondOutcome.end)
      && (forall i :: 0 <= i < |t| && t[i].Settled? ==> i == 2 + k || i == |t| - 1)
      && (forall i :: 0 <= i < |t| && t[i].SetDeadline? ==> (t[i].deadline == Disabled <==> i < 2))
      && (forall i :: 0 <= i < |t| && t[i].SetDeadline? && t[i].deadline == InOneMinute ==> 2 + k < i < |t| - 1)
  {
    var t := TransferEvents(lkind, rkind, run);
    var e1 := DirectionEffects(run.first, lkind, rkind, run.firstOutcome.end);
    var e2 := DirectionEffects(Other(run.first), lkind, rkind, run.secondOutcome.end);
    var k := |e1|;
    var mid := [Settled(run.first, run.firstOutcome.end), SetDeadline(RSide, InOneMinute), SetDeadline(LSide, InOneMinute)];
    var head := [SetDeadline(RSide, Disabled), SetDeadline(LSide, Disabled)];
    assert t == head + e1 + mid + e2 + [Settled(Other(run.first), run.secondOutcome.end)];
    forall i | 0 <= i < |t|
      ensures t[i].Settled? ==> i == 2 + k || i == |t| - 1
      ensures t[i].SetDeadline? ==> (t[i].deadline == Disabled <==> i < 2)
      ensures t[i].SetDeadline? && t[i].deadline == InOneMinute ==> 2 + k < i < |t| - 1
    {
      if 2 <= i < 2 + k {
        assert t[i] == e1[i - 2] && e1[i - 2] in e1;
      } else if 5 + k <= i < |t| - 1 {
        assert t[i] == e2[i - 5 - k] && e2[i - 5 - k] in e2;
      }
    }
  }

  /** A relay: the two byte counters and the completion channel shared by the
      two copy directions, plus the record of what was done to the connections. */
  class Proxy {
    var sent: nat
    var rcvd: nat
    var pending: seq<CopyEnd>   // completions posted but not yet taken
    var events: seq<Event>

    /** GetProxy */
    constructor ()
      ensures sent == 0 && rcvd == 0 && pending == [] && events == []
    {
      sent, rcvd, pending, events := 0, 0, [], [];
    }

    /** One copy direction after `io.Copy` returned `outcome`: count the bytes,
        close or reset as the outcome demands, and post one completion. */
    method Copy(dir: Direction, lkind: ConnKind, rkind: ConnKind, outcome: CopyOutcome)
      modifies this
      ensures dir == LToR ==> sent == old(sent) + outcome.n && rcvd == old(rcvd)
      ensures dir == RToL ==> rcvd == old(rcvd) + outcome.n && sent == old(sent)
      ensures events == old(events) + DirectionEffects(dir, lkind, rkind, outcome.end)
      ensures pending == old(pending) + [outcome.end]
    {
      if dir == LToR {
        sent := sent + outcome.n;
      } else {
        rcvd := rcvd + outcome.n;
      }
      var dst, src := Dst(dir), Src(dir);
      var dstKind, srcKind := KindOf(dst, lkind, rkind), KindOf(src, lkind, rkind);
      if outcome.end == Clean {
        if dstKind == Tcp || dstKind == Tls {
          events := events + [CloseWrite(dst)];
        }
      } else {
        if dstKind == Tcp {
          events := events + [LingerZero(dst)];
        }
        if srcKind == Tcp {
          events := events + [LingerZero(src)];
        }
      }
      pending := pending + [outcome.end];
    }

    /** Takes the oldest posted completion. */
    method Await(dir: Direction)
      requires pending != []
      modifies this
      ensures pending == old(pending)[1..]
      ensures events == old(events) + [Settled(dir, old(pending)[0])]
      ensures sent == old(sent) && rcvd == old(rcvd)
    {
      events := events + [Settled(dir, pending[0])];
      pending := pending[1..];
    }

    /** Sets `deadline` on both connections, lets direction `dir` run to
        `outcome`, and takes its completion. */
    method Settle(dir: Direction, deadline: Deadline, lkind: ConnKind, rkind: ConnKind, outcome: CopyOutcome)
      requires pending == []
      modifies this
      ensures dir == LToR ==> sent == old(sent) + outcome.n && rcvd == old(rcvd)
      ensures dir == RToL ==> rcvd == old(rcvd) + outcome.n && sent == old(sent)
      ensures pending == []
      ensures events == old(events) + PhaseEvents(dir, deadline, lkind, rkind, outcome.end)
    {
      var arm := [SetDeadline(RSide, deadline), SetDeadline(LSide, deadline)];
      ghost var effects := DirectionEffects(dir, lkind, rkind, outcome.end);
      events := events + arm;
      Copy(dir, lkind, rkind, outcome);
      assert events == old(events) + arm + effects;
      Await(dir);
      assert events == (old(events) + arm + effects) + [Settled(dir, outcome.end)];
    }

    /** Transfer: disable both deadlines, let the first direction finish,
        arm one-minute deadlines, let the second finish, and report the bytes
        of both. Failures of SetDeadline are only logged by the source. */
    method Transfer(lkind: ConnKind, rkind: ConnKind, run: RelayRun) returns (total: nat)
      requires pending == []
      modifies this
      ensures sent == old(sent) + DirectionBytes(run, LToR) && rcvd == old(rcvd) + DirectionBytes(run, RToL)
      ensures total == sent + rcvd
      ensures pending == []
      ensures events == old(events) + TransferEvents(lkind, rkind, run)
    {
      Settle(run.first, Disabled, lkind, rkind, run.firstOutcome);
      Settle(Other(run.first), InOneMinute, lkind, rkind, run.secondOutcome);
      total := sent + rcvd;
    }
  }
}
