/** Start-up of main.go: turning the command-line flags into the shared
    session context, and the source of connection IDs. Flag parsing, base64
    decoding and port-name lookup are library calls whose results are given. */
module Startup {
  import opened Common
  import Logging

  /** The index of the last ':' in `s`, or -1 when there is none. */
  function LastColon(s: string): (k: int)
    ensures -1 <= k < |s|
    ensures k >= 0 ==> s[k] == ':'
  {
    if |s| == 0 then -1
    else if s[|s| - 1] == ':' then |s| - 1
    else LastColon(s[..|s| - 1])
  }

  /** No ':' follows the one LastColon finds. */
  lemma {:induction false} LastColonIsLast(s: string)
    ensures forall j :: LastColon(s) < j < |s| ==> s[j] != ':'
  {
    if |s| > 0 && s[|s| - 1] != ':' {
      var p := s[..|s| - 1];
      LastColonIsLast(p);
      assert forall j :: LastColon(p) < j < |p| ==> s[j] == p[j];
    }
  }

  /** `strings.Split(s, ":")`, always at least one piece: the split of the
      text before the last ':' followed by the text after it. */
  function Split(s: string): (parts: seq<string>)
    ensures |parts| >= 1
    decreases |s|
  {
    var k := LastColon(s);
    if k < 0 then [s] else Split(s[..k]) + [s[k + 1..]]
  }

  /** `strings.Join(parts, ":")` */
  function Join(parts: seq<string>): string
  {
    if |parts| == 0 then ""
    else if |parts| == 1 then parts[0]
    else Join(parts[..|parts| - 1]) + ":" + parts[|parts| - 1]
  }

  /** Joining one more piece puts a ':' before it. */
  lemma JoinSnoc(parts: seq<string>, last: string)
    requires |parts| >= 1
    ensures Join(parts + [last]) == Join(parts) + ":" + last
  {
    assert (parts + [last])[..|parts|] == parts;
  }

  /** Splitting on ':' and joining again gives back the string. */
  lemma {:induction false} JoinSplit(s: string)
    ensures Join(Split(s)) == s
    decreases |s|
  {
    var k := LastColon(s);
    if k >= 0 {
      JoinSplit(s[..k]);
      JoinSnoc(Split(s[..k]), s[k + 1..]);
      assert s[..k] + ":" + s[k + 1..] == s;
    }
  }

  /** No piece of the split holds a ':'. With JoinSplit this pins the split
      down: it is the only colon-free sequence of pieces joining to `s`. */
  lemma {:induction false} SplitPiecesColonFree(s: string)
    ensures forall piece :: piece in Split(s) ==> ':' !in piece
    decreases |s|
  {
    var k := LastColon(s);
    LastColonIsLast(s);
    if k >= 0 {
      SplitPiecesColonFree(s[..k]);
      var tail := s[k + 1..];
      assert forall j :: 0 <= j < |tail| ==> tail[j] == s[k + 1 + j];
    }
  }

  /** The last piece of the split is the text after the last ':'. */
  lemma SplitLastPiece(s: string)
    ensures var parts := Split(s); parts[|parts| - 1] == s[LastColon(s) + 1..]
  {
    assert s[0..] == s;
  }

  /** The pieces before the last, joined again, are the text before the last
      ':' (nothing when there is no ':'). */
  lemma SplitInitPieces(s: string)
    ensures var parts := Split(s);
      && (|parts| >= 2 <==> LastColon(s) >= 0)
      && Join(parts[..|parts| - 1]) == (if LastColon(s) >= 0 then s[..LastColon(s)] else "")
  {
    var k := LastColon(s);
    if k >= 0 {
      var init := Split(s[..k]);
      assert (init + [s[k + 1..]])[..|init|] == init;
      JoinSplit(s[..k]);
    }
  }

  /** The dial address GetContext derives from `-r`: the pieces before the
      last one, joined, with ":1" appended; that is, the text before the
      last ':' (nothing when there is none) followed by ":1". */
  function DialAddress(raddr: string): (a: string)
    ensures var k := LastColon(raddr); a == (if k >= 0 then raddr[..k] else "") + ":1"
  {
    var t := Split(raddr);
    SplitInitPieces(raddr);
    Join(t[..|t| - 1]) + ":1"
  }

  /** The port text GetContext looks up: the last piece, which is the text
      after the last ':' (all of `raddr` when there is none). */
  function PortText(raddr: string): (p: string)
    ensures p == raddr[LastColon(raddr) + 1..]
  {
    var t := Split(raddr);
    SplitLastPiece(raddr);
    t[|t| - 1]
  }

  /** The command line as `flag.Parse` leaves it: None for a flag not given. */
  datatype Flags = Flags(r: Option<string>, l: Option<string>, k: Option<string>, d: Option<string>, t: bool)

  datatype Context = Context(raddr: string, laddr: string, port: int, key: seq<byte>,
                             level: Logging.Level, tls: bool)

  datatype Start = Exit(code: int) | Ready(ctx: Context)

  function Value(flag: Option<string>, default: string): string
  {
    if flag.Some? then flag.value else default
  }

  /** The log level chosen by `-d` (default "INFO"); an unknown word selects DEBUG. */
  function ChosenLevel(flags: Flags): (level: Logging.Level)
    ensures Logging.ERROR <= level <= Logging.DEBUG
    ensures flags.d.None? ==> level == Logging.INFO
    ensures forall named :: (Logging.ERROR <= named <= Logging.DEBUG &&
                             Logging.SpellsIgnoringCase(Value(flags.d, "INFO"), Logging.Keyword(named)))
                            ==> level == named
    ensures (forall named :: Logging.ERROR <= named <= Logging.DEBUG ==>
      !Logging.SpellsIgnoringCase(Value(flags.d, "INFO"), Logging.Keyword(named))) ==> level == Logging.DEBUG
  {
    var word := Value(flags.d, "INFO");
    var parsed := Logging.ParseLevel(word);
    assert forall named :: Logging.ERROR <= named <= Logging.DEBUG ==>
      (parsed == (named, true) <==> Logging.SpellsIgnoringCase(word, Logging.Keyword(named))) by {
      forall named | Logging.ERROR <= named <= Logging.DEBUG {
        Logging.ParseLevelAcceptsKeywords(word, named);
      }
    }
    if parsed.1 then parsed.0 else Logging.DEBUG
  }

  /** GetContext. `lookupPort` stands for `net.LookupPort("tcp", _)` and
      `decodeKey` for unpadded standard base64 decoding. */
  function GetContext(flags: Flags, lookupPort: string -> Option<int>, decodeKey: string -> Option<seq<byte>>): (r: Start)
    ensures r.Exit? ==> r.code in {1, 2}
    ensures r.Exit? && r.code == 2 <==> flags.r.None? || flags.k.None?
    ensures r.Ready? ==> |r.ctx.key| == 6
    ensures r.Ready? ==> Some(r.ctx.key) == decodeKey(flags.k.value)
    ensures r.Ready? ==> Some(r.ctx.port) == lookupPort(PortText(flags.r.value))
    ensures r.Ready? ==> r.ctx.raddr == DialAddress(flags.r.value) && r.ctx.tls == !flags.t
    ensures r.Ready? ==> r.ctx.laddr == Value(flags.l, ":80")
    ensures r.Ready? ==> r.ctx.level == ChosenLevel(flags)
    ensures r.Ready? && flags.d.None? ==> r.ctx.level == Logging.INFO
    ensures r.Ready? && !Logging.ParseLevel(Value(flags.d, "INFO")).1 ==> r.ctx.level == Logging.DEBUG
    ensures flags.r.Some? && flags.k.Some? ==>
      (r.Ready? <==> lookupPort(PortText(flags.r.value)).Some? && decodeKey(flags.k.value).Some?
                     && |decodeKey(flags.k.value).value| == 6)
  {
    var level := ChosenLevel(flags);
    if flags.r.None? || flags.k.None? then Exit(2)
    else
      var raddr := DialAddress(flags.r.value);
      match lookupPort(PortText(flags.r.value))
      case None => Exit(1)
      case Some(port) =>
        match decodeKey(flags.k.value)
        case None => Exit(1)
        case Some(key) =>
          if |key| != 6 then Exit(1)
          else Ready(Context(raddr, Value(flags.l, ":80"), port, key, level, !flags.t))
  }

  /** The goroutine behind `connID`: hands out 0, 1, 2, ... in order, the
      `uint64` counter wrapping after 2^64 - 1. */
  class ConnIds {
    var id: nat
    ghost var handed: nat

    ghost predicate Valid()
      reads this
    {
      id == handed % U64
    }

    constructor ()
      ensures Valid() && handed == 0
    {
      id := 0;
      handed := 0;
    }

    method Next() returns (v: nat)
      requires Valid()
      modifies this
      ensures Valid()
      ensures handed == old(handed) + 1
      ensures v == old(handed) % U64
      ensures old(handed) < U64 ==> v == old(handed)
    {
      v := id;
      id := (id + 1) % U64;
      handed := handed + 1;
    }
  }
}
