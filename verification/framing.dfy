/** The frames of the U2FHID transport: a message as a sequence of 64-byte packets, and the reader
    that puts it together again (FIDO U2F HID Protocol Specification, "Message and packet structure"). */
module Framing {
  import opened Words

  const CMD_LOCK: byte := 0x84
  const CMD_INIT: byte := 0x86
  const CMD_SYNC: byte := 0xbc
  const CMD_ERROR: byte := 0xbf

  const OK: int := 0
  const INVALID_SEQ: int := 4
  const TIMEOUT: int := 5
  const BUSY: int := 6
  const GONE: int := 8

  const INIT_DATA: nat := 57
  const CONT_DATA: nat := 59

  /** 57 + 128 * 59: the payload of an initialization packet and of all 128 continuation packets. */
  const MAX_PAYLOAD: nat := 7609

  /** What a driver hands to its clients: a 64-byte report, or a shorter packet it made itself. */
  type Packet = p: seq<byte> | |p| >= 8 witness [0, 0, 0, 0, 0, 0, 0, 0]

  function Min(a: nat, b: nat): nat { if a < b then a else b }

  // ----- channel ids

  function CidBytes(cid: int32): (r: seq<byte>)
    ensures |r| == 4
  {
    var u := ToUint32(cid);
    [u / 0x100_0000, u / 0x1_0000 % 256, u / 0x100 % 256, u % 256]
  }

  function CidOf(p: Packet): int32 {
    ToInt32(0x100_0000 * (p[0] as int) + 0x1_0000 * (p[1] as int) + 0x100 * (p[2] as int) + p[3])
  }

  lemma CidRoundTrip(cid: int32, p: Packet)
    requires p[..4] == CidBytes(cid)
    ensures CidOf(p) == cid
  {
    var u := ToUint32(cid);
    assert p[0] == p[..4][0] && p[1] == p[..4][1] && p[2] == p[..4][2] && p[3] == p[..4][3];
    BytesOfWord(u);
    assert ToInt32(u) == cid;
  }

  lemma BytesOfWord(u: word)
    ensures u == 0x100_0000 * (u / 0x100_0000) + 0x1_0000 * (u / 0x1_0000 % 256) + 0x100 * (u / 0x100 % 256) + u % 256
  {
    assert u / 0x1_0000 / 256 == u / 0x100_0000;
    assert u / 0x100 / 256 == u / 0x1_0000;
  }

  // ----- messages

  function Padded(d: seq<byte>, n: nat, pad: byte): (r: seq<byte>)
    requires |d| <= n
    ensures |r| == n && r[..|d|] == d
  {
    d + seq(n - |d|, _ => pad)
  }

  function Head(data: seq<byte>, n: nat): seq<byte> { data[..Min(n, |data|)] }
  function Rest(data: seq<byte>, n: nat): seq<byte> { data[Min(n, |data|)..] }

  function InitPacket(cid: int32, cmd: byte, data: seq<byte>, pad: byte): (p: Packet)
    ensures |p| == 64
  {
    CidBytes(cid) + [cmd, |data| / 256 % 256, |data| % 256] + Padded(Head(data, INIT_DATA), INIT_DATA, pad)
  }

  function ContPacket(cid: int32, k: nat, data: seq<byte>, pad: byte): (p: Packet)
    ensures |p| == 64
  {
    CidBytes(cid) + [k % 256] + Padded(Head(data, CONT_DATA), CONT_DATA, pad)
  }

  /** The continuation packets of `data`, the first of them numbered `k`. */
  function ContPackets(cid: int32, k: nat, data: seq<byte>, pad: byte): seq<Packet>
    decreases |data|
  {
    if data == [] then []
    else [ContPacket(cid, k, data, pad)] + ContPackets(cid, k + 1, Rest(data, CONT_DATA), pad)
  }

  function Message(cid: int32, cmd: byte, data: seq<byte>, pad: byte): seq<Packet> {
    [InitPacket(cid, cmd, data, pad)] + ContPackets(cid, 0, Rest(data, INIT_DATA), pad)
  }

  // ----- the reader

  datatype Option<+T> = None | Some(value: T)

  datatype Reply = Reply(rc: int, data: Option<seq<byte>>)

  datatype Phase =
    | Init
    | Cont(total: nat, got: seq<byte>, seqno: nat)
    | Done(reply: Reply)

  function Length(p: Packet): nat { 256 * (p[5] as int) + p[6] }

  predicate IsError(p: Packet) { p[4] == CMD_ERROR && Length(p) == 1 }

  predicate IsInit(p: Packet) { p[4] >= 0x80 }

  function Absorb(total: nat, got: seq<byte>, payload: seq<byte>, seqno: nat): Phase
    requires |got| <= total
  {
    var all := got + Head(payload, total - |got|);
    if |all| == total then Done(Reply(OK, Some(all))) else Cont(total, all, seqno)
  }

  /** A message under way always wants more bytes. */
  ghost predicate Running(ph: Phase) {
    ph.Cont? ==> |ph.got| < ph.total
  }

  function Feed(ph: Phase, cmd: byte, p: Packet): (r: Phase)
    requires Running(ph)
    ensures Running(r)
  {
    match ph
    case Init =>
      if IsError(p) then Done(Reply(-(p[7] as int), None))
      else if !IsInit(p) || p[4] != cmd then Init
      else Absorb(Length(p), [], p[7..], 0)
    case Cont(total, got, seqno) =>
      if IsError(p) then Done(Reply(-(p[7] as int), None))
      else if IsInit(p) then ph
      else if p[4] != seqno then Done(Reply(-INVALID_SEQ, None))
      else Absorb(total, got, p[5..], seqno + 1)
    case Done(_) => ph
  }

  function FeedAll(ph: Phase, cmd: byte, ps: seq<Packet>): (r: Phase)
    requires Running(ph)
    ensures Running(r)
  {
    if ps == [] then ph else Feed(FeedAll(ph, cmd, ps[..|ps| - 1]), cmd, ps[|ps| - 1])
  }

  lemma {:induction false} FeedConcat(ph: Phase, cmd: byte, ps: seq<Packet>, qs: seq<Packet>)
    requires Running(ph)
    ensures FeedAll(ph, cmd, ps + qs) == FeedAll(FeedAll(ph, cmd, ps), cmd, qs)
  {
    hide Feed;
    if qs == [] {
      assert ps + qs == ps;
    } else {
      var n := |qs| - 1;
      assert (ps + qs)[..|ps + qs| - 1] == ps + qs[..n];
      FeedConcat(ph, cmd, ps, qs[..n]);
    }
  }

  lemma {:induction false} DoneStays(r: Reply, cmd: byte, ps: seq<Packet>)
    ensures FeedAll(Done(r), cmd, ps) == Done(r)
  {
    if ps != [] {
      DoneStays(r, cmd, ps[..|ps| - 1]);
    }
  }

  // ----- round trip

  lemma {:induction false} FeedContPackets(cid: int32, k: nat, cmd: byte, total: nat, got: seq<byte>, rest: seq<byte>, pad: byte)
    requires |got| + |rest| == total && rest != []
    requires |rest| <= CONT_DATA * (128 - k)
    ensures FeedAll(Cont(total, got, k), cmd, ContPackets(cid, k, rest, pad)) == Done(Reply(OK, Some(got + rest)))
    decreases |rest|
  {
    hide Feed, ContPacket;
    var p, tail := ContPacket(cid, k, rest, pad), Rest(rest, CONT_DATA);
    FeedConcat(Cont(total, got, k), cmd, [p], ContPackets(cid, k + 1, tail, pad));
    FeedOneCont(cid, k, cmd, total, got, rest, pad);
    if tail == [] {
      assert got + rest == got + Head(rest, CONT_DATA);
    } else {
      FeedContPackets(cid, k + 1, cmd, total, got + Head(rest, CONT_DATA), tail, pad);
      assert got + Head(rest, CONT_DATA) + tail == got + rest;
    }
  }

  lemma FeedOne(ph: Phase, cmd: byte, p: Packet)
    requires Running(ph)
    ensures FeedAll(ph, cmd, [p]) == Feed(ph, cmd, p)
  {
    hide Feed;
    assert [p][..0] == [];
    assert FeedAll(ph, cmd, []) == ph;
  }

  lemma FeedOneCont(cid: int32, k: nat, cmd: byte, total: nat, got: seq<byte>, rest: seq<byte>, pad: byte)
    requires |got| + |rest| == total && rest != [] && k < 128
    ensures FeedAll(Cont(total, got, k), cmd, [ContPacket(cid, k, rest, pad)])
         == if |rest| <= CONT_DATA then Done(Reply(OK, Some(got + Head(rest, CONT_DATA))))
            else Cont(total, got + Head(rest, CONT_DATA), k + 1)
  {
    hide CidBytes;
    var p := ContPacket(cid, k, rest, pad);
    FeedOne(Cont(total, got, k), cmd, p);
    assert p[5..] == Padded(Head(rest, CONT_DATA), CONT_DATA, pad);
    assert Head(p[5..], |rest|) == Head(rest, CONT_DATA);
  }

  lemma FeedInit(cid: int32, cmd: byte, data: seq<byte>, pad: byte)
    requires cmd >= 0x80 && |data| <= MAX_PAYLOAD && !(cmd == CMD_ERROR && |data| == 1)
    ensures FeedAll(Init, cmd, [InitPacket(cid, cmd, data, pad)])
         == if |data| <= INIT_DATA then Done(Reply(OK, Some(data))) else Cont(|data|, Head(data, INIT_DATA), 0)
  {
    hide CidBytes;
    var p := InitPacket(cid, cmd, data, pad);
    FeedOne(Init, cmd, p);
    assert p[7..] == Padded(Head(data, INIT_DATA), INIT_DATA, pad);
    assert Head(p[7..], |data|) == Head(data, INIT_DATA);
    assert [] + Head(p[7..], |data|) == Head(data, INIT_DATA);
    assert p[4] == cmd && Length(p) == |data|;
    assert |data| <= INIT_DATA ==> Head(data, INIT_DATA) == data;
  }

  lemma MessageReadBack(cid: int32, cmd: byte, data: seq<byte>, pad: byte)
    requires cmd >= 0x80 && |data| <= MAX_PAYLOAD && !(cmd == CMD_ERROR && |data| == 1)
    ensures FeedAll(Init, cmd, Message(cid, cmd, data, pad)) == Done(Reply(OK, Some(data)))
  {
    hide Feed, InitPacket, ContPacket;
    var tail := Rest(data, INIT_DATA);
    FeedConcat(Init, cmd, [InitPacket(cid, cmd, data, pad)], ContPackets(cid, 0, tail, pad));
    FeedInit(cid, cmd, data, pad);
    if tail != [] {
      FeedContPackets(cid, 0, cmd, |data|, Head(data, INIT_DATA), tail, pad);
      assert Head(data, INIT_DATA) + tail == data;
    }
  }

  // ----- what any stream of packets can make the reader report

  /** The reader has used at most one initialization packet and `seqno <= 128` continuation packets. */
  ghost predicate WithinLimit(ph: Phase, cmd: byte) {
    match ph
    case Init => true
    case Cont(_, got, seqno) => cmd >= 0x80 && seqno <= 128 && |got| <= INIT_DATA + CONT_DATA * seqno
    case Done(r) => r.data.Some? ==> cmd >= 0x80 && |r.data.value| <= MAX_PAYLOAD
  }

  lemma {:induction false} NoLongMessages(cmd: byte, ps: seq<Packet>)
    requires forall p :: p in ps ==> |p| <= 64
    ensures WithinLimit(FeedAll(Init, cmd, ps), cmd)
  {
    if ps != [] {
      var n := |ps| - 1;
      NoLongMessages(cmd, ps[..n]);
      assert ps[n] in ps;
    }
  }

  lemma {:induction false} ContPacketSizes(cid: int32, k: nat, data: seq<byte>, pad: byte)
    ensures forall p :: p in ContPackets(cid, k, data, pad) ==> |p| == 64 && p[..4] == CidBytes(cid)
    decreases |data|
  {
    hide CidBytes;
    if data != [] {
      ContPacketSizes(cid, k + 1, Rest(data, CONT_DATA), pad);
    }
  }

  /** An error message of one byte ends a read of any command with an error. */
  lemma ErrorMessage(cid: int32, cmd: byte, data: seq<byte>, pad: byte)
    requires |data| == 1
    ensures FeedAll(Init, cmd, Message(cid, CMD_ERROR, data, pad)) == Done(Reply(-(data[0] as int), None))
  {
    hide CidBytes;
    var p := InitPacket(cid, CMD_ERROR, data, pad);
    assert Message(cid, CMD_ERROR, data, pad) == [p];
    FeedOne(Init, cmd, p);
    assert p[7..][..1] == data;
  }

  /** A message comes back whole exactly when its command has bit 7 set, its payload fits into 129
      packets, and it does not look like a one-byte error report. */
  lemma RoundTrip(cid: int32, cmd: byte, data: seq<byte>, pad: byte)
    ensures FeedAll(Init, cmd, Message(cid, cmd, data, pad)) == Done(Reply(OK, Some(data)))
       <==> cmd >= 0x80 && |data| <= MAX_PAYLOAD && !(cmd == CMD_ERROR && |data| == 1)
  {
    hide Feed, InitPacket, ContPacket, Message;
    if cmd == CMD_ERROR && |data| == 1 {
      ErrorMessage(cid, cmd, data, pad);
    } else if cmd >= 0x80 && |data| <= MAX_PAYLOAD {
      MessageReadBack(cid, cmd, data, pad);
    } else {
      MessageSizes(cid, cmd, data, pad);
      NoLongMessages(cmd, Message(cid, cmd, data, pad));
    }
  }

  lemma MessageSizes(cid: int32, cmd: byte, data: seq<byte>, pad: byte)
    ensures forall p :: p in Message(cid, cmd, data, pad) ==> |p| == 64 && p[..4] == CidBytes(cid)
  {
    hide CidBytes, ContPacket;
    ContPacketSizes(cid, 0, Rest(data, INIT_DATA), pad);
  }

  // ----- interleaved channels

  /** Whether a client of channel `cid` takes the packet; channel 0 addresses every client. */
  predicate ForChannel(cid: int32, p: Packet) {
    CidOf(p) == cid || CidOf(p) == 0
  }

  function Filter(cid: int32, ps: seq<Packet>): (r: seq<Packet>)
  {
    if ps == [] then []
    else Filter(cid, ps[..|ps| - 1]) + if ForChannel(cid, ps[|ps| - 1]) then [ps[|ps| - 1]] else []
  }

  /** `ps` is some interleaving of `xs` and `ys`. */
  ghost predicate Interleaves(ps: seq<Packet>, xs: seq<Packet>, ys: seq<Packet>) {
    if ps == [] then xs == [] && ys == []
    else
      var n := |ps| - 1;
      || (xs != [] && ps[n] == xs[|xs| - 1] && Interleaves(ps[..n], xs[..|xs| - 1], ys))
      || (ys != [] && ps[n] == ys[|ys| - 1] && Interleaves(ps[..n], xs, ys[..|ys| - 1]))
  }

  lemma {:induction false} OtherChannelsVanish(cid: int32, ps: seq<Packet>, xs: seq<Packet>, ys: seq<Packet>)
    requires Interleaves(ps, xs, ys)
    requires forall p :: p in xs ==> ForChannel(cid, p)
    requires forall p :: p in ys ==> !ForChannel(cid, p)
    ensures Filter(cid, ps) == xs
  {
    hide ForChannel, CidOf;
    if ps != [] {
      var n := |ps| - 1;
      if xs != [] && ps[n] == xs[|xs| - 1] && Interleaves(ps[..n], xs[..|xs| - 1], ys) {
        assert ps[n] in xs;
        OtherChannelsVanish(cid, ps[..n], xs[..|xs| - 1], ys);
        assert xs == xs[..|xs| - 1] + [ps[n]];
      } else {
        assert ps[n] in ys;
        OtherChannelsVanish(cid, ps[..n], xs, ys[..|ys| - 1]);
      }
    }
  }

  /** The frames of one message, interleaved with frames for other nonzero channels, reach the client alone. */
  lemma MessageReachesClient(cid: int32, cmd: byte, data: seq<byte>, pad: byte, others: seq<Packet>, ps: seq<Packet>)
    requires Interleaves(ps, Message(cid, cmd, data, pad), others)
    requires forall p :: p in others ==> !ForChannel(cid, p)
    ensures Filter(cid, ps) == Message(cid, cmd, data, pad)
  {
    hide Message, CidOf;
    MessageSizes(cid, cmd, data, pad);
    forall p | p in Message(cid, cmd, data, pad)
      ensures ForChannel(cid, p)
    {
      CidRoundTrip(cid, p);
    }
    OtherChannelsVanish(cid, ps, Message(cid, cmd, data, pad), others);
  }

  // ----- soundness of reassembly

  /** `picks` are the positions of an initialization packet for `cmd` and of continuation packets numbered
      0, 1, 2, ... after it, such that the reader had no reason to stop earlier and dropped no continuation. */
  ghost predicate Picked(ps: seq<Packet>, cmd: byte, picks: seq<nat>) {
    && picks != []
    && (forall i :: 0 <= i < |picks| ==> picks[i] < |ps|)
    && (forall i, j :: 0 <= i < j < |picks| ==> picks[i] < picks[j])
    && IsInit(ps[picks[0]]) && ps[picks[0]][4] == cmd
    && (forall j :: 1 <= j < |picks| ==> ps[picks[j]][4] == j - 1)
    && (forall i :: 0 <= i < picks[0] ==> !(IsInit(ps[i]) && ps[i][4] == cmd))
    && (forall i :: picks[0] < i <= picks[|picks| - 1] && i !in picks ==> IsInit(ps[i]))
    && (forall i :: 0 <= i <= picks[|picks| - 1] ==> !IsError(ps[i]))
  }

  /** The payload bytes of the picked packets. */
  function Payload(ps: seq<Packet>, picks: seq<nat>): seq<byte>
    requires picks != [] && forall i :: 0 <= i < |picks| ==> picks[i] < |ps|
  {
    if |picks| == 1 then ps[picks[0]][7..]
    else Payload(ps, picks[..|picks| - 1]) + ps[picks[|picks| - 1]][5..]
  }

  lemma {:induction false} PayloadOfPrefix(ps: seq<Packet>, n: nat, picks: seq<nat>)
    requires n <= |ps| && picks != [] && forall i :: 0 <= i < |picks| ==> picks[i] < n
    ensures Payload(ps, picks) == Payload(ps[..n], picks)
  {
    if |picks| > 1 {
      PayloadOfPrefix(ps, n, picks[..|picks| - 1]);
    }
  }

  /** The message `m` is the payload of the picked packets, cut to the length the first one announces; all
      but the last of them were too short for it. */
  ghost predicate Reassembles(ps: seq<Packet>, cmd: byte, picks: seq<nat>, m: seq<byte>) {
    && Picked(ps, cmd, picks)
    && |m| == Length(ps[picks[0]])
    && m <= Payload(ps, picks)
    && (|picks| > 1 ==> |Payload(ps, picks[..|picks| - 1])| < |m|)
  }

  /** What is known of a read that is not over after `ps`. */
  ghost predicate Pending(ps: seq<Packet>, cmd: byte, picks: seq<nat>, ph: Phase) {
    && (forall i :: 0 <= i < |ps| ==> !IsError(ps[i]))
    && match ph
       case Init => forall i :: 0 <= i < |ps| ==> !(IsInit(ps[i]) && ps[i][4] == cmd)
       case Cont(total, got, seqno) =>
         && Picked(ps, cmd, picks)
         && (forall i :: picks[0] < i < |ps| && i !in picks ==> IsInit(ps[i]))
         && |picks| == seqno + 1 && total == Length(ps[picks[0]]) && got == Payload(ps, picks)
       case Done(_) => false
  }

  /** Whatever arrives, a message the reader reports is a reassembly of received packets. */
  lemma {:induction false} Trace(cmd: byte, ps: seq<Packet>) returns (picks: seq<nat>)
    ensures var ph := FeedAll(Init, cmd, ps);
            if ph.Done? then ph.reply.data.Some? ==>
                             ph.reply.rc == OK && exists qs :: Reassembles(ps, cmd, qs, ph.reply.data.value)
            else Pending(ps, cmd, picks, ph)
  {
    picks := [];
    if ps != [] {
      var n := |ps| - 1;
      var rs := Trace(cmd, ps[..n]);
      var ph := FeedAll(Init, cmd, ps[..n]);
      if ph.Done? {
        if ph.reply.data.Some? {
          var qs :| Reassembles(ps[..n], cmd, qs, ph.reply.data.value);
          ReassemblesLonger(ps, n, cmd, qs, ph.reply.data.value);
        }
      } else {
        picks := TraceStep(cmd, ps, rs, ph);
      }
    }
  }

  /** A read that fails says why: an error packet, whose code it is, or a continuation packet out of sequence. */
  lemma {:induction false} FailureTrace(cmd: byte, ps: seq<Packet>)
    ensures var ph := FeedAll(Init, cmd, ps);
            ph.Done? && ph.reply.data.None? ==>
                || (exists i :: 0 <= i < |ps| && IsError(ps[i]) && ph.reply.rc == -(ps[i][7] as int))
                || (ph.reply.rc == -INVALID_SEQ && exists i :: 0 <= i < |ps| && !IsInit(ps[i]))
  {
    hide IsError, IsInit;
    if ps != [] {
      var n := |ps| - 1;
      FailureTrace(cmd, ps[..n]);
      var ph := FeedAll(Init, cmd, ps[..n]);
      if ph.Done? && ph.reply.data.None? {
        assert forall i :: 0 <= i < n ==> ps[..n][i] == ps[i];
      }
    }
  }

  /** The first fault ends a read under way, and nothing else does but the message's end. */
  lemma FaultsEnd(ph: Phase, cmd: byte, p: Packet)
    requires Running(ph) && !ph.Done?
    ensures var r := Feed(ph, cmd, p);
            && (IsError(p) ==> r == Done(Reply(-(p[7] as int), None)))
            && (!IsError(p) && ph.Cont? && !IsInit(p) && p[4] != ph.seqno ==> r == Done(Reply(-INVALID_SEQ, None)))
            && (!IsError(p) && (if ph.Init? then !IsInit(p) || p[4] != cmd else IsInit(p)) ==> r == ph)
  {
  }

  lemma ReassemblesLonger(ps: seq<Packet>, n: nat, cmd: byte, qs: seq<nat>, m: seq<byte>)
    requires n <= |ps| && Reassembles(ps[..n], cmd, qs, m)
    ensures Reassembles(ps, cmd, qs, m)
  {
    hide Payload, IsError, IsInit, Length;
    PayloadOfPrefix(ps, n, qs);
    if |qs| > 1 {
      PayloadOfPrefix(ps, n, qs[..|qs| - 1]);
    }
  }

  /** One more packet extends the picked positions, or ends the read. */
  lemma TraceStep(cmd: byte, ps: seq<Packet>, rs: seq<nat>, ph: Phase) returns (picks: seq<nat>)
    requires ps != [] && Running(ph) && Pending(ps[..|ps| - 1], cmd, rs, ph)
    ensures var r := Feed(ph, cmd, ps[|ps| - 1]);
            if r.Done? then r.reply.data.Some? ==>
                            r.reply.rc == OK && exists qs :: Reassembles(ps, cmd, qs, r.reply.data.value)
            else Pending(ps, cmd, picks, r)
  {
    hide IsError, IsInit, Length, Payload, Picked, Absorb;
    var p := ps[|ps| - 1];
    picks := rs;
    if IsError(p) {
    } else if ph.Init? && IsInit(p) && p[4] == cmd {
      picks := [|ps| - 1];
      FirstPick(cmd, ps);
    } else if ph.Cont? && !IsInit(p) && p[4] == ph.seqno {
      picks := rs + [|ps| - 1];
      NextPick(cmd, ps, rs, ph);
    } else if ph.Init? || IsInit(p) {
      Skipped(cmd, ps, rs, ph);
    }
  }

  lemma Skipped(cmd: byte, ps: seq<Packet>, rs: seq<nat>, ph: Phase)
    requires ps != [] && Running(ph) && Pending(ps[..|ps| - 1], cmd, rs, ph)
    requires var p := ps[|ps| - 1];
             !IsError(p) && if ph.Init? then !(IsInit(p) && p[4] == cmd) else IsInit(p)
    ensures Pending(ps, cmd, rs, ph)
  {
    hide IsError, IsInit, Length, Payload;
    var n := |ps| - 1;
    assert forall i :: 0 <= i < n ==> ps[i] == ps[..n][i];
    if ph.Cont? {
      PayloadOfPrefix(ps, n, rs);
    }
  }

  lemma FirstPick(cmd: byte, ps: seq<Packet>)
    requires ps != [] && Pending(ps[..|ps| - 1], cmd, [], Init)
    requires var p := ps[|ps| - 1]; IsInit(p) && p[4] == cmd && !IsError(p)
    ensures var r := Feed(Init, cmd, ps[|ps| - 1]);
            if r.Done? then r.reply.rc == OK && r.reply.data.Some?
                            && Reassembles(ps, cmd, [|ps| - 1], r.reply.data.value)
            else Pending(ps, cmd, [|ps| - 1], r)
  {
    var n := |ps| - 1;
    assert forall i :: 0 <= i < n ==> ps[i] == ps[..n][i];
  }

  lemma PickedLonger(cmd: byte, ps: seq<Packet>, rs: seq<nat>)
    requires ps != [] && Picked(ps[..|ps| - 1], cmd, rs)
    requires forall i :: 0 <= i < |ps| ==> !IsError(ps[i])
    requires forall i :: rs[0] < i < |ps| - 1 && i !in rs ==> IsInit(ps[i])
    requires !IsInit(ps[|ps| - 1]) && ps[|ps| - 1][4] == |rs| - 1
    ensures Picked(ps, cmd, rs + [|ps| - 1])
  {
    hide IsError, IsInit;
    var n := |ps| - 1;
    var picks := rs + [n];
    assert forall i :: 0 <= i < n ==> ps[i] == ps[..n][i];
    assert forall i :: i in rs ==> i in picks;
  }

  lemma NextPick(cmd: byte, ps: seq<Packet>, rs: seq<nat>, ph: Phase)
    requires ps != [] && ph.Cont? && Running(ph) && Pending(ps[..|ps| - 1], cmd, rs, ph)
    requires var p := ps[|ps| - 1]; !IsError(p) && !IsInit(p) && p[4] == ph.seqno
    ensures var r := Feed(ph, cmd, ps[|ps| - 1]);
            if r.Done? then r.reply.rc == OK && r.reply.data.Some?
                            && Reassembles(ps, cmd, rs + [|ps| - 1], r.reply.data.value)
            else Pending(ps, cmd, rs + [|ps| - 1], r)
  {
    hide IsError, IsInit, Length, Payload;
    var n := |ps| - 1;
    assert forall i :: 0 <= i < n ==> ps[i] == ps[..n][i];
    PickedLonger(cmd, ps, rs);
    PayloadGrows(ps, rs);
    assert (rs + [n])[..|rs|] == rs;
  }

  lemma PayloadGrows(ps: seq<Packet>, rs: seq<nat>)
    requires ps != [] && rs != [] && forall i :: 0 <= i < |rs| ==> rs[i] < |ps| - 1
    ensures Payload(ps, rs) == Payload(ps[..|ps| - 1], rs)
    ensures Payload(ps, rs + [|ps| - 1]) == Payload(ps, rs) + ps[|ps| - 1][5..]
  {
    PayloadOfPrefix(ps, |ps| - 1, rs);
    assert (rs + [|ps| - 1])[..|rs|] == rs;
  }
}
