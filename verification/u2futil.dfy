/** The framing of the test client in C++, written independently of the extension. */
module TestClient {
  import opened Words
  import opened Framing

  const PAD: byte := 0xEE
  const ERR_OTHER: int := 127

  /** The channel id in network order, as `htonl` leaves it in the frame. */
  function NetworkOrder(cid: word): (r: seq<byte>)
    ensures r == CidBytes(ToInt32(cid)) && |r| == 4
  {
    assert ToUint32(ToInt32(cid)) == cid;
    [cid / 0x100_0000, cid / 0x1_0000 % 256, cid / 0x100 % 256, cid % 256]
  }

  /** `TYPE_INIT | cmd` */
  function InitCommand(cmd: byte): byte {
    if cmd >= 0x80 then cmd else cmd + 0x80
  }

  /** What `U2Fob_send` puts on the wire. */
  function Sent(cid: word, cmd: byte, data: seq<byte>): seq<Packet> {
    Message(ToInt32(cid), InitCommand(cmd), data, PAD)
  }

  /** What `U2Fob_recv` returns, and the frames it leaves unread. */
  datatype Reception =
    | Received(cmd: byte, data: seq<byte>, rest: seq<Packet>)
    | Failed(code: int, rest: seq<Packet>)

  /** Every frame that comes is a report of 64 bytes. */
  ghost predicate Reports(fs: seq<Packet>) {
    forall p :: p in fs ==> |p| == 64
  }

  predicate OnChannel(cid: word, p: Packet) {
    p[..4] == NetworkOrder(cid)
  }

  /** The loop over continuation frames with `want` bytes still to come. */
  function RecvConts(cid: word, cmd: byte, want: nat, seqno: byte, got: seq<byte>, fs: seq<Packet>): (r: Reception)
    requires Reports(fs)
    ensures r.Received? ==> r.cmd == cmd
    decreases |fs|
  {
    if want == 0 then Received(cmd, got, fs)
    else if fs == [] then Failed(-TIMEOUT, [])
    else if !OnChannel(cid, fs[0]) then RecvConts(cid, cmd, want, seqno, got, fs[1..])
    else if fs[0][4] >= 0x80 || fs[0][4] != seqno then Failed(-INVALID_SEQ, fs[1..])
    else
      var n := Min(CONT_DATA, want);
      RecvConts(cid, cmd, want - n, (seqno as int + 1) % 256, got + fs[0][5..5 + n], fs[1..])
  }

  function Recv(cid: word, max: nat, fs: seq<Packet>): Reception
    requires Reports(fs)
    decreases |fs|
  {
    if fs == [] then Failed(-TIMEOUT, [])
    else if !OnChannel(cid, fs[0]) || fs[0][4] < 0x80 then Recv(cid, max, fs[1..])
    else if fs[0][4] == CMD_ERROR then Failed(-(fs[0][7] as int), fs[1..])
    else
      var total := Min(max, Length(fs[0]));
      var n := Min(INIT_DATA, total);
      RecvConts(cid, fs[0][4], total - n, 0, fs[0][7..7 + n], fs[1..])
  }

  // ----- failures

  /** What a failed reception says: an error frame, whose code it is; that no frame came in time, when all that came have been
      used; or a frame of its channel that is out of sequence. */
  ghost predicate SaysWhy(cid: word, fs: seq<Packet>, code: int, rest: seq<Packet>) {
    || (code == -TIMEOUT && rest == [])
    || (exists i :: 0 <= i < |fs| && OnChannel(cid, fs[i]) && fs[i][4] == CMD_ERROR && code == -(fs[i][7] as int))
    || (code == -INVALID_SEQ && exists i :: 0 <= i < |fs| && OnChannel(cid, fs[i]))
  }

  lemma SaysWhyLater(cid: word, fs: seq<Packet>, code: int, rest: seq<Packet>)
    requires fs != [] && SaysWhy(cid, fs[1..], code, rest)
    ensures SaysWhy(cid, fs, code, rest)
  {
    hide OnChannel;
    assert forall i :: 0 <= i < |fs[1..]| ==> fs[1..][i] == fs[i + 1];
  }

  lemma {:induction false} ContsFail(cid: word, cmd: byte, want: nat, seqno: byte, got: seq<byte>, fs: seq<Packet>)
    requires Reports(fs)
    ensures var r := RecvConts(cid, cmd, want, seqno, got, fs); r.Failed? ==> SaysWhy(cid, fs, r.code, r.rest)
    decreases |fs|
  {
    hide OnChannel, SaysWhy;
    SaysNow(cid, fs, if fs == [] then [] else fs[1..]);
    if want != 0 && fs != [] {
      RestReports(fs);
      if !OnChannel(cid, fs[0]) {
        ContsFail(cid, cmd, want, seqno, got, fs[1..]);
      } else if fs[0][4] < 0x80 && fs[0][4] == seqno {
        var n := Min(CONT_DATA, want);
        ContsFail(cid, cmd, want - n, (seqno as int + 1) % 256, got + fs[0][5..5 + n], fs[1..]);
      }
      forall code, rest | SaysWhy(cid, fs[1..], code, rest)
        ensures SaysWhy(cid, fs, code, rest)
      {
        SaysWhyLater(cid, fs, code, rest);
      }
    }
  }

  lemma SaysNow(cid: word, fs: seq<Packet>, rest: seq<Packet>)
    ensures SaysWhy(cid, fs, -TIMEOUT, [])
    ensures fs != [] && OnChannel(cid, fs[0]) ==> SaysWhy(cid, fs, -INVALID_SEQ, rest)
    ensures fs != [] && OnChannel(cid, fs[0]) && fs[0][4] == CMD_ERROR ==> SaysWhy(cid, fs, -(fs[0][7] as int), rest)
  {
    hide OnChannel;
  }

  lemma {:induction false} RecvFails(cid: word, max: nat, fs: seq<Packet>)
    requires Reports(fs)
    ensures var r := Recv(cid, max, fs); r.Failed? ==> SaysWhy(cid, fs, r.code, r.rest)
    decreases |fs|
  {
    hide OnChannel, SaysWhy, RecvConts;
    SaysNow(cid, fs, if fs == [] then [] else fs[1..]);
    if fs != [] {
      RestReports(fs);
      if !OnChannel(cid, fs[0]) || fs[0][4] < 0x80 {
        RecvFails(cid, max, fs[1..]);
      } else if fs[0][4] != CMD_ERROR {
        var total := Min(max, Length(fs[0]));
        var n := Min(INIT_DATA, total);
        ContsFail(cid, fs[0][4], total - n, 0, fs[0][7..7 + n], fs[1..]);
      }
      forall code, rest | SaysWhy(cid, fs[1..], code, rest)
        ensures SaysWhy(cid, fs, code, rest)
      {
        SaysWhyLater(cid, fs, code, rest);
      }
    }
  }

  // ----- other channels

  function Channel(cid: word, fs: seq<Packet>): (r: seq<Packet>)
    ensures Reports(fs) ==> Reports(r)
  {
    if fs == [] then [] else (if OnChannel(cid, fs[0]) then [fs[0]] else []) + Channel(cid, fs[1..])
  }

  ghost predicate SameOutcome(r: Reception, q: Reception) {
    if r.Received? then q.Received? && q.cmd == r.cmd && q.data == r.data else q.Failed? && q.code == r.code
  }

  lemma {:induction false} ContsIgnoreOthers(cid: word, cmd: byte, want: nat, seqno: byte, got: seq<byte>, fs: seq<Packet>)
    requires Reports(fs)
    ensures SameOutcome(RecvConts(cid, cmd, want, seqno, got, fs), RecvConts(cid, cmd, want, seqno, got, Channel(cid, fs)))
    decreases |fs|
  {
    hide OnChannel;
    if fs != [] && want != 0 {
      var rest := Channel(cid, fs[1..]);
      if !OnChannel(cid, fs[0]) {
        ContsIgnoreOthers(cid, cmd, want, seqno, got, fs[1..]);
        assert [] + rest == rest;
      } else {
        assert ([fs[0]] + rest)[1..] == rest;
        if fs[0][4] < 0x80 && fs[0][4] == seqno {
          var n := Min(CONT_DATA, want);
          ContsIgnoreOthers(cid, cmd, want - n, (seqno as int + 1) % 256, got + fs[0][5..5 + n], fs[1..]);
        }
      }
    }
  }

  lemma RestReports(fs: seq<Packet>)
    requires fs != [] && Reports(fs)
    ensures Reports(fs[1..]) && |fs[0]| == 64
  {
  }

  lemma {:induction false} RecvIgnoresOthers(cid: word, max: nat, fs: seq<Packet>)
    requires Reports(fs)
    ensures SameOutcome(Recv(cid, max, fs), Recv(cid, max, Channel(cid, fs)))
    decreases |fs|
  {
    hide OnChannel, Recv, RecvConts, Channel, Reports;
    if fs == [] {
      NothingReceived(cid, max);
    } else {
      RestReports(fs);
      if !OnChannel(cid, fs[0]) || fs[0][4] < 0x80 {
        RecvIgnoresOthers(cid, max, fs[1..]);
        FrameSkipped(cid, max, fs);
      } else if fs[0][4] == CMD_ERROR {
        ErrorFrame(cid, max, fs);
      } else {
        FirstFrameOfMessage(cid, max, fs);
      }
    }
  }

  lemma NothingReceived(cid: word, max: nat)
    ensures Reports([]) && Recv(cid, max, []) == Recv(cid, max, Channel(cid, []))
    ensures SameOutcome(Recv(cid, max, []), Recv(cid, max, Channel(cid, [])))
  {
  }

  lemma ChannelFirst(cid: word, fs: seq<Packet>)
    requires fs != []
    ensures Channel(cid, fs) == if OnChannel(cid, fs[0]) then [fs[0]] + Channel(cid, fs[1..]) else Channel(cid, fs[1..])
    ensures OnChannel(cid, fs[0]) ==> Channel(cid, fs)[1..] == Channel(cid, fs[1..])
  {
    hide OnChannel;
  }

  lemma FrameSkipped(cid: word, max: nat, fs: seq<Packet>)
    requires fs != [] && Reports(fs) && Reports(fs[1..]) && (!OnChannel(cid, fs[0]) || fs[0][4] < 0x80)
    requires SameOutcome(Recv(cid, max, fs[1..]), Recv(cid, max, Channel(cid, fs[1..])))
    ensures SameOutcome(Recv(cid, max, fs), Recv(cid, max, Channel(cid, fs)))
  {
    hide OnChannel, RecvConts, Channel, Reports, SameOutcome;
    ChannelFirst(cid, fs);
    assert Recv(cid, max, fs) == Recv(cid, max, fs[1..]);
  }

  lemma ErrorFrame(cid: word, max: nat, fs: seq<Packet>)
    requires fs != [] && Reports(fs) && |fs[0]| == 64 && OnChannel(cid, fs[0]) && fs[0][4] == CMD_ERROR
    ensures SameOutcome(Recv(cid, max, fs), Recv(cid, max, Channel(cid, fs)))
  {
    hide OnChannel, RecvConts, Channel, Reports;
    ChannelFirst(cid, fs);
  }

  lemma FirstFrameOfMessage(cid: word, max: nat, fs: seq<Packet>)
    requires fs != [] && Reports(fs) && |fs[0]| == 64 && OnChannel(cid, fs[0]) && fs[0][4] >= 0x80 && fs[0][4] != CMD_ERROR
    ensures SameOutcome(Recv(cid, max, fs), Recv(cid, max, Channel(cid, fs)))
  {
    hide OnChannel, RecvConts, Channel, Reports, SameOutcome;
    ChannelFirst(cid, fs);
    RestReports(fs);
    var total := Min(max, Length(fs[0]));
    var n := Min(INIT_DATA, total);
    ContsIgnoreOthers(cid, fs[0][4], total - n, 0, fs[0][7..7 + n], fs[1..]);
  }

  // ----- what comes back of a message, from either sender

  /** The part of a message that the receiver asks for: its announced length, which two bytes hold, cut to `max`. */
  function Wanted(data: seq<byte>, max: nat): (n: nat)
    ensures n <= |data|
  {
    Min(max, |data| % 0x1_0000)
  }

  lemma TakenTogether(got: seq<byte>, data: seq<byte>, want: nat)
    requires want <= |data|
    ensures var n := Min(CONT_DATA, want);
            got + data[..n] + Rest(data, CONT_DATA)[..want - n] == got + data[..want]
  {
  }

  /** One continuation packet of a message, read in its turn. */
  lemma ContTaken(cid: word, cmd: byte, want: nat, k: nat, got: seq<byte>, data: seq<byte>, pad: byte, fs: seq<Packet>)
    requires 0 < want <= |data| && k <= 128
    requires fs != [] && fs[0] == ContPacket(ToInt32(cid), k, data, pad) && Reports(fs)
    ensures var n := Min(CONT_DATA, want);
            RecvConts(cid, cmd, want, k, got, fs)
            == if k < 128 then RecvConts(cid, cmd, want - n, k + 1, got + data[..n], fs[1..]) else Failed(-INVALID_SEQ, fs[1..])
  {
    hide OnChannel, ToInt32, ContPacket;
    PacketFields(cid, k, data, pad, Min(CONT_DATA, want));
  }

  lemma FirstCont(cid: int32, k: nat, data: seq<byte>, pad: byte, fs: seq<Packet>)
    requires data != [] && ContPackets(cid, k, data, pad) <= fs
    ensures Reports(fs) ==> Reports(fs[1..])
    ensures fs != [] && fs[0] == ContPacket(cid, k, data, pad) && ContPackets(cid, k + 1, Rest(data, CONT_DATA), pad) <= fs[1..]
  {
    hide ContPacket;
    assert ContPackets(cid, k, data, pad)[1..] == ContPackets(cid, k + 1, Rest(data, CONT_DATA), pad);
  }

  /** What comes of `want` bytes of `data` in continuation frames from number `k` on. */
  ghost function Expected(cmd: byte, got: seq<byte>, data: seq<byte>, want: nat, k: nat): Reception
    requires want <= |data| && k <= 128
  {
    if want <= CONT_DATA * (128 - k) then Received(cmd, got + data[..want], []) else Failed(-INVALID_SEQ, [])
  }

  lemma ExpectedNext(cmd: byte, got: seq<byte>, data: seq<byte>, want: nat, k: nat)
    requires 0 < want <= |data| && k < 128
    ensures var n, rest := Min(CONT_DATA, want), Rest(data, CONT_DATA);
            n <= want && want - n <= |rest| && Expected(cmd, got, data, want, k) == Expected(cmd, got + data[..n], rest, want - n, k + 1)
  {
    TakenTogether(got, data, want);
    assert want - Min(CONT_DATA, want) <= CONT_DATA * (128 - (k + 1)) <==> want <= CONT_DATA * (128 - k);
  }

  lemma {:induction false} ContsOfMessage(cid: word, cmd: byte, want: nat, k: nat, got: seq<byte>, data: seq<byte>,
                                          pad: byte, fs: seq<Packet>)
    requires want <= |data| && k <= 128
    requires ContPackets(ToInt32(cid), k, data, pad) <= fs && Reports(fs)
    ensures SameOutcome(Expected(cmd, got, data, want, k), RecvConts(cid, cmd, want, k, got, fs))
    decreases |data|
  {
    if want == 0 {
      assert got + data[..0] == got;
    } else {
      hide RecvConts, ContPackets, ToInt32, ContPacket, OnChannel, Reports;
      var rest, n := Rest(data, CONT_DATA), Min(CONT_DATA, want);
      FirstCont(ToInt32(cid), k, data, pad, fs);
      ContTaken(cid, cmd, want, k, got, data, pad, fs);
      if k < 128 {
        hide SameOutcome, Expected;
        ExpectedNext(cmd, got, data, want, k);
        ContsOfMessage(cid, cmd, want - n, k + 1, got + data[..n], rest, pad, fs[1..]);
      }
    }
  }

  lemma PacketFields(cid: word, k: nat, data: seq<byte>, pad: byte, n: nat)
    requires n <= CONT_DATA && n <= |data|
    ensures var p := ContPacket(ToInt32(cid), k, data, pad);
            OnChannel(cid, p) && p[4] == k % 256 && p[5..5 + n] == data[..n]
  {
    hide ToInt32, CidBytes;
  }

  /** The receiver returns exactly the wanted part of any message, whoever padded it, as long as 129 frames hold
      that part; otherwise it stops at frame number 128, which looks like the start of another message. */
  lemma MessageReceived(cid: word, cmd: byte, data: seq<byte>, pad: byte, max: nat, fs: seq<Packet>)
    requires cmd >= 0x80 && cmd != CMD_ERROR
    requires Reports(fs)
    requires Message(ToInt32(cid), cmd, data, pad) <= Channel(cid, fs)
    ensures var r := Recv(cid, max, fs);
            if Wanted(data, max) <= MAX_PAYLOAD then r.Received? && r.cmd == cmd && r.data == data[..Wanted(data, max)]
            else r.Failed? && r.code == -INVALID_SEQ
  {
    hide OnChannel, Channel, RecvConts, ContPackets, InitPacket, ToInt32, Wanted;
    var m, on := Message(ToInt32(cid), cmd, data, pad), Channel(cid, fs);
    RecvIgnoresOthers(cid, max, fs);
    FirstOfMessage(cid, cmd, data, pad, max);
    assert on[0] == m[0];
    ContsFollow(cid, cmd, data, pad, on);
    var total, rest := Wanted(data, max), Rest(data, INIT_DATA);
    var n := Min(INIT_DATA, total);
    ContsOfMessage(cid, cmd, total - n, 0, data[..n], rest, pad, on[1..]);
    WantedInPieces(data, max);
  }

  lemma WantedInPieces(data: seq<byte>, max: nat)
    ensures var total := Wanted(data, max);
            var n := Min(INIT_DATA, total);
            && total <= |data| && total - n <= |Rest(data, INIT_DATA)|
            && data[..n] + Rest(data, INIT_DATA)[..total - n] == data[..total]
  {
  }

  lemma ContsFollow(cid: word, cmd: byte, data: seq<byte>, pad: byte, fs: seq<Packet>)
    requires Message(ToInt32(cid), cmd, data, pad) <= fs
    ensures ContPackets(ToInt32(cid), 0, Rest(data, INIT_DATA), pad) <= fs[1..]
  {
    hide ToInt32, InitPacket, ContPackets;
    assert ContPackets(ToInt32(cid), 0, Rest(data, INIT_DATA), pad) == Message(ToInt32(cid), cmd, data, pad)[1..];
  }

  lemma FirstOfMessage(cid: word, cmd: byte, data: seq<byte>, pad: byte, max: nat)
    ensures var p := Message(ToInt32(cid), cmd, data, pad)[0];
            var n := Min(INIT_DATA, Wanted(data, max));
            OnChannel(cid, p) && p[4] == cmd && Min(max, Length(p)) == Wanted(data, max) && p[7..7 + n] == data[..n]
  {
    hide ToInt32, CidBytes;
    var p := InitPacket(ToInt32(cid), cmd, data, pad);
    var n := Min(INIT_DATA, Wanted(data, max));
    AnnouncedLength(ToInt32(cid), cmd, data, pad);
    assert p[..4] == CidBytes(ToInt32(cid));
    assert p[7..] == Padded(Head(data, INIT_DATA), INIT_DATA, pad);
    assert p[7..7 + n] == p[7..][..n] == Head(data, INIT_DATA)[..n];
  }

  lemma AnnouncedLength(cid: int32, cmd: byte, data: seq<byte>, pad: byte)
    ensures Length(InitPacket(cid, cmd, data, pad)) == |data| % 0x1_0000
  {
    hide CidBytes, Padded;
    var p := InitPacket(cid, cmd, data, pad);
    assert p[5] == |data| / 256 % 256 && p[6] == |data| % 256;
    assert |data| % 0x1_0000 == |data| / 256 % 256 * 256 + |data| % 256;
  }

  /** What one implementation sends within the limit the other one receives whole. */
  lemma RoundTripC(cid: word, cmd: byte, data: seq<byte>, pad: byte, max: nat, fs: seq<Packet>)
    requires cmd >= 0x80 && cmd != CMD_ERROR && |data| <= max
    requires Reports(fs)
    requires Message(ToInt32(cid), cmd, data, pad) <= Channel(cid, fs)
    ensures (exists rest :: Recv(cid, max, fs) == Received(cmd, data, rest)) <==> |data| <= MAX_PAYLOAD
  {
    hide Recv, Channel, Message;
    MessageReceived(cid, cmd, data, pad, max, fs);
    var r := Recv(cid, max, fs);
    assert |data| <= MAX_PAYLOAD ==> data[..|data|] == data && r == Received(cmd, data, r.rest);
  }

  // ----- the two senders

  /** Two packets that differ only in padding: from position `n` on, where they hold `pad` and `qad`. */
  ghost predicate SameBefore(p: Packet, q: Packet, n: nat, pad: byte, qad: byte) {
    && |p| == 64 && |q| == 64
    && forall j :: 0 <= j < 64 ==> if j < n then p[j] == q[j] else p[j] == pad && q[j] == qad
  }

  /** The number of bytes of packet `i` of a message that are not padding. */
  function Used(size: nat, i: nat): nat {
    if i == 0 then 7 + Min(size, INIT_DATA)
    else 5 + if size < INIT_DATA + CONT_DATA * (i - 1) then 0 else Min(size - INIT_DATA - CONT_DATA * (i - 1), CONT_DATA)
  }

  lemma {:induction false} ContsAgree(cid: int32, k: nat, data: seq<byte>, pad: byte, qad: byte)
    ensures var ps, qs := ContPackets(cid, k, data, pad), ContPackets(cid, k, data, qad);
            && |ps| == |qs|
            && forall i :: 0 <= i < |ps| ==> CONT_DATA * i < |data| && SameBefore(ps[i], qs[i], 5 + Min(|data| - CONT_DATA * i, CONT_DATA), pad, qad)
    decreases |data|
  {
    hide CidBytes;
    if data != [] {
      hide SameBefore;
      var rest := Rest(data, CONT_DATA);
      ContsAgree(cid, k + 1, rest, pad, qad);
      FirstContsAgree(cid, k, data, pad, qad);
      var ps, qs := ContPackets(cid, k + 1, rest, pad), ContPackets(cid, k + 1, rest, qad);
      forall i | 1 <= i <= |ps|
        ensures CONT_DATA * i < |data|
        ensures SameBefore(ContPackets(cid, k, data, pad)[i], ContPackets(cid, k, data, qad)[i], 5 + Min(|data| - CONT_DATA * i, CONT_DATA), pad, qad)
      {
        assert CONT_DATA * (i - 1) < |rest|;
        assert SameBefore(ps[i - 1], qs[i - 1], 5 + Min(|rest| - CONT_DATA * (i - 1), CONT_DATA), pad, qad);
      }
    }
  }

  lemma FirstContsAgree(cid: int32, k: nat, data: seq<byte>, pad: byte, qad: byte)
    requires data != []
    ensures SameBefore(ContPacket(cid, k, data, pad), ContPacket(cid, k, data, qad), 5 + Min(|data|, CONT_DATA), pad, qad)
  {
    hide CidBytes;
  }

  /** The test client and the extension send the same packets for a message of any size, except for the bytes
      of the last packet behind the payload: 0xEE in the one, 0 in the other. */
  lemma SendersAgree(cid: word, cmd: byte, data: seq<byte>)
    ensures var ps, qs := Sent(cid, cmd, data), Message(ToInt32(cid), InitCommand(cmd), data, 0);
            && |ps| == |qs|
            && forall i :: 0 <= i < |ps| ==> SameBefore(ps[i], qs[i], Used(|data|, i), PAD, 0)
  {
    hide CidBytes, SameBefore;
    var c, id, rest := InitCommand(cmd), ToInt32(cid), Rest(data, INIT_DATA);
    ContsAgree(id, 0, rest, PAD, 0);
    assert SameBefore(InitPacket(id, c, data, PAD), InitPacket(id, c, data, 0), Used(|data|, 0), PAD, 0) by {
      InitsAgree(id, c, data);
    }
    var ps, qs := ContPackets(id, 0, rest, PAD), ContPackets(id, 0, rest, 0);
    forall i | 1 <= i <= |ps|
      ensures SameBefore(Sent(cid, cmd, data)[i], Message(id, c, data, 0)[i], Used(|data|, i), PAD, 0)
    {
      assert SameBefore(ps[i - 1], qs[i - 1], 5 + Min(|rest| - CONT_DATA * (i - 1), CONT_DATA), PAD, 0);
    }
  }

  lemma InitsAgree(cid: int32, cmd: byte, data: seq<byte>)
    ensures SameBefore(InitPacket(cid, cmd, data, PAD), InitPacket(cid, cmd, data, 0), 7 + Min(|data|, INIT_DATA), PAD, 0)
  {
    hide CidBytes;
  }

  // ----- the loops

  /** `writes` is how many more reports the system accepts; `incoming` are the reports that come before a timeout. */
  class U2Fob {
    var cid: word
    var writes: nat
    var written: seq<Packet>
    var incoming: seq<Packet>

    ghost predicate Valid()
      reads this
    {
      Reports(incoming)
    }

    constructor (cid: word, writes: nat, incoming: seq<Packet>)
      requires Reports(incoming)
      ensures Valid() && this.cid == cid && this.writes == writes && this.incoming == incoming && written == []
    {
      this.cid, this.writes, this.incoming, written := cid, writes, incoming, [];
    }

    method SendHidFrame(f: array<byte>) returns (res: int)
      requires f.Length == 64
      modifies `writes, `written
      ensures res == (if old(writes) > 0 then 0 else -ERR_OTHER)
      ensures if old(writes) > 0 then writes == old(writes) - 1 && written == old(written) + [f[..]]
              else writes == 0 && written == old(written)
    {
      if writes == 0 {
        return -ERR_OTHER;
      }
      writes, written := writes - 1, written + [f[..]];
      res := 0;
    }

    /** `memset` and `memcpy` of the data part of a frame. */
    static method Fill(f: array<byte>, start: nat, d: seq<byte>)
      requires start + |d| <= f.Length
      modifies f
      ensures f[..] == old(f[..start]) + Padded(d, f.Length - start, PAD)
    {
      forall i | start <= i < f.Length {
        f[i] := PAD;
      }
      forall i | 0 <= i < |d| {
        f[start + i] := d[i];
      }
      assert f[..start] == old(f[..start]);
      assert f[start..] == Padded(d, f.Length - start, PAD);
      assert f[..] == f[..start] + f[start..];
    }

    static method InitFrame(cid: word, cmd: byte, data: seq<byte>) returns (f: array<byte>)
      ensures fresh(f) && f.Length == 64 && f[..4] == NetworkOrder(cid)
      ensures f[..] == InitPacket(ToInt32(cid), InitCommand(cmd), data, PAD)
    {
      hide ToInt32, CidBytes, NetworkOrder;
      var id := NetworkOrder(cid);
      f := new byte[64];
      f[0], f[1], f[2], f[3] := id[0], id[1], id[2], id[3];
      f[4], f[5], f[6] := InitCommand(cmd), |data| / 256 % 256, |data| % 256;
      assert f[..7] == id + [InitCommand(cmd), |data| / 256 % 256, |data| % 256];
      Fill(f, 7, Head(data, INIT_DATA));
    }

    /** The next frame, in the place of the one before it. */
    static method ContFrame(f: array<byte>, seqno: byte, d: seq<byte>)
      requires f.Length == 64 && |d| <= CONT_DATA
      modifies f
      ensures f[..4] == old(f[..4]) && f[..] == old(f[..4]) + [seqno] + Padded(d, CONT_DATA, PAD)
    {
      f[4] := seqno;
      assert f[..5] == old(f[..4]) + [seqno];
      Fill(f, 5, d);
    }

    method Send(cmd: byte, data: seq<byte>) returns (res: int)
      modifies `writes, `written
      ensures var m := Sent(cid, cmd, data);
              && written == old(written) + m[..Min(old(writes), |m|)]
              && res == if |m| <= old(writes) then 0 else -ERR_OTHER
    {
      hide InitPacket, ContPacket, ContPackets, ToInt32, NetworkOrder, CidBytes;
      ghost var m := Sent(cid, cmd, data);
      var f := InitFrame(cid, cmd, data);
      var size: nat, pData: nat, seqno: byte := |data|, 0, 0;
      var frameLen: nat := Min(size, INIT_DATA);
      ghost var n: nat := 0;
      while true
        invariant fresh(f) && f.Length == 64 && f[..4] == NetworkOrder(cid)
        invariant pData + size == |data| && frameLen <= size && (frameLen == 0 ==> size == 0)
        invariant n < |m| && m[n..] == [f[..]] + ContPackets(ToInt32(cid), n, data[pData + frameLen..], PAD)
        invariant seqno == n % 256
        invariant written == old(written) + m[..n] && writes == old(writes) - n
        decreases size
      {
        res := SendHidFrame(f);
        if res != 0 {
          return;
        }
        FrameSent(m, n, ToInt32(cid), f[..], data[pData + frameLen..]);
        size, pData, n := size - frameLen, pData + frameLen, n + 1;
        frameLen := Min(size, CONT_DATA);
        assert data[pData..pData + frameLen] == Head(data[pData..], CONT_DATA);
        ContFrame(f, seqno, data[pData..pData + frameLen]);
        seqno := (seqno as int + 1) % 256;
        if size == 0 {
          return;
        }
        NextFrame(cid, n - 1, data[pData..], f[..]);
      }
    }

    /** One frame of the message is out; what is left are the packets of the rest of the data. */
    lemma FrameSent(m: seq<Packet>, n: nat, id: int32, f: Packet, rest: seq<byte>)
      requires n < |m| && m[n..] == [f] + ContPackets(id, n, rest, PAD)
      ensures m[..n + 1] == m[..n] + [f]
      ensures if rest == [] then m[..n + 1] == m
              else n + 1 < |m| && m[n + 1..] == [ContPacket(id, n, rest, PAD)] + ContPackets(id, n + 1, Rest(rest, CONT_DATA), PAD)
    {
      hide ContPacket;
      assert m[n] == m[n..][0];
      assert m[n + 1..] == m[n..][1..] == ContPackets(id, n, rest, PAD);
    }

    /** The frame built in place for the rest of the data is its continuation packet. */
    lemma NextFrame(cid: word, k: nat, data: seq<byte>, f: seq<byte>)
      requires |f| == 64 && f == NetworkOrder(cid) + [k % 256] + Padded(Head(data, CONT_DATA), CONT_DATA, PAD)
      ensures f == ContPacket(ToInt32(cid), k, data, PAD)
    {
    }

    method ReceiveHidFrame() returns (f: Option<Packet>)
      requires Valid()
      modifies `incoming
      ensures Valid()
      ensures f == if old(incoming) == [] then None else Some(old(incoming)[0])
      ensures incoming == if old(incoming) == [] then [] else old(incoming)[1..]
    {
      if |incoming| == 0 {
        return None;
      }
      f, incoming := Some(incoming[0]), incoming[1..];
    }

    /** `cmd` and `data` are what the caller's variables hold afterwards. */
    method Receive(max: nat) returns (result: int, cmd: byte, data: seq<byte>)
      requires Valid()
      modifies `incoming
      ensures Valid()
      ensures match Recv(cid, max, old(incoming))
              case Received(c, d, rest) => result == |d| && cmd == c && data == d && incoming == rest
              case Failed(code, rest) => result == code && incoming == rest
    {
      hide OnChannel, RecvConts, Reports;
      cmd, data := 0, [];
      var frame := FirstFrame(max);
      if frame.None? {
        return -TIMEOUT, cmd, data;
      }
      assert ([frame.value] + incoming)[1..] == incoming;
      if frame.value[4] == CMD_ERROR {
        return -(frame.value[7] as int), cmd, data;
      }
      cmd := frame.value[4];
      var totalLen := Min(max, Length(frame.value));
      var frameLen := Min(INIT_DATA, totalLen);
      data := frame.value[7..7 + frameLen];
      result, data := ReceiveConts(cmd, totalLen - frameLen, data);
      if result == 0 {
        result := totalLen;
      }
    }

    /** The first loop: the frame that starts a message on this channel. */
    method FirstFrame(ghost max: nat) returns (frame: Option<Packet>)
      requires Valid()
      modifies `incoming
      ensures Valid()
      ensures frame.None? ==> incoming == [] && Recv(cid, max, old(incoming)) == Failed(-TIMEOUT, [])
      ensures frame.Some? ==>
                && |frame.value| == 64 && OnChannel(cid, frame.value) && frame.value[4] >= 0x80
                && Recv(cid, max, [frame.value] + incoming) == Recv(cid, max, old(incoming))
    {
      hide OnChannel, RecvConts;
      while true
        invariant Valid() && Recv(cid, max, incoming) == Recv(cid, max, old(incoming))
        decreases |incoming|
      {
        ghost var before := incoming;
        frame := ReceiveHidFrame();
        if frame.None? {
          return;
        }
        assert [frame.value] + incoming == before;
        if OnChannel(cid, frame.value) && frame.value[4] >= 0x80 {
          return;
        }
      }
    }

    method ReceiveConts(ghost cmd: byte, want: nat, first: seq<byte>) returns (res: int, data: seq<byte>)
      requires Valid()
      modifies `incoming
      ensures Valid()
      ensures match RecvConts(cid, cmd, want, 0, first, old(incoming))
              case Received(_, d, rest) => res == 0 && data == d && |d| == |first| + want && incoming == rest
              case Failed(code, rest) => res == code && code != 0 && incoming == rest
    {
      hide OnChannel;
      var totalLen: nat, seqno: byte := want, 0;
      data := first;
      while totalLen != 0
        invariant Valid() && |data| + totalLen == |first| + want
        invariant RecvConts(cid, cmd, totalLen, seqno, data, incoming) == RecvConts(cid, cmd, want, 0, first, old(incoming))
        decreases |incoming|
      {
        var frame := ReceiveHidFrame();
        if frame.None? {
          return -TIMEOUT, data;
        }
        if !OnChannel(cid, frame.value) {
          continue;
        }
        if frame.value[4] >= 0x80 {
          return -INVALID_SEQ, data;
        }
        if frame.value[4] != seqno {
          return -INVALID_SEQ, data;
        }
        seqno := (seqno as int + 1) % 256;
        var frameLen := Min(CONT_DATA, totalLen);
        data, totalLen := data + frame.value[5..5 + frameLen], totalLen - frameLen;
      }
      res := 0;
    }
  }
}
