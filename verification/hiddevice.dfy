/** The driver over chrome.hid: a transmit queue, the channel lock and the pending continuations. */
module HidDriver {
  import opened Words
  import opened Framing
  import opened ChannelLock

  /** How many of each continuation are outstanding: ends of sends, delayed `writePump_`, delayed `destroy`. */
  datatype Tasks = Tasks(sendDone: nat, pump: nat, destroy: nat)

  datatype Command = Command(cid: int32, cmd: byte, data: seq<byte>)

  /** `wire`, `published` and `accepted` record the reports given to chrome.hid.send, the packets given to the
      clients and the commands that passed the lock; `sent` are the packets dropped from the queue. */
  datatype Hid = Hid(alive: bool, lock: Lock, txqueue: seq<Packet>, tasks: Tasks, failed: bool,
                     sent: seq<Packet>, wire: seq<Packet>, published: seq<Packet>, accepted: seq<Command>)

  const INITIAL: Hid := Hid(true, UNLOCKED, [], Tasks(0, 0, 0), false, [], [], [], [])

  // ----- the effect of each method

  function WritePump(s: Hid): Hid {
    if !s.alive || s.txqueue == [] then s
    else s.(wire := s.wire + [s.txqueue[0]], tasks := s.tasks.(sendDone := s.tasks.sendDone + 1))
  }

  function QueueFrame(s: Hid, p: Packet, cid: int32, cmd: nat, arg: byte): Hid {
    var s1 := s.(lock := UpdateLock(s.lock, cid, cmd, arg), txqueue := s.txqueue + [p]);
    if s.txqueue == [] then WritePump(s1) else s1
  }

  function QueueConts(s: Hid, cid: int32, k: nat, data: seq<byte>, arg: byte): Hid
    decreases |data|
  {
    if data == [] then s
    else QueueConts(QueueFrame(s, ContPacket(cid, k, data, 0), cid, k, arg), cid, k + 1, Rest(data, CONT_DATA), arg)
  }

  function QueueMessage(s: Hid, cid: int32, cmd: byte, data: seq<byte>): Hid {
    var s1 := QueueFrame(s, InitPacket(cid, cmd, data, 0), cid, cmd, LockArg(data));
    QueueConts(s1, cid, 0, Rest(data, INIT_DATA), LockArg(data))
  }

  function QueueCommand(s: Hid, cid: int32, cmd: byte, data: seq<byte>): Hid {
    if !s.alive then s
    else if !CheckLock(s.lock, cid, cmd) then s.(published := s.published + [BusyPacket(cid)])
    else QueueMessage(s.(accepted := s.accepted + [Command(cid, cmd, data)]), cid, cmd, data)
  }

  function DestroyDevice(s: Hid): Hid {
    if !s.alive then s
    else s.(alive := false, lock := ClearTimer(s.lock), published := s.published + [GonePacket()])
  }

  function TransferComplete(s: Hid, ok: bool): Hid
    requires s.tasks.sendDone > 0
  {
    var s1 := s.(tasks := s.tasks.(sendDone := s.tasks.sendDone - 1));
    if !ok then s1.(tasks := s1.tasks.(destroy := s1.tasks.destroy + 1), failed := true)
    else if s.txqueue == [] then s1
    else
      var s2 := s1.(sent := s.sent + [s.txqueue[0]], txqueue := s.txqueue[1..]);
      if s2.txqueue != [] then s2.(tasks := s2.tasks.(pump := s2.tasks.pump + 1)) else s2
  }

  // ----- runs

  datatype Event =
    | Queue(command: Command)
    | Complete(ok: bool)
    | RunPump
    | RunDestroy
    | ForceDestroy
    | LockTimer(t: nat)

  /** An event that is not enabled changes nothing. */
  function Step(s: Hid, e: Event): Hid {
    match e
    case Queue(c) => QueueCommand(s, c.cid, c.cmd, c.data)
    case Complete(ok) => if s.tasks.sendDone > 0 then TransferComplete(s, ok) else s
    case RunPump => if s.tasks.pump > 0 then WritePump(s.(tasks := s.tasks.(pump := s.tasks.pump - 1))) else s
    case RunDestroy => if s.tasks.destroy > 0 then DestroyDevice(s.(tasks := s.tasks.(destroy := s.tasks.destroy - 1))) else s
    case ForceDestroy => DestroyDevice(s)
    case LockTimer(t) => s.(lock := Expire(s.lock, t))
  }

  function Run(s: Hid, es: seq<Event>): Hid {
    if es == [] then s else Step(Run(s, es[..|es| - 1]), es[|es| - 1])
  }

  function Packets(cs: seq<Command>): seq<Packet> {
    if cs == [] then []
    else var c := cs[|cs| - 1]; Packets(cs[..|cs| - 1]) + Message(c.cid, c.cmd, c.data, 0)
  }

  /** While the device works there is one transfer or one scheduled pump if and only if the queue is not empty. */
  ghost predicate EngineInv(s: Hid) {
    s.alive && !s.failed ==>
      if s.txqueue == [] then s.tasks == Tasks(0, 0, 0)
      else s.tasks == Tasks(1, 0, 0) || s.tasks == Tasks(0, 1, 0)
  }

  /** Nothing else is pending when a transfer has failed, and at most one transfer ever is. */
  ghost predicate TaskInv(s: Hid) {
    && s.tasks.sendDone + s.tasks.pump <= 1
    && (s.tasks.sendDone > 0 ==> s.txqueue != [] && !s.failed)
    && (s.failed ==> s.txqueue != [] && s.tasks.pump == 0)
    && (s.alive ==> (s.failed <==> s.tasks.destroy > 0))
  }

  /** Every packet of every accepted message, once, in order: on the wire, or in the queue behind it. */
  ghost predicate WireInv(s: Hid) {
    && s.sent + s.txqueue == Packets(s.accepted)
    && s.wire == s.sent + (if s.txqueue != [] && (s.tasks.sendDone > 0 || s.failed) then [s.txqueue[0]] else [])
  }

  ghost predicate Inv(s: Hid) {
    && EngineInv(s) && TaskInv(s) && WireInv(s)
    && (s.alive ==> LockInv(s.lock))
  }

  lemma {:induction false} QueueContsEffect(s: Hid, cid: int32, k: nat, data: seq<byte>, arg: byte)
    requires s.txqueue != []
    ensures QueueConts(s, cid, k, data, arg)
         == s.(lock := LockConts(s.lock, cid, k, ContCount(|data|), arg), txqueue := s.txqueue + ContPackets(cid, k, data, 0))
    decreases |data|
  {
    hide ContPacket, UpdateLock;
    if data == [] {
      assert s.txqueue + [] == s.txqueue;
    } else {
      var p, rest := ContPacket(cid, k, data, 0), Rest(data, CONT_DATA);
      QueueContsEffect(QueueFrame(s, p, cid, k, arg), cid, k + 1, rest, arg);
      assert s.txqueue + [p] + ContPackets(cid, k + 1, rest, 0) == s.txqueue + ContPackets(cid, k, data, 0);
      assert ContCount(|rest|) == ContCount(|data|) - 1;
    }
  }

  /** A message is queued in one piece; only an empty queue starts a transfer, of its first packet. */
  lemma QueueMessageEffect(s: Hid, cid: int32, cmd: byte, data: seq<byte>)
    requires s.alive
    ensures var m := Message(cid, cmd, data, 0);
            QueueMessage(s, cid, cmd, data)
            == s.(lock := LockMessage(s.lock, cid, cmd, data), txqueue := s.txqueue + m,
                  wire := if s.txqueue == [] then s.wire + [m[0]] else s.wire,
                  tasks := if s.txqueue == [] then s.tasks.(sendDone := s.tasks.sendDone + 1) else s.tasks)
  {
    hide InitPacket, ContPackets, UpdateLock;
    var p, rest := InitPacket(cid, cmd, data, 0), Rest(data, INIT_DATA);
    QueueContsEffect(QueueFrame(s, p, cid, cmd, LockArg(data)), cid, 0, rest, LockArg(data));
    assert s.txqueue + [p] + ContPackets(cid, 0, rest, 0) == s.txqueue + Message(cid, cmd, data, 0);
    assert ([] + [p])[0] == p;
  }

  lemma QueueKeepsInv(s: Hid, c: Command)
    requires Inv(s)
    ensures Inv(QueueCommand(s, c.cid, c.cmd, c.data))
  {
    hide Message, UpdateLock, LockMessage, QueueMessage, LockInv;
    if s.alive && CheckLock(s.lock, c.cid, c.cmd) {
      var t := s.(accepted := s.accepted + [c]);
      QueueMessageEffect(t, c.cid, c.cmd, c.data);
      MessageLocksByItsCommand(s.lock, c.cid, c.cmd, c.data);
      assert t.accepted[..|s.accepted|] == s.accepted;
      var m := Message(c.cid, c.cmd, c.data, 0);
      assert s.sent + (s.txqueue + m) == s.sent + s.txqueue + m;
      assert m != [] by { MessageNotEmpty(c.cid, c.cmd, c.data); }
    }
  }

  lemma MessageNotEmpty(cid: int32, cmd: byte, data: seq<byte>)
    ensures Message(cid, cmd, data, 0) != []
  {
  }

  lemma CompleteKeepsInv(s: Hid, ok: bool)
    requires Inv(s) && s.tasks.sendDone > 0
    ensures Inv(TransferComplete(s, ok))
  {
    hide Packets, LockInv;
    assert s.sent + s.txqueue == s.sent + [s.txqueue[0]] + s.txqueue[1..];
  }

  lemma StepKeepsInv(s: Hid, e: Event)
    requires Inv(s)
    ensures Inv(Step(s, e))
  {
    hide Packets, QueueCommand, TransferComplete;
    match e
    case Queue(c) => QueueKeepsInv(s, c);
    case Complete(ok) =>
      if s.tasks.sendDone > 0 {
        CompleteKeepsInv(s, ok);
      }
    case _ =>
  }

  /** In every run the transmit engine never overlaps or stalls, the wire carries whole messages in the order
      of their commands, and a lock timer is live exactly while the lock is held. */
  lemma {:induction false} RunKeepsInv(es: seq<Event>)
    ensures Inv(Run(INITIAL, es))
  {
    if es != [] {
      RunKeepsInv(es[..|es| - 1]);
      hide Inv, Step;
      StepKeepsInv(Run(INITIAL, es[..|es| - 1]), es[|es| - 1]);
    }
  }

  /** What the wire has seen is always a prefix of the accepted messages, and only a pending transfer or a
      failure keeps it from being all of them. */
  lemma WireIsPrefix(es: seq<Event>)
    ensures var s := Run(INITIAL, es);
            && s.wire <= Packets(s.accepted)
            && (s.alive && !s.failed && s.tasks == Tasks(0, 0, 0) ==> s.wire == Packets(s.accepted))
  {
    hide Packets, LockInv, Run;
    RunKeepsInv(es);
    var s := Run(INITIAL, es);
    assert s.sent + s.txqueue == if s.txqueue == [] then s.sent else s.sent + [s.txqueue[0]] + s.txqueue[1..];
  }

  /** `t` accepts at most one command more than `s`, and only one of the holder's or a SYNC or INIT. */
  ghost predicate AcceptsForHolder(s: Hid, t: Hid) {
    || t.accepted == s.accepted
    || exists c: Command :: t.accepted == s.accepted + [c] && (c.cid == s.lock.cid || c.cmd in {CMD_SYNC, CMD_INIT})
  }

  /** While a channel holds the lock, one event accepts nothing but a command of that channel or a SYNC or
      INIT, and can only leave the lock where it is or free it; a refused command gets a BUSY packet. */
  lemma LockSafety(es: seq<Event>, e: Event)
    ensures var s, t := Run(INITIAL, es), Step(Run(INITIAL, es), e);
            s.alive && s.lock.cid != 0 ==>
              && t.lock.cid in {0, s.lock.cid}
              && AcceptsForHolder(s, t)
              && (e.Queue? && t.accepted == s.accepted ==> t.published == s.published + [BusyPacket(e.command.cid)])
  {
    hide Inv, Run;
    RunKeepsInv(es);
    var s := Run(INITIAL, es);
    if s.alive && s.lock.cid != 0 {
      InvGivesLock(s);
      if e.Queue? && CheckLock(s.lock, e.command.cid, e.command.cmd) {
        AcceptedUnderLock(s, e.command);
      }
    }
  }

  lemma AcceptedUnderLock(s: Hid, c: Command)
    requires s.alive && s.lock.cid != 0 && LockInv(s.lock) && CheckLock(s.lock, c.cid, c.cmd)
    ensures var t := QueueCommand(s, c.cid, c.cmd, c.data);
            t.lock.cid in {0, s.lock.cid} && t.accepted == s.accepted + [c] && AcceptsForHolder(s, t)
  {
    hide QueueMessage, LockMessage;
    QueueMessageEffect(s.(accepted := s.accepted + [c]), c.cid, c.cmd, c.data);
    HolderChangesThroughFree(s.lock, c.cid, c.cmd, c.data);
    assert s.accepted + [Command(c.cid, c.cmd, c.data)] == s.accepted + [c];
  }

  lemma InvGivesLock(s: Hid)
    requires Inv(s) && s.alive
    ensures LockInv(s.lock)
  {
  }

  // ----- what becomes of a command

  /** The channel may send the command: nobody holds the lock, or it does, or it wants to get into step. */
  ghost predicate Entitled(lock: Lock, c: Command) {
    lock.cid in {0, c.cid} || c.cmd in {CMD_SYNC, CMD_INIT}
  }

  /** A working device takes every command of an entitled channel, as packets of that channel and nothing else, and
      answers any other with BUSY; a dead one takes nothing. */
  lemma LockDecides(s: Hid, c: Command)
    ensures var t := Step(s, Queue(c));
            if !s.alive then t == s
            else if Entitled(s.lock, c) then
              && t.accepted == s.accepted + [c] && t.txqueue == s.txqueue + Message(c.cid, c.cmd, c.data, 0)
              && t.lock == LockMessage(s.lock, c.cid, c.cmd, c.data)
              && t.published == s.published && t.alive
            else t == s.(published := s.published + [BusyPacket(c.cid)])
  {
    hide QueueMessage, Message, LockMessage;
    if s.alive {
      QueueMessageEffect(s.(accepted := s.accepted + [c]), c.cid, c.cmd, c.data);
      assert Command(c.cid, c.cmd, c.data) == c;
    }
  }

  /** The answers to the commands that were refused. */
  ghost function Refusals(es: seq<Event>): seq<Packet> {
    if es == [] then []
    else
      var n := |es| - 1;
      var s := Run(INITIAL, es[..n]);
      Refusals(es[..n])
      + if es[n].Queue? && s.alive && !Entitled(s.lock, es[n].command) then [BusyPacket(es[n].command.cid)] else []
  }

  /** In every run the driver itself tells the clients about each refused command, and in the end, once, that the device
      is gone. */
  lemma {:induction false} OwnPackets(es: seq<Event>)
    ensures var s := Run(INITIAL, es);
            s.published == Refusals(es) + if s.alive then [] else [GonePacket()]
  {
    if es != [] {
      hide Step;
      var n := |es| - 1;
      var s := Run(INITIAL, es[..n]);
      OwnPackets(es[..n]);
      if es[n].Queue? {
        LockDecides(s, es[n].command);
      } else {
        DeathIsPublished(s, es[n]);
      }
      assert s.published == Refusals(es[..n]) + if s.alive then [] else [GonePacket()];
      assert Refusals(es[..n]) + [] == Refusals(es[..n]);
    }
  }

  /** A device dies when it is destroyed, by force or because a transfer has failed. */
  lemma DeathIsPublished(s: Hid, e: Event)
    requires !e.Queue?
    ensures var t := Step(s, e);
            if s.alive && (e == ForceDestroy || (e == RunDestroy && s.tasks.destroy > 0)) then
              !t.alive && t.lock.timer.None? && t.published == s.published + [GonePacket()]
            else t.alive == s.alive && t.published == s.published
  {
  }

  /** A transfer that succeeds takes its packet off the queue, for the wire has it; one that fails leaves the queue as it
      is, and the device to be destroyed. */
  lemma TransferEnds(s: Hid, ok: bool)
    requires Inv(s) && s.tasks.sendDone > 0
    ensures var t := Step(s, Complete(ok));
            if ok then
              && t.sent == s.sent + [s.txqueue[0]] == t.wire && t.txqueue == s.txqueue[1..] && !t.failed
              && t.tasks == s.tasks.(sendDone := 0, pump := if t.txqueue == [] then 0 else 1)
            else
              && t.txqueue == s.txqueue && t.sent == s.sent && t.failed
              && t.tasks == s.tasks.(sendDone := 0, destroy := s.tasks.destroy + 1)
  {
    hide Packets, LockInv;
  }

  /** Nothing but a timer, a command or the end of the device changes the lock, and a timer changes nothing else. */
  lemma LockChanges(s: Hid, e: Event)
    ensures e.LockTimer? ==> Step(s, e) == s.(lock := Expire(s.lock, e.t))
    ensures e.Complete? || e == RunPump ==> Step(s, e).lock == s.lock
    ensures e == RunDestroy ==> Step(s, e).tasks == s.tasks.(destroy := if s.tasks.destroy > 0 then s.tasks.destroy - 1 else 0)
  {
  }

  // ----- the buffer of `queueCommand`

  /** The bytes before the payload: seven in the first packet, five in the others. */
  ghost function Header(cid: int32, cmd: byte, number: nat, length: nat, base: nat): seq<byte> {
    CidBytes(cid) + if base == 0 then [cmd, length / 256 % 256, length % 256] else [number % 256]
  }

  ghost function HeaderSize(base: nat): nat { if base == 0 then 7 else 5 }

  ghost predicate Buffer(f: seq<byte>, header: seq<byte>, d: seq<byte>) {
    |header| + |d| <= 64 && f == header + Padded(d, 64 - |header|, 0)
  }

  lemma BufferStep(f: seq<byte>, header: seq<byte>, d: seq<byte>, b: byte)
    requires Buffer(f, header, d) && |header| + |d| < 64
    ensures |f| == 64 && Buffer(f[|header| + |d| := b], header, d + [b])
  {
  }

  /** What is left to do when the buffer in use holds the bytes from `base` on. */
  ghost function Remaining(s: Hid, cid: int32, cmd: byte, number: nat, data: seq<byte>, base: nat): Hid
    requires base <= |data|
  {
    if base == 0 then QueueMessage(s, cid, cmd, data) else QueueConts(s, cid, number, data[base..], LockArg(data))
  }

  /** A buffer that is full, or holds the last bytes, is the next packet of the message. */
  lemma PacketFull(s: Hid, cid: int32, cmd: byte, number: nat, data: seq<byte>, base: nat, f: seq<byte>, end: nat)
    requires base <= end <= |data| && (base > 0 ==> base < end) && (base == 0 ==> number == cmd)
    requires Buffer(f, Header(cid, cmd, number, |data|, base), data[base..end])
    requires HeaderSize(base) + end - base == 64 || end == |data|
    ensures |f| == 64
    ensures Remaining(s, cid, cmd, number, data, base)
         == QueueConts(QueueFrame(s, f, cid, number, LockArg(data)), cid, if base == 0 then 0 else number + 1,
                       data[end..], LockArg(data))
  {
    hide QueueFrame, CidBytes;
    if base == 0 {
      assert Head(data, INIT_DATA) == data[base..end];
      assert Rest(data, INIT_DATA) == data[end..];
      assert f == InitPacket(cid, cmd, data, 0);
    } else {
      var rest := data[base..];
      assert Head(rest, CONT_DATA) == data[base..end];
      assert Rest(rest, CONT_DATA) == data[end..];
      assert f == ContPacket(cid, number, rest, 0);
    }
  }

  lemma NothingLeft(s: Hid, cid: int32, k: nat, arg: byte)
    ensures QueueConts(s, cid, k, [], arg) == s
  {
  }

  // ----- the driver

  class HidGnubbyDevice {
    var dev: bool                // the connection; false once destroyed
    var txqueue: seq<Packet>
    var lockCID: int32
    var lockMillis: nat
    var lockTID: Option<nat>

    // the world around the driver
    var timers: set<nat>
    var nextTimer: nat
    var tasks: Tasks
    var wire: seq<Packet>
    var published: seq<Packet>
    ghost var failed: bool
    ghost var sent: seq<Packet>
    ghost var accepted: seq<Command>

    ghost function LockState(): Lock
      reads `lockCID, `lockMillis, `lockTID, `timers, `nextTimer
    {
      Lock(lockCID, lockMillis, lockTID, timers, nextTimer)
    }

    ghost function State(): Hid
      reads this
    {
      Hid(dev, LockState(), txqueue, tasks, failed, sent, wire, published, accepted)
    }

    constructor ()
      ensures State() == INITIAL
    {
      dev, txqueue, lockCID, lockMillis, lockTID := true, [], 0, 0, None;
      timers, nextTimer, tasks, wire, published := {}, 1, Tasks(0, 0, 0), [], [];
      failed, sent, accepted := false, [], [];
    }

    method MayQueue(cid: int32, cmd: byte) returns (ok: bool)
      modifies this
      ensures ok == CheckLock(old(LockState()), cid, cmd)
      ensures State() == if ok then old(State())
                         else old(State()).(published := old(published) + [BusyPacket(cid)])
    {
      if lockCID != 0 && lockCID != cid {
        if cmd != CMD_SYNC && cmd != CMD_INIT {
          published := published + [BusyPacket(cid)];
          return false;
        }
      }
      return true;
    }

    method TouchLock(cid: int32, cmd: nat, arg: byte)
      modifies `lockCID, `lockMillis, `lockTID, `timers, `nextTimer
      ensures LockState() == UpdateLock(old(LockState()), cid, cmd, arg)
    {
      if lockCID == 0 || lockCID == cid {
        if lockTID.Some? {
          timers, lockTID := timers - {lockTID.value}, None;
        }
        if cmd == CMD_LOCK {
          if arg != 0 {
            lockCID := cid;
            lockMillis := 1000 * (arg as int) + 100;
          } else {
            lockCID := 0;
          }
        }
        if lockCID != 0 {
          lockTID, timers, nextTimer := Some(nextTimer), timers + {nextTimer}, nextTimer + 1;
        }
      }
    }

    method StartWrite()
      modifies this
      ensures State() == WritePump(old(State()))
    {
      if !dev || |txqueue| == 0 {
        return;
      }
      wire := wire + [txqueue[0]];
      tasks := tasks.(sendDone := tasks.sendDone + 1);
    }

    method PushFrame(p: Packet, cid: int32, cmd: nat, arg: byte)
      modifies this
      ensures State() == QueueFrame(old(State()), p, cid, cmd, arg)
    {
      TouchLock(cid, cmd, arg);
      var wasEmpty := |txqueue| == 0;
      txqueue := txqueue + [p];
      if wasEmpty {
        StartWrite();
      }
    }

    method SendCommand(cid: int32, cmd: byte, data: seq<byte>)
      modifies this
      ensures State() == Step(old(State()), Queue(Command(cid, cmd, data)))
    {
      if !dev {
        return;
      }
      var ok := MayQueue(cid, cmd);
      if !ok {
        return;
      }
      accepted := accepted + [Command(cid, cmd, data)];
      Fragment(cid, cmd, data);
    }

    /** The loop of `queueCommand`: the bytes are copied into one 64-byte buffer after another. */
    method Fragment(cid: int32, cmd: byte, data: seq<byte>)
      modifies this
      ensures State() == QueueMessage(old(State()), cid, cmd, data)
    {
      hide QueueFrame, CidBytes, QueueMessage, QueueConts, Buffer;
      var lockArg := if |data| > 0 then data[0] else 0;
      ghost var base := 0;  // where the bytes of the buffer start
      var number: nat := cmd;
      var f := NewBuffer(cid, [cmd, |data| / 256 % 256, |data| % 256]);
      var n: int, seqno: int := 7, 0;
      assert data[0..0] == [];
      for i := 0 to |data|
        invariant 0 <= base <= i && n == HeaderSize(base) + i - base < 64
        invariant fresh(f) && f.Length == 64
        invariant Buffer(f[..], Header(cid, cmd, number, |data|, base), data[base..i])
        invariant if base == 0 then number == cmd && seqno == 0 else number + 1 == seqno
        invariant Remaining(State(), cid, cmd, number, data, base) == Remaining(old(State()), cid, cmd, cmd, data, 0)
      {
        BufferStep(f[..], Header(cid, cmd, number, |data|, base), data[base..i], data[i]);
        assert data[base..i] + [data[i]] == data[base..i + 1];
        f[n] := data[i];
        n := n + 1;
        if n == f.Length {
          PacketFull(State(), cid, cmd, number, data, base, f[..], i + 1);
          PushFrame(f[..], cid, number, lockArg);
          number := seqno;
          f := NewBuffer(cid, [seqno % 256]);
          seqno, n, base := seqno + 1, 5, i + 1;
          assert data[i + 1..i + 1] == [];
        }
      }
      assert data[|data|..] == [];
      NothingLeft(State(), cid, number, lockArg);
      if n != 5 {
        PacketFull(State(), cid, cmd, number, data, base, f[..], |data|);
        PushFrame(f[..], cid, number, lockArg);
        NothingLeft(State(), cid, if base == 0 then 0 else number + 1, lockArg);
      }
    }

    static method NewBuffer(cid: int32, fields: seq<byte>) returns (f: array<byte>)
      requires |fields| <= 60
      ensures fresh(f) && f.Length == 64 && Buffer(f[..], CidBytes(cid) + fields, [])
    {
      f := new byte[64](_ => 0);
      SetCid(f, cid);
      for k := 0 to |fields|
        invariant f[..] == CidBytes(cid) + fields[..k] + seq(60 - k, _ => 0)
      {
        f[4 + k] := fields[k];
      }
    }

    static method SetCid(f: array<byte>, cid: int32)
      requires f.Length == 64
      modifies f
      ensures f[..] == CidBytes(cid) + old(f[4..])
    {
      var u := ToUint32(cid);
      f[0] := u / 0x100_0000;
      f[1] := u / 0x1_0000 % 256;
      f[2] := u / 0x100 % 256;
      f[3] := u % 256;
    }

    method Destroy()
      modifies this
      ensures State() == Step(old(State()), ForceDestroy)
    {
      if !dev {
        return;
      }
      published := published + [GonePacket()];
      if lockTID.Some? {
        timers, lockTID := timers - {lockTID.value}, None;
      }
      dev := false;
    }

    /** The callback of chrome.hid.send; `ok` when there is no lastError. */
    method SendComplete(ok: bool)
      requires tasks.sendDone > 0
      modifies this
      ensures State() == TransferComplete(old(State()), ok)
    {
      tasks := tasks.(sendDone := tasks.sendDone - 1);
      if !ok {
        tasks := tasks.(destroy := tasks.destroy + 1);
        failed := true;
        return;
      }
      if txqueue != [] {
        sent := sent + [txqueue[0]];
        txqueue := txqueue[1..];
        if |txqueue| != 0 {
          tasks := tasks.(pump := tasks.pump + 1);
        }
      }
    }

    method DelayedPump()
      requires tasks.pump > 0
      modifies this
      ensures State() == Step(old(State()), RunPump)
    {
      tasks := tasks.(pump := tasks.pump - 1);
      StartWrite();
    }

    method DelayedDestroy()
      requires tasks.destroy > 0
      modifies this
      ensures State() == Step(old(State()), RunDestroy)
    {
      tasks := tasks.(destroy := tasks.destroy - 1);
      Destroy();
    }

    /** The callback of a lock timer. */
    method LockExpired(t: nat)
      requires t in timers
      modifies this
      ensures State() == Step(old(State()), LockTimer(t))
    {
      timers := timers - {t};
      lockTID := None;
      lockCID := 0;
    }
  }
}
