/** The driver over chrome.usb: one request on the wire at a time, its reply read before the next. */
module UsbDriver {
  import opened Words
  import opened Framing
  import opened ChannelLock

  /** How many of each continuation are outstanding: the two ends of transfers, what they schedule, and a
      delayed `destroy`. */
  datatype Tasks = Tasks(outDone: nat, readReply: nat, inDone: nat, nextRequest: nat, destroy: nat)

  datatype Command = Command(cid: int32, cmd: byte, data: seq<byte>)

  /** `threw` records that one of the two throws was reached. */
  datatype Usb = Usb(alive: bool, updating: bool, lock: Lock, txqueue: seq<seq<byte>>, inPending: bool, outPending: bool,
                     tasks: Tasks, threw: bool, failed: bool,
                     sent: seq<seq<byte>>, wire: seq<seq<byte>>, published: seq<seq<byte>>, accepted: seq<Command>)

  const INITIAL: Usb := Usb(true, false, UNLOCKED, [], false, false, Tasks(0, 0, 0, 0, 0), false, false, [], [], [], [])

  function Request(c: Command): seq<byte> {
    CidBytes(c.cid) + [c.cmd, |c.data| / 256 % 256, |c.data| % 256] + c.data
  }

  // ----- the effect of each method

  function WriteOneRequest(s: Usb): Usb {
    if !s.alive || s.txqueue == [] then s
    else if s.outPending then s.(threw := true)
    else s.(outPending := true, wire := s.wire + [s.txqueue[0]], tasks := s.tasks.(outDone := s.tasks.outDone + 1))
  }

  function ReadOneReply(s: Usb): Usb {
    if !s.alive || s.updating then s
    else if s.inPending then s.(threw := true)
    else s.(inPending := true, tasks := s.tasks.(inDone := s.tasks.inDone + 1))
  }

  function Fail(s: Usb): Usb {
    s.(failed := true, tasks := s.tasks.(destroy := s.tasks.destroy + 1))
  }

  function OutComplete(s: Usb, ok: bool): Usb
    requires s.tasks.outDone > 0
  {
    var s1 := s.(outPending := false, tasks := s.tasks.(outDone := s.tasks.outDone - 1));
    if !s.alive then s1 else if !ok then Fail(s1) else s1.(tasks := s1.tasks.(readReply := s1.tasks.readReply + 1))
  }

  /** `reply` is None when the transfer failed or brought no data. */
  function InComplete(s: Usb, reply: Option<seq<byte>>): Usb
    requires s.tasks.inDone > 0
  {
    var s1 := s.(inPending := false, tasks := s.tasks.(inDone := s.tasks.inDone - 1));
    if !s.alive then s1
    else match reply
         case None => Fail(s1)
         case Some(p) => s1.(published := s.published + [p], tasks := s1.tasks.(nextRequest := s1.tasks.nextRequest + 1))
  }

  function AfterReply(s: Usb): Usb
    requires s.tasks.nextRequest > 0
  {
    var s1 := s.(tasks := s.tasks.(nextRequest := s.tasks.nextRequest - 1));
    var s2 := if s.txqueue == [] then s1 else s1.(sent := s.sent + [s.txqueue[0]], txqueue := s.txqueue[1..]);
    WriteOneRequest(s2)
  }

  function QueueCommand(s: Usb, c: Command): Usb {
    if !s.alive then s
    else if !CheckLock(s.lock, c.cid, c.cmd) then s.(published := s.published + [BusyPacket(c.cid)])
    else AcceptCommand(s, c)
  }

  function AcceptCommand(s: Usb, c: Command): Usb {
    var s1 := s.(accepted := s.accepted + [c], lock := UpdateLock(s.lock, c.cid, c.cmd, LockArg(c.data)),
                 txqueue := s.txqueue + [Request(c)]);
    if s.txqueue == [] then WriteOneRequest(s1) else s1
  }

  function DestroyDevice(s: Usb): Usb {
    if !s.alive then s
    else s.(alive := false, lock := ClearTimer(s.lock), published := s.published + [GonePacket()])
  }

  // ----- runs

  datatype Event =
    | Queue(command: Command)
    | OutEnds(ok: bool)
    | InEnds(reply: Option<seq<byte>>)
    | RunRead
    | RunNext
    | RunDestroy
    | ForceDestroy
    | StartUpdate
    | LockTimer(t: nat)

  /** An event that is not enabled changes nothing. */
  function Step(s: Usb, e: Event): Usb {
    match e
    case Queue(c) => QueueCommand(s, c)
    case OutEnds(ok) => if s.tasks.outDone > 0 then OutComplete(s, ok) else s
    case InEnds(reply) => if s.tasks.inDone > 0 then InComplete(s, reply) else s
    case RunRead => if s.tasks.readReply > 0 then ReadOneReply(s.(tasks := s.tasks.(readReply := s.tasks.readReply - 1))) else s
    case RunNext => if s.tasks.nextRequest > 0 then AfterReply(s) else s
    case RunDestroy => if s.tasks.destroy > 0 then DestroyDevice(s.(tasks := s.tasks.(destroy := s.tasks.destroy - 1))) else s
    case ForceDestroy => DestroyDevice(s)
    case StartUpdate => s.(updating := true)
    case LockTimer(t) => s.(lock := Expire(s.lock, t))
  }

  function Run(s: Usb, es: seq<Event>): Usb {
    if es == [] then s else Step(Run(s, es[..|es| - 1]), es[|es| - 1])
  }

  function Requests(cs: seq<Command>): (r: seq<seq<byte>>)
    ensures |r| == |cs| && forall i :: 0 <= i < |cs| ==> r[i] == Request(cs[i])
  {
    seq(|cs|, i requires 0 <= i < |cs| => Request(cs[i]))
  }

  function Outstanding(s: Usb): nat {
    s.tasks.outDone + s.tasks.readReply + s.tasks.inDone + s.tasks.nextRequest
  }

  /** At most one transfer or continuation is outstanding, and while the device works, exactly one if and
      only if the queue is not empty; the flags say which transfer it is, and neither throw is reached. */
  ghost predicate EngineInv(s: Usb) {
    && !s.threw
    && Outstanding(s) <= 1
    && (s.outPending <==> s.tasks.outDone > 0)
    && (s.inPending <==> s.tasks.inDone > 0)
    && (s.alive ==> (s.failed <==> s.tasks.destroy > 0))
    && (s.alive && s.txqueue == [] ==> Outstanding(s) == 0 && !s.failed)
    && (s.failed ==> Outstanding(s) == 0)
    && (s.alive && !s.failed && !s.updating && s.txqueue != [] ==> Outstanding(s) == 1)
  }

  /** Every accepted request, once, in order: the head of the queue is on the wire already. */
  ghost predicate WireInv(s: Usb) {
    && s.sent + s.txqueue == Requests(s.accepted)
    && s.wire <= s.sent + s.txqueue
    && (s.alive ==> s.wire == s.sent + if s.txqueue == [] then [] else [s.txqueue[0]])
  }

  ghost predicate Inv(s: Usb) {
    && EngineInv(s) && WireInv(s)
    && (s.alive ==> LockInv(s.lock))
  }

  lemma OutKeepsInv(s: Usb, ok: bool)
    requires EngineInv(s) && WireInv(s) && s.tasks.outDone > 0
    ensures EngineInv(OutComplete(s, ok)) && WireInv(OutComplete(s, ok))
  {
    hide UpdateLock, Request, Requests;
  }

  lemma InKeepsInv(s: Usb, reply: Option<seq<byte>>)
    requires EngineInv(s) && WireInv(s) && s.tasks.inDone > 0
    ensures EngineInv(InComplete(s, reply)) && WireInv(InComplete(s, reply))
  {
    hide UpdateLock, Request, Requests;
  }

  lemma ReadKeepsInv(s: Usb)
    requires EngineInv(s) && WireInv(s) && s.tasks.readReply > 0
    ensures EngineInv(ReadOneReply(s.(tasks := s.tasks.(readReply := s.tasks.readReply - 1)))) && WireInv(ReadOneReply(s.(tasks := s.tasks.(readReply := s.tasks.readReply - 1))))
  {
    hide UpdateLock, Request, Requests;
  }

  lemma NextKeepsInv(s: Usb)
    requires EngineInv(s) && WireInv(s) && s.tasks.nextRequest > 0
    ensures EngineInv(AfterReply(s)) && WireInv(AfterReply(s))
  {
    hide UpdateLock, Request, Requests;
    if s.txqueue != [] {
      assert s.sent + s.txqueue == s.sent + [s.txqueue[0]] + s.txqueue[1..];
    }
  }

  lemma QueueKeepsInv(s: Usb, c: Command)
    requires EngineInv(s) && WireInv(s)
    ensures EngineInv(QueueCommand(s, c)) && WireInv(QueueCommand(s, c))
  {
    hide UpdateLock, Request;
    assert s.sent + (s.txqueue + [Request(c)]) == s.sent + s.txqueue + [Request(c)];
  }

  lemma StepKeepsEngine(s: Usb, e: Event)
    requires EngineInv(s) && WireInv(s)
    ensures EngineInv(Step(s, e)) && WireInv(Step(s, e))
  {
    hide OutComplete, InComplete, ReadOneReply, AfterReply, QueueCommand, Requests;
    match e
    case Queue(c) => QueueKeepsInv(s, c);
    case OutEnds(ok) => if s.tasks.outDone > 0 { OutKeepsInv(s, ok); }
    case InEnds(reply) => if s.tasks.inDone > 0 { InKeepsInv(s, reply); }
    case RunRead => if s.tasks.readReply > 0 { ReadKeepsInv(s); }
    case RunNext => if s.tasks.nextRequest > 0 { NextKeepsInv(s); }
    case _ =>
  }

  lemma StepKeepsLock(s: Usb, e: Event)
    requires s.alive && LockInv(s.lock)
    ensures Step(s, e).alive ==> LockInv(Step(s, e).lock)
    ensures s.lock.cid != 0 ==> Step(s, e).lock.cid in {0, s.lock.cid}
  {
    hide UpdateLock, Request;
    if e.Queue? {
      UpdateLockKeepsInv(s.lock, e.command.cid, e.command.cmd, LockArg(e.command.data));
    }
  }

  /** In every run neither throw is reached, and the wire carries the accepted requests in order. */
  lemma {:induction false} RunKeepsInv(es: seq<Event>)
    ensures Inv(Run(INITIAL, es))
  {
    hide Inv, Step;
    if es == [] {
      InitialInv();
    } else {
      RunKeepsInv(es[..|es| - 1]);
      StepKeepsInv(Run(INITIAL, es[..|es| - 1]), es[|es| - 1]);
    }
  }

  lemma InitialInv()
    ensures Inv(INITIAL)
  {
  }

  lemma StepKeepsInv(s: Usb, e: Event)
    requires Inv(s)
    ensures Inv(Step(s, e))
  {
    hide EngineInv, WireInv, LockInv, Step;
    StepKeepsEngine(s, e);
    if s.alive {
      StepKeepsLock(s, e);
    }
    DeadStaysDead(s, e);
  }

  lemma DeadStaysDead(s: Usb, e: Event)
    ensures Step(s, e).alive ==> s.alive
  {
    hide UpdateLock, Request;
  }

  /** While a channel holds the lock, one event queues nothing but a request of that channel or a SYNC or
      INIT, and can only leave the lock where it is or free it. */
  lemma LockSafety(es: seq<Event>, e: Event)
    ensures var s, t := Run(INITIAL, es), Step(Run(INITIAL, es), e);
            s.alive && s.lock.cid != 0 ==>
              && (t.alive ==> t.lock.cid in {0, s.lock.cid})
              && (t.accepted == s.accepted
                  || (e.Queue? && t.accepted == s.accepted + [e.command]
                      && (e.command.cid == s.lock.cid || e.command.cmd in {CMD_SYNC, CMD_INIT})))
  {
    var s := Run(INITIAL, es);
    RunKeepsInv(es);
    if s.alive {
      AcceptedByLock(s, e);
      hide Step, EngineInv, WireInv, Run, LockInv;
      StepKeepsLock(s, e);
    }
  }

  lemma AcceptedByLock(s: Usb, e: Event)
    requires s.alive
    ensures var t := Step(s, e);
            || t.accepted == s.accepted
            || (e.Queue? && t.accepted == s.accepted + [e.command] && CheckLock(s.lock, e.command.cid, e.command.cmd))
  {
    hide QueueCommand, CheckLock;
    if e.Queue? {
      QueueAccepts(s, e.command);
    }
  }

  lemma QueueAccepts(s: Usb, c: Command)
    ensures QueueCommand(s, c).accepted
         == if s.alive && CheckLock(s.lock, c.cid, c.cmd) then s.accepted + [c] else s.accepted
  {
    hide UpdateLock, Request, CheckLock;
  }

  // ----- what becomes of a command, and of a reply

  /** The channel may send the command: nobody holds the lock, or it does, or it wants to get into step. */
  ghost predicate Entitled(lock: Lock, c: Command) {
    lock.cid in {0, c.cid} || c.cmd in {CMD_SYNC, CMD_INIT}
  }

  /** A working device takes every command of an entitled channel, as one request, and answers any other with BUSY; a dead
      one takes nothing. */
  lemma LockDecides(s: Usb, c: Command)
    ensures var t := Step(s, Queue(c));
            if !s.alive then t == s
            else if Entitled(s.lock, c) then
              && t.accepted == s.accepted + [c] && t.txqueue == s.txqueue + [Request(c)]
              && t.lock == UpdateLock(s.lock, c.cid, c.cmd, LockArg(c.data))
              && t.published == s.published && t.alive
            else t == s.(published := s.published + [BusyPacket(c.cid)])
  {
    hide UpdateLock, Request, BusyPacket;
  }

  /** The command that the device reads in a request. */
  ghost function Parse(r: seq<byte>): Command
    requires |r| >= 7
  {
    var length := 256 * (r[5] as int) + r[6];
    Command(CidOf(r + [0]), r[4], r[7..][..Min(length, |r| - 7)])
  }

  /** The device finds the same command in a request, exactly if its payload has at most 65535 bytes. */
  lemma RequestIsRead(c: Command)
    ensures Parse(Request(c)) == c <==> |c.data| < 0x1_0000
  {
    hide CidBytes, CidOf;
    var r := Request(c);
    CidRoundTrip(c.cid, r + [0]);
    assert r[7..] == c.data;
  }

  /** What the clients are told, event by event: the replies that were read, and the answers to refused commands. */
  ghost function Told(es: seq<Event>): seq<seq<byte>> {
    if es == [] then []
    else
      var n := |es| - 1;
      var s, e := Run(INITIAL, es[..n]), es[n];
      Told(es[..n])
      + if !s.alive then []
        else if e.Queue? && !Entitled(s.lock, e.command) then [BusyPacket(e.command.cid)]
        else if e.InEnds? && s.tasks.inDone > 0 && e.reply.Some? then [e.reply.value]
        else []
  }

  /** In every run the clients get each reply that is read from a working device, and each refusal, in order, and in the end,
      once, the news that the device is gone. */
  lemma {:induction false} RepliesArePublished(es: seq<Event>)
    ensures var s := Run(INITIAL, es);
            s.published == Told(es) + if s.alive then [] else [GonePacket()]
  {
    if es != [] {
      hide Step;
      var n := |es| - 1;
      var s := Run(INITIAL, es[..n]);
      RepliesArePublished(es[..n]);
      if es[n].Queue? {
        LockDecides(s, es[n].command);
      } else {
        PublishedByEvent(s, es[n]);
      }
      assert Told(es[..n]) + [] == Told(es[..n]);
    }
  }

  lemma PublishedByEvent(s: Usb, e: Event)
    requires !e.Queue?
    ensures var t := Step(s, e);
            if s.alive && (e == ForceDestroy || (e == RunDestroy && s.tasks.destroy > 0)) then
              !t.alive && t.lock.timer.None? && t.published == s.published + [GonePacket()]
            else
              && t.alive == s.alive
              && t.published == s.published + if s.alive && e.InEnds? && s.tasks.inDone > 0 && e.reply.Some? then [e.reply.value] else []
    ensures e == RunDestroy ==> Step(s, e).tasks == s.tasks.(destroy := if s.tasks.destroy > 0 then s.tasks.destroy - 1 else 0)
  {
    hide Request, InComplete, OutComplete, ReadOneReply, WriteOneRequest, AfterReply;
    assert s.published + [] == s.published;
    match e
    case InEnds(reply) =>
      if s.tasks.inDone > 0 {
        ReplyIsPublished(s, reply);
      }
    case OutEnds(_) => PublishesNothing(s);
    case RunRead => PublishesNothing(s.(tasks := s.tasks.(readReply := if s.tasks.readReply > 0 then s.tasks.readReply - 1 else 0)));
    case RunNext => PublishesNothing(s);
    case _ =>
  }

  lemma ReplyIsPublished(s: Usb, reply: Option<seq<byte>>)
    requires s.tasks.inDone > 0
    ensures var t := InComplete(s, reply);
            t.alive == s.alive && t.published == s.published + if s.alive && reply.Some? then [reply.value] else []
  {
    assert s.published + [] == s.published;
  }

  lemma PublishesNothing(s: Usb)
    ensures ReadOneReply(s).alive == s.alive && ReadOneReply(s).published == s.published
    ensures s.tasks.nextRequest > 0 ==> AfterReply(s).alive == s.alive && AfterReply(s).published == s.published
    ensures s.tasks.outDone > 0 ==> forall ok :: OutComplete(s, ok).alive == s.alive && OutComplete(s, ok).published == s.published
  {
  }

  /** The two throws, for any state: a transfer is to start while another of its kind is pending. */
  lemma ThrowsIff(s: Usb)
    requires !s.threw
    ensures WriteOneRequest(s).threw <==> s.alive && s.txqueue != [] && s.outPending
    ensures ReadOneReply(s).threw <==> s.alive && !s.updating && s.inPending
  {
  }

  /** On a working device, a request that is out is followed by the reading of its reply, unless the device is being updated,
      and a reply by the next request; what fails leaves the device to be destroyed. */
  lemma OneAfterTheOther(s: Usb, e: Event)
    requires EngineInv(s) && WireInv(s) && s.alive && !s.failed && s.tasks.destroy == 0
    ensures var t, none := Step(s, e), Tasks(0, 0, 0, 0, 0);
            && (e.OutEnds? && s.tasks.outDone > 0 ==>
                  t.failed == !e.ok && t.tasks == if e.ok then none.(readReply := 1) else none.(destroy := 1))
            && (e == RunRead && s.tasks.readReply > 0 ==>
                  !t.failed && t.tasks == if s.updating then none else none.(inDone := 1))
            && (e.InEnds? && s.tasks.inDone > 0 ==>
                  t.failed == e.reply.None? && t.tasks == if e.reply.Some? then none.(nextRequest := 1) else none.(destroy := 1))
            && (e == RunNext && s.tasks.nextRequest > 0 ==>
                  && t.sent == s.sent + [s.txqueue[0]] && t.txqueue == s.txqueue[1..]
                  && t.tasks == if t.txqueue == [] then none else none.(outDone := 1))
            && (e == StartUpdate ==> t == s.(updating := true))
            && (e.LockTimer? ==> t == s.(lock := Expire(s.lock, e.t)))
  {
    hide UpdateLock, Request, Requests;
  }

  // ----- the driver

  class UsbGnubbyDevice {
    var dev: bool                // the connection; false once destroyed
    var updating: bool
    var txqueue: seq<seq<byte>>
    var lockCID: int32
    var lockMillis: nat
    var lockTID: Option<nat>
    var inTransferPending: bool
    var outTransferPending: bool

    // the world around the driver
    var timers: set<nat>
    var nextTimer: nat
    var tasks: Tasks
    var wire: seq<seq<byte>>
    var published: seq<seq<byte>>
    var threw: bool
    ghost var failed: bool
    ghost var sent: seq<seq<byte>>
    ghost var accepted: seq<Command>

    ghost function LockState(): Lock
      reads `lockCID, `lockMillis, `lockTID, `timers, `nextTimer
    {
      Lock(lockCID, lockMillis, lockTID, timers, nextTimer)
    }

    ghost function State(): Usb
      reads this
    {
      Usb(dev, updating, LockState(), txqueue, inTransferPending, outTransferPending, tasks, threw, failed,
          sent, wire, published, accepted)
    }

    constructor ()
      ensures State() == INITIAL
    {
      dev, updating, txqueue, lockCID, lockMillis, lockTID := true, false, [], 0, 0, None;
      inTransferPending, outTransferPending, threw := false, false, false;
      timers, nextTimer, tasks, wire, published := {}, 1, Tasks(0, 0, 0, 0, 0), [], [];
      failed, sent, accepted := false, [], [];
    }

    method SendCommand(cid: int32, cmd: byte, data: seq<byte>)
      modifies this
      ensures State() == QueueCommand(old(State()), Command(cid, cmd, data))
    {
      hide AcceptCommand, BusyPacket, CheckLock;
      if !dev {
        return;
      }
      var ok := MayQueue(cid, cmd);
      if !ok {
        return;
      }
      Accept(cid, cmd, data);
    }

    /** The rest of `queueCommand`, for a request that the lock allows. */
    method Accept(cid: int32, cmd: byte, data: seq<byte>)
      modifies this
      ensures State() == AcceptCommand(old(State()), Command(cid, cmd, data))
    {
      hide Request, UpdateLock, WriteOneRequest;
      var frame := Request(Command(cid, cmd, data));
      var lockArg := if |data| > 0 then data[0] else 0;
      accepted := accepted + [Command(cid, cmd, data)];
      TouchLock(cid, cmd, lockArg);
      var wasEmpty := |txqueue| == 0;
      txqueue := txqueue + [frame];
      if wasEmpty {
        StartWrite();
      }
    }

    /** `checkLock_`, which answers a request that the lock forbids. */
    method MayQueue(cid: int32, cmd: byte) returns (ok: bool)
      modifies `published
      ensures ok == CheckLock(old(LockState()), cid, cmd)
      ensures published == if ok then old(published) else old(published) + [BusyPacket(cid)]
    {
      hide BusyPacket;
      if lockCID != 0 && lockCID != cid && cmd != CMD_SYNC && cmd != CMD_INIT {
        published := published + [BusyPacket(cid)];
        return false;
      }
      ok := true;
    }

    method TouchLock(cid: int32, cmd: nat, arg: byte)
      modifies `lockCID, `lockMillis, `lockTID, `timers, `nextTimer
      ensures LockState() == UpdateLock(old(LockState()), cid, cmd, arg)
    {
      if lockCID == 0 || lockCID == cid {
        if lockTID.Some? {
          timers, lockTID := timers - {lockTID.value}, None;
        }
        if cmd == CMD_LOCK {
          if arg != 0 {
            lockCID := cid;
            lockMillis := 1000 * (arg as int) + 100;
          } else {
            lockCID := 0;
          }
        }
        if lockCID != 0 {
          lockTID, timers, nextTimer := Some(nextTimer), timers + {nextTimer}, nextTimer + 1;
        }
      }
    }

    method StartWrite()
      modifies `outTransferPending, `wire, `tasks, `threw
      ensures State() == WriteOneRequest(old(State()))
    {
      if !dev || |txqueue| == 0 {
        return;
      }
      if !outTransferPending {
        outTransferPending := true;
        wire := wire + [txqueue[0]];
        tasks := tasks.(outDone := tasks.outDone + 1);
      } else {
        threw := true;
      }
    }

    method OutTransferComplete(ok: bool)
      requires tasks.outDone > 0
      modifies `outTransferPending, `failed, `tasks
      ensures State() == OutComplete(old(State()), ok)
    {
      tasks := tasks.(outDone := tasks.outDone - 1);
      outTransferPending := false;
      if !dev {
        return;
      }
      if !ok {
        failed, tasks := true, tasks.(destroy := tasks.destroy + 1);
        return;
      }
      tasks := tasks.(readReply := tasks.readReply + 1);
    }

    method StartRead()
      requires tasks.readReply > 0
      modifies this
      ensures State() == Step(old(State()), RunRead)
    {
      tasks := tasks.(readReply := tasks.readReply - 1);
      if !dev || updating {
        return;
      }
      if !inTransferPending {
        inTransferPending := true;
        tasks := tasks.(inDone := tasks.inDone + 1);
      } else {
        threw := true;
      }
    }

    method InTransferComplete(reply: Option<seq<byte>>)
      requires tasks.inDone > 0
      modifies `inTransferPending, `failed, `tasks, `published
      ensures State() == InComplete(old(State()), reply)
    {
      tasks := tasks.(inDone := tasks.inDone - 1);
      inTransferPending := false;
      if !dev {
        return;
      }
      match reply
      case None => failed, tasks := true, tasks.(destroy := tasks.destroy + 1);
      case Some(p) =>
        published := published + [p];
        tasks := tasks.(nextRequest := tasks.nextRequest + 1);
    }

    method WriteNext()
      requires tasks.nextRequest > 0
      modifies `outTransferPending, `wire, `tasks, `threw, `sent, `txqueue
      ensures State() == AfterReply(old(State()))
    {
      tasks := tasks.(nextRequest := tasks.nextRequest - 1);
      if txqueue != [] {
        sent := sent + [txqueue[0]];
        txqueue := txqueue[1..];
      }
      StartWrite();
    }

    method Destroy()
      modifies this
      ensures State() == DestroyDevice(old(State()))
    {
      if !dev {
        return;
      }
      published := published + [GonePacket()];
      if lockTID.Some? {
        timers, lockTID := timers - {lockTID.value}, None;
      }
      dev := false;
    }
  }
}
