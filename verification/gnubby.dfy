/** A client of a device: one read, driven by arriving frames, scheduled continuations and a timer. */
module GnubbyClient {
  import opened Words
  import opened Framing
  import opened ChannelLock

  /** Which of its two continuations a read waits with. */
  datatype Kont = InitFrame | ContFrame

  datatype Konts = Konts(init: nat, cont: nat)

  /** A read.  `tid`: the timeout timer runs.  `waiting`: the callback has not been scheduled. */
  datatype Read = Read(cmd: byte, tid: bool, waiting: bool, phase: Phase)

  /** What came of the read: scheduled and made calls of its callback, whether it timed out, whether `readFrame_`
      found an empty queue, the frames it has read and the frames queued since it began. */
  datatype Log = Log(due: seq<Reply>, calls: seq<Reply>, timedOut: bool, threw: bool,
                     consumed: seq<Packet>, arrived: seq<Packet>)

  datatype Client = Client(cid: int32, dev: bool, closed: bool, closing: bool, commandPending: bool,
                           rxframes: seq<Packet>, rxcb: Option<Kont>, konts: Konts, read: Read, log: Log)

  // ----- the effect of each method

  function Schedule(g: Client, k: Kont): Client {
    match k
    case InitFrame => g.(konts := g.konts.(init := g.konts.init + 1))
    case ContFrame => g.(konts := g.konts.(cont := g.konts.cont + 1))
  }

  function NotifyFrame(g: Client, k: Kont): Client {
    if g.rxframes != [] then Schedule(g, k) else g.(rxcb := Some(k))
  }

  function ReceivedFrame(g: Client, p: Packet): Client {
    if g.closed || !ForChannel(g.cid, p) then g
    else
      var g1 := g.(rxframes := g.rxframes + [p], log := g.log.(arrived := g.log.arrived + [p]), rxcb := None);
      if g.rxcb.Some? then Schedule(g1, g.rxcb.value) else g1
  }

  function Close(g: Client): Client {
    if g.dev then g.(closed := true, rxframes := [], rxcb := None, dev := false) else g.(closed := true)
  }

  /** `schedule_cb`; the progress of the read is forgotten. */
  function ScheduleCb(g: Client, r: Reply): Client {
    var due := if g.read.waiting then g.log.due + [r] else g.log.due;
    var g1 := g.(commandPending := false, read := g.read.(tid := false, waiting := false, phase := Init),
                 log := g.log.(due := due));
    if g.closing then Close(g1) else g1
  }

  /** The device destroys itself: a GONE packet for everybody, then every client is closed. */
  function DeviceGone(g: Client): Client {
    ReceivedFrame(g, GonePacket()).(closed := true)
  }

  function ReadTimeout(g: Client): Client {
    if !g.read.waiting || !g.read.tid then g
    else
      var g1 := if g.dev then DeviceGone(g) else g;
      ScheduleCb(g1.(read := g1.read.(tid := false), log := g1.log.(timedOut := true)), Reply(-TIMEOUT, None))
  }

  /** The first queued frame has been read. */
  function Taken(g: Client): Client
    requires g.rxframes != []
  {
    g.(rxframes := g.rxframes[1..], log := g.log.(consumed := g.log.consumed + [g.rxframes[0]]))
  }

  /** The read has come to `ph`: it ends, or waits for the next frame. */
  function Reached(g: Client, ph: Phase): Client {
    match ph
    case Done(r) => ScheduleCb(g, r)
    case Init => NotifyFrame(g, InitFrame)
    case Cont(_, _, _) => NotifyFrame(g.(read := g.read.(phase := ph)), ContFrame)
  }

  /** `init_frame` or `cont_frame`, whichever the progress of the read calls for. */
  function ReadFrame(g: Client): Client
    requires Running(g.read.phase)
  {
    if !g.read.waiting || !g.read.tid then g
    else if g.rxframes == [] then g.(log := g.log.(threw := true))
    else
      var p, g1 := g.rxframes[0], Taken(g);
      Reached(if IsError(p) && p[7] == GONE then g1.(closed := true) else g1, Feed(g.read.phase, g.read.cmd, p))
  }

  function CloseWhenIdle(g: Client): Client {
    if !g.commandPending then Close(g) else g.(closing := true)
  }

  function BeginRead(g: Client, cmd: byte): Client {
    if g.closed || !g.dev then g.(log := g.log.(calls := g.log.calls + [Reply(-GONE, None)]))
    else NotifyFrame(FreshRead(g, cmd), InitFrame)
  }

  function FreshRead(g: Client, cmd: byte): Client {
    g.(read := Read(cmd, true, true, Init), log := g.log.(timedOut := false, consumed := [], arrived := g.rxframes))
  }

  /** A client with an open device that has sent its command; `left` are frames it has not read. */
  function Idle(cid: int32, left: seq<Packet>): Client {
    Client(cid, true, false, false, true, left, None, Konts(0, 0),
           Read(0, false, false, Init), Log([], [], false, false, [], left))
  }

  function Started(cid: int32, cmd: byte, left: seq<Packet>): Client {
    BeginRead(Idle(cid, left), cmd)
  }

  // ----- runs

  datatype Event =
    | Receive(p: Packet)
    | RunInit
    | RunCont
    | Timer
    | Deliver
    | CloseNow
    | CloseIdle
    | Gone

  /** An event that is not enabled changes nothing. */
  function Step(g: Client, e: Event): Client
    requires Running(g.read.phase)
  {
    match e
    case Receive(p) => ReceivedFrame(g, p)
    case RunInit => if g.konts.init > 0 then ReadFrame(g.(konts := g.konts.(init := g.konts.init - 1))) else g
    case RunCont => if g.konts.cont > 0 then ReadFrame(g.(konts := g.konts.(cont := g.konts.cont - 1))) else g
    case Timer => ReadTimeout(g)
    case Deliver => if g.log.due != [] then g.(log := g.log.(calls := g.log.calls + [g.log.due[0]], due := g.log.due[1..])) else g
    case CloseNow => Close(g)
    case CloseIdle => CloseWhenIdle(g)
    case Gone => DeviceGone(g)
  }

  /** Either a callback is registered and there are no frames, or one continuation is scheduled and there are. */
  ghost predicate Listening(phase: Phase, konts: Konts, rxframes: seq<Packet>, rxcb: Option<Kont>) {
    if rxcb.Some? then
      rxframes == [] && konts == Konts(0, 0) && (rxcb.value == if phase.Init? then InitFrame else ContFrame)
    else rxframes != [] && konts == if phase.Init? then Konts(1, 0) else Konts(0, 1)
  }

  /** The continuation that a waiting read has left, on an open client and on a closed one. */
  ghost predicate Scheduled(dev: bool, phase: Phase, konts: Konts, rxframes: seq<Packet>, rxcb: Option<Kont>) {
    if dev then Listening(phase, konts, rxframes, rxcb)
    else rxcb == None && konts.init + konts.cont <= 1 && (if phase.Init? then konts.cont == 0 else konts.init == 0)
  }

  /** What has been read is a prefix of what came, and the rest is queued unless `close` emptied the queue. */
  ghost predicate Queued(dev: bool, rxframes: seq<Packet>, consumed: seq<Packet>, arrived: seq<Packet>) {
    if dev then consumed + rxframes == arrived else consumed <= arrived && rxframes == []
  }

  /** The progress, or the outcome, is that of the reader on the frames read. */
  ghost predicate Progress(cmd: byte, consumed: seq<Packet>, waiting: bool, phase: Phase, timedOut: bool, replies: seq<Reply>) {
    && Running(phase) && !phase.Done?
    && |replies| == (if waiting then 0 else 1)
    && (if timedOut then replies == [Reply(-TIMEOUT, None)]
        else FeedAll(Init, cmd, consumed) == if waiting then phase else Done(replies[0]))
  }

  ghost predicate Inv(g: Client) {
    && Progress(g.read.cmd, g.log.consumed, g.read.waiting, g.read.phase, g.log.timedOut, g.log.calls + g.log.due)
    && Queued(g.dev, g.rxframes, g.log.consumed, g.log.arrived)
    && (g.read.waiting ==> Scheduled(g.dev, g.read.phase, g.konts, g.rxframes, g.rxcb))
    && (g.read.tid <==> g.read.waiting)
    && (g.log.timedOut ==> !g.read.waiting)
    && (!g.dev ==> g.closed)
    && (g.log.threw ==> !g.dev)
  }

  ghost predicate SameRead(g: Client, h: Client) {
    g.cid == h.cid && g.read.cmd == h.read.cmd
  }

  lemma ReceivedKeepsInv(g: Client, p: Packet)
    requires Inv(g)
    ensures Inv(ReceivedFrame(g, p)) && ReceivedFrame(g, p).cid == g.cid
    ensures var h := ReceivedFrame(g, p);
            h.read == g.read && h.dev == g.dev && h.log == g.log.(arrived := h.log.arrived)
  {
    hide Progress, ForChannel;
    assert g.log.consumed + (g.rxframes + [p]) == g.log.consumed + g.rxframes + [p];
  }

  lemma CloseKeepsInv(g: Client)
    requires Inv(g)
    ensures Inv(Close(g)) && SameRead(g, Close(g))
  {
    hide Progress;
  }

  lemma GoneKeepsInv(g: Client)
    requires Inv(g)
    ensures Inv(DeviceGone(g)) && DeviceGone(g).cid == g.cid
    ensures var h := DeviceGone(g);
            h.read == g.read && h.dev == g.dev && h.log == g.log.(arrived := h.log.arrived)
  {
    hide ReceivedFrame, Progress, Queued, Scheduled;
    ReceivedKeepsInv(g, GonePacket());
  }

  /** The read ends with `r`: the reply of the reader to what it has read, or a timeout. */
  lemma ScheduleKeepsInv(g: Client, r: Reply)
    requires g.read.waiting && g.log.due == [] && g.log.calls == [] && Queued(g.dev, g.rxframes, g.log.consumed, g.log.arrived)
    requires g.log.timedOut ==> r == Reply(-TIMEOUT, None)
    requires !g.log.timedOut ==> FeedAll(Init, g.read.cmd, g.log.consumed) == Done(r)
    requires (!g.dev ==> g.closed) && (g.log.threw ==> !g.dev)
    ensures Inv(ScheduleCb(g, r)) && SameRead(g, ScheduleCb(g, r))
  {
    hide FeedAll, Scheduled, Close, Queued;
    assert [] + ([] + [r]) == [r];
    var g1 := ScheduleCb(g.(closing := false), r).(closing := g.closing);
    if g.closing {
      CloseKeepsInv(g1);
    }
  }

  lemma TimeoutKeepsInv(g: Client)
    requires Inv(g)
    ensures Inv(ReadTimeout(g)) && SameRead(g, ReadTimeout(g))
  {
    hide FeedAll, Scheduled, Queued, ScheduleCb, DeviceGone;
    if g.read.waiting {
      var g1 := if g.dev then DeviceGone(g) else g;
      if g.dev {
        GoneKeepsInv(g);
      }
      ScheduleKeepsInv(g1.(read := g1.read.(tid := false), log := g1.log.(timedOut := true)), Reply(-TIMEOUT, None));
    }
  }

  lemma NotifyKeepsInv(g: Client, k: Kont)
    requires Running(g.read.phase) && !g.read.phase.Done? && k == (if g.read.phase.Init? then InitFrame else ContFrame)
    requires g.dev && g.read.waiting && g.read.tid && !g.log.timedOut && !g.log.threw && g.log.due == [] && g.log.calls == []
    requires g.konts == Konts(0, 0) && g.rxcb == None
    requires FeedAll(Init, g.read.cmd, g.log.consumed) == g.read.phase && Queued(g.dev, g.rxframes, g.log.consumed, g.log.arrived)
    ensures Inv(NotifyFrame(g, k)) && SameRead(g, NotifyFrame(g, k))
  {
    hide FeedAll, Queued;
  }

  /** A scheduled continuation runs, on the client `g` it leaves when it is taken off the schedule. */
  lemma ReadFrameKeepsInv(h: Client, g: Client)
    requires Inv(h)
    requires || (h.konts.init > 0 && g == h.(konts := h.konts.(init := h.konts.init - 1)))
             || (h.konts.cont > 0 && g == h.(konts := h.konts.(cont := h.konts.cont - 1)))
    ensures Inv(ReadFrame(g)) && SameRead(g, ReadFrame(g))
  {
    hide FeedAll, Feed, ScheduleCb, NotifyFrame;
    if g.read.waiting && g.rxframes != [] {
      var p := g.rxframes[0];
      var g1 := g.(rxframes := g.rxframes[1..], log := g.log.(consumed := g.log.consumed + [p]));
      NextConsumed(g.read.cmd, g.log.consumed, p);
      assert g1.log.consumed + g1.rxframes == g.log.consumed + g.rxframes;
      var ph := Feed(g.read.phase, g.read.cmd, p);
      var g2 := if IsError(p) && p[7] == GONE then g1.(closed := true) else g1;
      if ph.Done? {
        ScheduleKeepsInv(if IsError(p) && p[7] == GONE then g1.(closed := true) else g1, ph.reply);
      } else {
        ContinuesOrStarts(g.read.phase, g.read.cmd, p);
        assert ph.Init? ==> g1.(read := g1.read.(phase := ph)) == g1;
        NotifyKeepsInv(g1.(read := g1.read.(phase := ph)), if ph.Init? then InitFrame else ContFrame);
      }
    }
  }

  lemma NextConsumed(cmd: byte, consumed: seq<Packet>, p: Packet)
    ensures FeedAll(Init, cmd, consumed + [p]) == Feed(FeedAll(Init, cmd, consumed), cmd, p)
  {
    hide Feed;
    assert (consumed + [p])[..|consumed|] == consumed;
  }

  lemma ContinuesOrStarts(ph: Phase, cmd: byte, p: Packet)
    requires Running(ph)
    ensures Feed(ph, cmd, p).Init? ==> ph.Init?
    ensures IsError(p) && !ph.Done? ==> Feed(ph, cmd, p).Done?
  {
  }

  lemma StepKeepsInv(g: Client, e: Event)
    requires Inv(g)
    ensures Inv(Step(g, e)) && SameRead(g, Step(g, e))
  {
    hide ReceivedFrame, ReadFrame, ReadTimeout, Close, CloseWhenIdle, DeviceGone;
    match e
    case Receive(p) => ReceivedKeepsInv(g, p);
    case RunInit => if g.konts.init > 0 { ReadFrameKeepsInv(g, g.(konts := g.konts.(init := g.konts.init - 1))); }
    case RunCont => if g.konts.cont > 0 { ReadFrameKeepsInv(g, g.(konts := g.konts.(cont := g.konts.cont - 1))); }
    case Timer => TimeoutKeepsInv(g);
    case Deliver => assert g.log.due != [] ==> g.log.calls + [g.log.due[0]] + g.log.due[1..] == g.log.calls + g.log.due;
    case CloseNow => CloseKeepsInv(g);
    case CloseIdle => IdleKeepsInv(g);
    case Gone => GoneKeepsInv(g);
  }

  lemma IdleKeepsInv(g: Client)
    requires Inv(g)
    ensures Inv(CloseWhenIdle(g)) && SameRead(g, CloseWhenIdle(g))
  {
    hide Progress, Queued, Scheduled, Close;
    CloseKeepsInv(g);
  }

  /** The client after the events, all of them handled one after the other. */
  ghost function Run(g: Client, es: seq<Event>): (r: Client)
    requires Inv(g)
    ensures Inv(r) && SameRead(g, r)
  {
    hide Inv, Step;
    if es == [] then g
    else
      var h := Run(g, es[..|es| - 1]);
      StepKeepsInv(h, es[|es| - 1]);
      InvIsRunning(h);
      Step(h, es[|es| - 1])
  }

  lemma InvIsRunning(g: Client)
    requires Inv(g)
    ensures Running(g.read.phase)
  {
  }

  lemma StartedInv(cid: int32, cmd: byte, left: seq<Packet>)
    ensures Inv(Started(cid, cmd, left)) && Started(cid, cmd, left).read.cmd == cmd && Started(cid, cmd, left).cid == cid
  {
    assert [] + left == left;
  }

  // ----- what holds of every run

  /** The callback is called at most once; a message it is called with is reassembled from frames that came;
      `readFrame_` finds an empty queue only after `close`; and the timer ends the read if nothing else does. */
  lemma ReadCallsBackOnce(cid: int32, cmd: byte, left: seq<Packet>, es: seq<Event>)
    ensures Inv(Started(cid, cmd, left))
    ensures var g := Run(Started(cid, cmd, left), es);
            && |g.log.calls| <= 1
            && (g.log.calls != [] && g.log.calls[0].data.Some? ==>
                  && g.log.calls[0].rc == OK
                  && exists picks :: Reassembles(g.log.consumed, cmd, picks, g.log.calls[0].data.value))
            && g.log.consumed <= g.log.arrived
            && (g.log.threw ==> !g.dev)
            && (g.read.waiting ==> g.read.tid) && (g.log.calls == [] && g.log.due == [] ==> g.read.waiting)
            && !Step(g, Timer).read.waiting
  {
    hide FeedAll, Scheduled, ReadFrame, ReceivedFrame;
    StartedInv(cid, cmd, left);
    var g := Run(Started(cid, cmd, left), es);
    var picks := Trace(cmd, g.log.consumed);
    if g.log.calls != [] {
      assert (g.log.calls + g.log.due)[0] == g.log.calls[0];
    }
    assert g.dev ==> g.log.consumed <= g.log.consumed + g.rxframes;
  }

  /** A client that has given up its device, with nothing queued or registered. */
  ghost predicate Shut(g: Client) {
    g.closed && !g.dev && g.rxframes == [] && g.rxcb == None
  }

  /** Closing is done at once on an idle client; with a command pending it is done when the read ends.  A device that goes
      leaves its client closed, with the news queued. */
  lemma Closing(g: Client, e: Event)
    requires Inv(g)
    ensures Running(g.read.phase)
    ensures var t := Step(g, e);
            && (e == CloseNow && g.dev ==> Shut(t) && t.read == g.read && t.log == g.log)
            && (e == CloseIdle ==> t == if g.commandPending then g.(closing := true) else Step(g, CloseNow))
            && (e == Gone ==> t.closed && t.dev == g.dev && t.rxframes == if g.closed then g.rxframes else g.rxframes + [GonePacket()])
            && (g.closed ==> t.closed) && (t.dev ==> g.dev)
  {
    InvIsRunning(g);
    hide Progress, Queued, Scheduled, FeedAll, ReadFrame, ReadTimeout, ForChannel;
    match e
    case Gone => GoneEndsRead(Init, 0);
    case Timer => StaysShut(g);
    case RunInit => ReadStaysShut(g.(konts := g.konts.(init := if g.konts.init > 0 then g.konts.init - 1 else 0)));
    case RunCont => ReadStaysShut(g.(konts := g.konts.(cont := if g.konts.cont > 0 then g.konts.cont - 1 else 0)));
    case _ =>
  }

  lemma StaysShut(g: Client)
    ensures (g.closed ==> ReadTimeout(g).closed) && (ReadTimeout(g).dev ==> g.dev)
  {
    hide ForChannel;
  }

  lemma ReadStaysShut(g: Client)
    requires Running(g.read.phase)
    ensures (g.closed ==> ReadFrame(g).closed) && (ReadFrame(g).dev ==> g.dev)
  {
    hide Feed, IsError;
  }

  /** When a read ends, its command is not pending any more, and a client that was to close is shut. */
  lemma ReadEnds(g: Client, e: Event)
    requires Inv(g) && g.read.waiting
    ensures Running(g.read.phase)
    ensures var t := Step(g, e);
            !t.read.waiting ==>
                && !t.commandPending && |t.log.due| == 1
                && (if g.closing && g.dev then Shut(t) else t.dev == g.dev)
                && (e == Timer ==> t.log.due == [Reply(-TIMEOUT, None)] && t.closed)
  {
    InvIsRunning(g);
    hide Queued, Scheduled, FeedAll, ReadFrame, ReadTimeout, ForChannel;
    match e
    case Timer => TimeoutEnds(g);
    case RunInit => FrameEnds(g.(konts := g.konts.(init := if g.konts.init > 0 then g.konts.init - 1 else 0)));
    case RunCont => FrameEnds(g.(konts := g.konts.(cont := if g.konts.cont > 0 then g.konts.cont - 1 else 0)));
    case _ =>
  }

  lemma TimeoutEnds(g: Client)
    requires g.read.waiting && g.read.tid && g.log.due == [] && (!g.dev ==> g.closed)
    ensures var t := ReadTimeout(g);
            && !t.commandPending && t.log.due == [Reply(-TIMEOUT, None)] && t.closed
            && (if g.closing && g.dev then Shut(t) else t.dev == g.dev)
  {
    hide ForChannel;
  }

  lemma FrameEnds(g: Client)
    requires Running(g.read.phase) && g.read.waiting && g.log.due == []
    ensures var t := ReadFrame(g);
            !t.read.waiting ==> !t.commandPending && |t.log.due| == 1 && (if g.closing && g.dev then Shut(t) else t.dev == g.dev)
  {
    hide Feed, IsError, Reached, Shut;
    if g.read.tid && g.rxframes != [] {
      var p, g1 := g.rxframes[0], Taken(g);
      ReachedEnds(if IsError(p) && p[7] == GONE then g1.(closed := true) else g1, Feed(g.read.phase, g.read.cmd, p));
    }
  }

  lemma ReachedEnds(g: Client, ph: Phase)
    requires g.read.waiting && g.log.due == []
    ensures var t := Reached(g, ph);
            !t.read.waiting ==> !t.commandPending && |t.log.due| == 1 && (if g.closing && g.dev then Shut(t) else t.dev == g.dev)
  {
  }

  /** A read begins on an open client, waiting for its first frame, and fails at once on a closed one. */
  lemma ReadBegins(g: Client, cmd: byte)
    ensures var t := BeginRead(g, cmd);
            if g.closed || !g.dev then t == g.(log := g.log.(calls := g.log.calls + [Reply(-GONE, None)]))
            else
              && t.read == Read(cmd, true, true, Init) && t.rxframes == g.rxframes && t.dev && !t.closed
              && t.log.consumed == [] && t.log.arrived == g.rxframes && !t.log.timedOut && t.log.calls == g.log.calls
  {
  }

  lemma StartsOpen(cid: int32, cmd: byte, left: seq<Packet>)
    ensures var g := Started(cid, cmd, left);
            && g.dev && !g.closed && !g.closing && g.commandPending && g.read.waiting && g.log == Log([], [], false, false, [], left)
            && (left == [] ==> g.rxcb == Some(InitFrame) && g.konts == Konts(0, 0))
            && (left != [] ==> g.rxcb == None && g.konts == Konts(1, 0))
  {
  }

  /** `readFrame_` throws exactly when a scheduled continuation of a waiting read runs on a client without its device. */
  lemma ThrowsWithoutDevice(g: Client, e: Event)
    requires Inv(g) && !g.log.threw
    ensures Running(g.read.phase)
    ensures Step(g, e).log.threw
       <==> g.read.waiting && !g.dev && ((e.RunInit? && g.konts.init > 0) || (e.RunCont? && g.konts.cont > 0))
  {
    hide FeedAll, ForChannel, ReadFrame;
    if e.RunInit? {
      ReadFrameThrows(g.(konts := g.konts.(init := if g.konts.init > 0 then g.konts.init - 1 else 0)));
    } else if e.RunCont? {
      ReadFrameThrows(g.(konts := g.konts.(cont := if g.konts.cont > 0 then g.konts.cont - 1 else 0)));
    }
  }

  lemma ReadFrameThrows(g: Client)
    requires Running(g.read.phase)
    ensures ReadFrame(g).log.threw <==> g.log.threw || (g.read.waiting && g.read.tid && g.rxframes == [])
  {
    hide Feed, IsError, Reached;
    if g.read.waiting && g.read.tid && g.rxframes != [] {
      var p, g1 := g.rxframes[0], Taken(g);
      ReachedThrowsNothing(if IsError(p) && p[7] == GONE then g1.(closed := true) else g1, Feed(g.read.phase, g.read.cmd, p));
    }
  }

  lemma ReachedThrowsNothing(g: Client, ph: Phase)
    ensures Reached(g, ph).log.threw == g.log.threw
  {
  }

  /** Closing a client under its read makes the read throw exactly if a frame waits for it; otherwise its continuation is
      only registered, and forgotten with the close. */
  lemma CloseMakesReadThrow(g: Client)
    requires Inv(g) && g.dev && g.read.waiting && !g.log.threw
    ensures Running(Close(g).read.phase)
    ensures Step(Close(g), RunInit).log.threw || Step(Close(g), RunCont).log.threw <==> g.rxframes != []
  {
    CloseKeepsInv(g);
    ThrowsWithoutDevice(Close(g), RunInit);
    ThrowsWithoutDevice(Close(g), RunCont);
    hide Step, Progress, Queued;
  }

  lemma CloseThenThrow(cid: int32, cmd: byte, p: Packet)
    ensures Inv(Started(cid, cmd, [p]))
    ensures Run(Started(cid, cmd, [p]), [CloseNow, RunInit]).log.threw
  {
    StartedInv(cid, cmd, [p]);
    var g := Started(cid, cmd, [p]);
    var es := [CloseNow, RunInit];
    assert es[..1] == [CloseNow] && es[..1][..0] == [];
    assert Run(g, [CloseNow]) == Step(Run(g, []), CloseNow);
  }

  /** Nothing happens but frames arriving, continuations running and the callback being called. */
  ghost predicate Quiet(es: seq<Event>) {
    forall e :: e in es ==> e.Receive? || e.RunInit? || e.RunCont? || e.Deliver?
  }

  function Received(es: seq<Event>): seq<Packet> {
    if es == [] then []
    else Received(es[..|es| - 1]) + match es[|es| - 1] { case Receive(p) => [p] case _ => [] }
  }

  /** No packet tells that the device has gone, which would close the client. */
  ghost predicate NoneGone(ps: seq<Packet>) {
    forall p :: p in ps ==> !(IsError(p) && p[7] == GONE)
  }

  ghost predicate Unharmed(g: Client) {
    g.dev && !g.closed && !g.closing && !g.log.timedOut
  }

  lemma {:induction false} QuietArrivals(g: Client, es: seq<Event>)
    requires Inv(g) && Quiet(es) && Unharmed(g) && NoneGone(g.log.arrived + Filter(g.cid, Received(es)))
    ensures Unharmed(Run(g, es)) && Run(g, es).log.arrived == g.log.arrived + Filter(g.cid, Received(es))
  {
    hide Inv, Step, Filter, Received, NoneGone, Unharmed;
    if es == [] {
      NothingReceived(g.cid);
      assert g.log.arrived + [] == g.log.arrived;
    } else {
      var n := |es| - 1;
      var before, now := Filter(g.cid, Received(es[..n])), Filter(g.cid, if es[n].Receive? then [es[n].p] else []);
      ReceivedOne(g.cid, es);
      assert g.log.arrived + (before + now) == g.log.arrived + before + now;
      NoneGoneBefore(g.log.arrived + before, now);
      QuietArrivals(g, es[..n]);
      QuietStep(Run(g, es[..n]), es[n]);
    }
  }

  lemma NoneGoneBefore(ps: seq<Packet>, qs: seq<Packet>)
    requires NoneGone(ps + qs)
    ensures NoneGone(ps)
  {
    hide IsError;
    assert forall p :: p in ps ==> p in ps + qs;
  }

  lemma NothingReceived(cid: int32)
    ensures Filter(cid, Received([])) == []
  {
  }

  lemma ReceivedOne(cid: int32, es: seq<Event>)
    requires es != []
    ensures var e := es[|es| - 1];
            Filter(cid, Received(es)) == Filter(cid, Received(es[..|es| - 1])) + Filter(cid, if e.Receive? then [e.p] else [])
  {
    hide ForChannel;
    var n := |es| - 1;
    var before := Received(es[..n]);
    assert Filter(cid, []) == [];
    assert before + [] == before && Filter(cid, before) + [] == Filter(cid, before);
    if es[n].Receive? {
      var p := es[n].p;
      assert (before + [p])[..|before|] == before;
      assert [p][..0] == [];
      assert [] + Filter(cid, [p]) == Filter(cid, [p]);
      assert Filter(cid, before + [p]) == Filter(cid, before) + Filter(cid, [p]);
    }
  }

  lemma QuietStep(g: Client, e: Event)
    requires Inv(g) && Unharmed(g) && NoneGone(g.log.arrived)
    requires e.Receive? || e.RunInit? || e.RunCont? || e.Deliver?
    ensures Running(g.read.phase)
    ensures var h := Step(g, e);
            Unharmed(h) && h.log.arrived == g.log.arrived + Filter(g.cid, if e.Receive? then [e.p] else [])
  {
    hide FeedAll, Feed, ForChannel, IsError, Scheduled;
    assert Filter(g.cid, []) == [];
    assert g.log.arrived + [] == g.log.arrived;
    if e.Receive? {
      assert [e.p][..0] == [];
    } else if g.rxframes != [] {
      assert g.rxframes[0] in g.log.consumed + g.rxframes;
    }
  }

  /** In every quiet run over a message within the limit, interleaved with frames for other nonzero channels:
      once nothing is scheduled any more, the callback has been called, with OK and the payload. */
  lemma ReadReportsMessage(cid: int32, cmd: byte, data: seq<byte>, pad: byte, others: seq<Packet>, es: seq<Event>)
    requires cmd >= 0x80 && |data| <= MAX_PAYLOAD && !(cmd == CMD_ERROR && |data| == 1)
    requires Quiet(es)
    requires Interleaves(Received(es), Message(cid, cmd, data, pad), others)
    requires forall p :: p in others ==> !ForChannel(cid, p)
    ensures Inv(Started(cid, cmd, []))
    ensures var g := Run(Started(cid, cmd, []), es);
            g.konts == Konts(0, 0) && g.log.due == [] ==> g.log.calls == [Reply(OK, Some(data))]
  {
    hide Message, Feed, FeedAll, ForChannel, Filter, Received, Inv;
    var m := Message(cid, cmd, data, pad);
    StartedInv(cid, cmd, []);
    var start := Started(cid, cmd, []);
    var g := Run(start, es);
    MessageReachesClient(cid, cmd, data, pad, others, Received(es));
    RoundTrip(cid, cmd, data, pad);
    NoErrorInMessage(cid, cmd, data, pad);
    assert [] + m == m;
    QuietArrivals(start, es);
    if g.konts == Konts(0, 0) {
      NothingScheduled(g);
      assert g.log.due == [] ==> (g.log.calls + g.log.due)[0] == g.log.calls[0];
    }
  }

  /** When nothing is scheduled, the reader has seen every frame that came, or has finished before. */
  lemma NothingScheduled(g: Client)
    requires Inv(g) && g.dev && !g.log.timedOut && g.konts == Konts(0, 0)
    ensures var ph := FeedAll(Init, g.read.cmd, g.log.arrived);
            if g.read.waiting then !ph.Done?
            else |g.log.calls + g.log.due| == 1 && ph == Done((g.log.calls + g.log.due)[0])
  {
    hide Feed;
    if g.read.waiting {
      assert g.log.consumed + [] == g.log.consumed;
    } else {
      FeedConcat(Init, g.read.cmd, g.log.consumed, g.rxframes);
      DoneStays((g.log.calls + g.log.due)[0], g.read.cmd, g.rxframes);
    }
  }

  lemma NoErrorInMessage(cid: int32, cmd: byte, data: seq<byte>, pad: byte)
    requires |data| <= MAX_PAYLOAD && !(cmd == CMD_ERROR && |data| == 1)
    ensures forall p :: p in Message(cid, cmd, data, pad) ==> !IsError(p)
  {
    NoErrorInConts(cid, 0, Rest(data, INIT_DATA), pad);
    hide CidBytes, ContPackets;
    var p := InitPacket(cid, cmd, data, pad);
    assert p[4] == cmd && Length(p) == |data|;
  }

  lemma {:induction false} NoErrorInConts(cid: int32, k: nat, data: seq<byte>, pad: byte)
    requires |data| <= CONT_DATA * (128 - k) && k <= 128
    ensures forall p :: p in ContPackets(cid, k, data, pad) ==> !IsError(p)
    decreases |data|
  {
    hide CidBytes;
    if data != [] {
      NoErrorInConts(cid, k + 1, Rest(data, CONT_DATA), pad);
      assert ContPacket(cid, k, data, pad)[4] == k;
    }
  }
}

/** The client as an object: the variables that the closures of `read_` share are its fields. */
module GnubbyReader {
  import opened Words
  import opened Framing
  import opened ChannelLock
  import opened GnubbyClient

  lemma ReachedInit(g: Client)
    ensures Reached(g, Init) == GnubbyClient.NotifyFrame(g, InitFrame)
  {
  }

  lemma ReachedCont(g: Client)
    requires g.read.phase.Cont?
    ensures Reached(g, g.read.phase) == GnubbyClient.NotifyFrame(g, ContFrame)
  {
  }

  lemma ReachedDone(g: Client, r: Reply)
    ensures Reached(g, Done(r)) == GnubbyClient.ScheduleCb(g, r)
  {
  }

  lemma AbsorbGoesOn(total: nat, got: seq<byte>, payload: seq<byte>, seqno: nat)
    requires |got| <= total
    ensures !Absorb(total, got, payload, seqno).Init?
  {
  }

  lemma ReachedForgets(g: Client, before: Phase, ph: Phase)
    requires !ph.Init?
    ensures Reached(g.(read := g.read.(phase := before)), ph) == Reached(g, ph)
  {
  }

  class Gnubby {
    const cid: int32
    var dev: bool                // whether there is a device; set once it is open
    var closed: bool
    var closingWhenIdle: bool
    var commandPending: bool
    var rxframes: seq<Packet>
    var rxcb: Option<Kont>

    // the variables of the read under way
    var cmd: byte
    var tid: bool
    var callback: bool
    var msg: Option<nat>         // the length of the message buffer, once it is allocated
    var got: seq<byte>           // the bytes copied into it; `count` is their number
    var seqno: nat

    // the event loop, and what it has seen
    var konts: Konts
    ghost var log: Log

    ghost predicate Valid()
      reads this
    {
      msg.Some? && callback ==> |got| <= msg.value
    }

    ghost function State(): Client
      requires Valid()
      reads this
    {
      var phase := if msg.None? || !callback then Init else Cont(msg.value, got, seqno);
      Client(cid, dev, closed, closingWhenIdle, commandPending, rxframes, rxcb, konts,
             Read(cmd, tid, callback, phase), log)
    }

    constructor (cid: int32, left: seq<Packet>)
      ensures Valid() && State() == Idle(cid, left)
    {
      this.cid := cid;
      dev, closed, closingWhenIdle, commandPending := true, false, false, true;
      rxframes, rxcb, konts := left, None, Konts(0, 0);
      cmd, tid, callback, msg, got, seqno := 0, false, false, None, [], 0;
      log := Log([], [], false, false, [], left);
    }

    method Schedule(k: Kont)
      modifies `konts
      ensures konts == match k { case InitFrame => old(konts).(init := old(konts).init + 1)
                                 case ContFrame => old(konts).(cont := old(konts).cont + 1) }
    {
      match k
      case InitFrame => konts := konts.(init := konts.init + 1);
      case ContFrame => konts := konts.(cont := konts.cont + 1);
    }

    method NotifyFrame(k: Kont)
      requires Valid()
      modifies `konts, `rxcb
      ensures Valid() && State() == GnubbyClient.NotifyFrame(old(State()), k)
    {
      if |rxframes| != 0 {
        Schedule(k);
      } else {
        rxcb := Some(k);
      }
    }

    method ReceivedFrame(p: Packet)
      requires Valid()
      modifies `rxframes, `log, `rxcb, `konts
      ensures Valid() && State() == GnubbyClient.ReceivedFrame(old(State()), p)
    {
      hide ForChannel;
      if closed {
        return;
      }
      if !ForChannel(cid, p) {
        return;
      }
      rxframes, log := rxframes + [p], log.(arrived := log.arrived + [p]);
      var cb := rxcb;
      rxcb := None;
      if cb.Some? {
        Schedule(cb.value);
      }
    }

    method Close()
      requires Valid()
      modifies `closed, `rxframes, `rxcb, `dev
      ensures Valid() && State() == GnubbyClient.Close(old(State()))
    {
      closed := true;
      if dev {
        rxframes, rxcb, dev := [], None, false;
      }
    }

    method ScheduleCb(r: Reply)
      modifies this
      requires Valid()
      ensures Valid() && State() == GnubbyClient.ScheduleCb(old(State()), r)
    {
      commandPending := false;
      tid := false;
      if callback {
        callback := false;
        log := log.(due := log.due + [r]);
      }
      if closingWhenIdle {
        Close();
      }
    }

    /** The device goes away, by itself or because a read timed out. */
    method DeviceGone()
      requires Valid()
      modifies `rxframes, `log, `rxcb, `konts, `closed
      ensures Valid() && State() == GnubbyClient.DeviceGone(old(State()))
    {
      ReceivedFrame(GonePacket());
      closed := true;
    }

    method ReadTimeout()
      requires Valid()
      modifies this
      ensures Valid() && State() == GnubbyClient.ReadTimeout(old(State()))
    {
      if !callback || !tid {
        return;
      }
      if dev {
        DeviceGone();
      }
      tid, log := false, log.(timedOut := true);
      ScheduleCb(Reply(-TIMEOUT, None));
    }

    method CloseWhenIdle()
      requires Valid()
      modifies this
      ensures Valid() && State() == GnubbyClient.CloseWhenIdle(old(State()))
    {
      if !commandPending {
        Close();
      } else {
        closingWhenIdle := true;
      }
    }

    /** `read_`; the calls of its callback are recorded. */
    method StartRead(cmd: byte)
      requires Valid() && !callback
      modifies this
      ensures Valid() && State() == BeginRead(old(State()), cmd)
    {
      hide GnubbyClient.NotifyFrame, FreshRead;
      if closed || !dev {
        log := log.(calls := log.calls + [Reply(-GONE, None)]);
        return;
      }
      NewRead(cmd);
      NotifyFrame(InitFrame);
    }

    method NewRead(cmd: byte)
      modifies this
      requires Valid()
      ensures Valid() && State() == FreshRead(old(State()), cmd)
    {
      this.cmd, tid, callback, msg, got, seqno := cmd, true, true, None, [], 0;
      log := log.(timedOut := false, consumed := [], arrived := rxframes);
    }

    /** The end of both continuations: copy the payload from position `start`, then finish or wait for more. */
    method CopyPayload(f: Packet, start: nat)
      requires Valid() && callback && msg.Some? && start <= |f|
      modifies this
      ensures Valid()
      ensures State() == Reached(old(State()), Absorb(old(msg).value, old(got), f[start..], old(seqno)))
    {
      ghost var before := got;
      var i := start;
      while i < |f| && |got| < msg.value
        invariant start <= i <= |f|
        invariant got == before + f[start..i] && |got| <= msg.value
        modifies `got
      {
        got, i := got + [f[i]], i + 1;
      }
      assert f[start..i] == Head(f[start..], msg.value - |before|);
      if |got| == msg.value {
        ScheduleCb(Reply(OK, Some(got)));
      } else {
        NotifyFrame(ContFrame);
      }
    }

    /** The event loop runs a scheduled continuation. */
    method RunScheduled(k: Kont)
      requires Valid() && Running(State().read.phase)
      requires match k { case InitFrame => konts.init > 0 && (callback ==> msg.None?)
                         case ContFrame => konts.cont > 0 && (callback ==> msg.Some?) }
      modifies this
      ensures Valid() && State() == Step(old(State()), if k.InitFrame? then RunInit else RunCont)
    {
      hide ReadFrame;
      match k
      case InitFrame =>
        konts := konts.(init := konts.init - 1);
        RunInitFrame();
      case ContFrame =>
        konts := konts.(cont := konts.cont - 1);
        RunContFrame();
    }

    /** The beginning of both continuations: nothing is left to do, or there is a frame to read. */
    method TakeFrame() returns (f: Option<Packet>)
      requires Valid() && Running(State().read.phase)
      modifies `rxframes, `log
      ensures Valid()
      ensures f.None? ==> State() == ReadFrame(old(State()))
      ensures f.Some? ==> callback && tid && old(rxframes) != [] && f.value == old(rxframes[0])
                          && State() == Taken(old(State()))
    {
      if !callback || !tid {
        return None;
      }
      if |rxframes| == 0 {
        log := log.(threw := true);
        return None;
      }
      f := Some(rxframes[0]);
      rxframes, log := rxframes[1..], log.(consumed := log.consumed + [rxframes[0]]);
    }

    /** An error packet ends the read. */
    method ForwardError(f: Packet)
      requires Valid()
      modifies this
      ensures Valid()
      ensures var g := old(State());
              State() == Reached(if f[7] == GONE then g.(closed := true) else g, Done(Reply(-(f[7] as int), None)))
    {
      if f[7] == GONE {
        closed := true;
      }
      ScheduleCb(Reply(-(f[7] as int), None));
    }

    method AllocateMessage(totalLen: nat)
      requires Valid() && callback
      modifies `msg, `got, `seqno
      ensures Valid() && msg == Some(totalLen) && got == [] && seqno == 0
      ensures var g := old(State()); State() == g.(read := g.read.(phase := Cont(totalLen, [], 0)))
    {
      msg, got, seqno := Some(totalLen), [], 0;
    }

    method RunInitFrame()
      requires Valid() && (callback ==> msg.None?)
      modifies this
      ensures Valid() && State() == ReadFrame(old(State()))
    {
      hide Absorb, Length, Reached;
      var taken := TakeFrame();
      if taken.None? {
        return;
      }
      var f := taken.value;
      var rcmd := f[4];
      var totalLen := Length(f);
      if rcmd == CMD_ERROR && totalLen == 1 {
        ForwardError(f);
        return;
      }
      if rcmd < 0x80 || rcmd != cmd {
        ReachedInit(State());
        NotifyFrame(InitFrame);
        return;
      }
      AllocateMessage(totalLen);
      AbsorbGoesOn(totalLen, [], f[7..], 0);
      ReachedForgets(State(), Init, Absorb(totalLen, [], f[7..], 0));
      CopyPayload(f, 7);
    }

    method RunContFrame()
      requires Valid() && (callback ==> msg.Some? && |got| < msg.value)
      modifies this
      ensures Valid() && State() == ReadFrame(old(State()))
    {
      hide Absorb, Length, Reached;
      var taken := TakeFrame();
      if taken.None? {
        return;
      }
      var f := taken.value;
      var rcmd := f[4];
      var totalLen := Length(f);
      if rcmd == CMD_ERROR && totalLen == 1 {
        ForwardError(f);
        return;
      }
      if rcmd >= 0x80 {
        ReachedCont(State());
        NotifyFrame(ContFrame);
        return;
      }
      if rcmd != seqno {
        ReachedDone(State(), Reply(-INVALID_SEQ, None));
        ScheduleCb(Reply(-INVALID_SEQ, None));
        return;
      }
      seqno := seqno + 1;
      AbsorbGoesOn(msg.value, got, f[5..], seqno);
      ReachedForgets(State(), old(State()).read.phase, Absorb(msg.value, got, f[5..], seqno));
      CopyPayload(f, 5);
    }
  }
}
