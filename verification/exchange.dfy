/** A command and its reply: the command is written again, and its reply read again, while the device is busy. */
module Exchanges {
  import opened Words
  import opened Framing
  import ChannelLock
  import opened GnubbyClient

  /** `written` counts the commands queued, `begun` the reads; `results` records the calls of the callback. */
  datatype Exchange = Exchange(client: Client, cmd: byte, written: nat, begun: nat, results: seq<Reply>)

  datatype Input = Input(event: Event, expired: bool)

  // ----- the effect of each method

  /** `write_` */
  function Write(x: Exchange): Exchange {
    if x.client.closed || !x.client.dev then x
    else x.(client := x.client.(commandPending := true), written := x.written + 1)
  }

  /** `read_`; what the read before it has called back is done with. */
  function Read(x: Exchange): Exchange {
    if x.client.closed || !x.client.dev then x.(results := x.results + [Reply(-GONE, None)])
    else
      var g := x.client.(log := x.client.log.(calls := [], due := []));
      x.(client := NotifyFrame(FreshRead(g, x.cmd), InitFrame), begun := x.begun + 1)
  }

  /** `retryBusy`; `expired` says whether the wait for a busy device is over. */
  function RetryBusy(x: Exchange, r: Reply, expired: bool): Exchange {
    if r.rc == -BUSY && !expired then Read(Write(x)) else x.(results := x.results + [r])
  }

  function Begin(cid: int32, cmd: byte, left: seq<Packet>): Exchange {
    RetryBusy(Exchange(Idle(cid, left), cmd, 0, 0, []), Reply(-BUSY, None), false)
  }

  // ----- runs

  /** The callback of a read continues the exchange; everything else happens to the client. */
  function Step(x: Exchange, i: Input): Exchange
    requires Running(x.client.read.phase)
  {
    var x1 := x.(client := GnubbyClient.Step(x.client, i.event));
    if i.event.Deliver? && x.client.log.due != [] then RetryBusy(x1, x.client.log.due[0], i.expired) else x1
  }

  /** No continuation of a read that a frame has ended is left over for the next one. */
  ghost predicate AtRest(g: Client) {
    g.dev && !g.read.waiting && !g.log.timedOut ==> g.konts == Konts(0, 0) && g.rxcb == None
  }

  ghost predicate Inv(x: Exchange) {
    && GnubbyClient.Inv(x.client) && AtRest(x.client)
    && x.client.read.cmd == x.cmd
    && x.written == x.begun
    && |x.results| <= 1
    && (if x.results == [] then x.client.log.calls == []
        else x.client.log.calls != [] && !x.client.read.waiting && x.client.log.due == []
             && (x.results == x.client.log.calls || x.results == [Reply(-GONE, None)]))
  }

  lemma ReadFrameComesToRest(h: Client, g: Client)
    requires GnubbyClient.Inv(h) && AtRest(h)
    requires || (h.konts.init > 0 && g == h.(konts := h.konts.(init := h.konts.init - 1)))
             || (h.konts.cont > 0 && g == h.(konts := h.konts.(cont := h.konts.cont - 1)))
    ensures AtRest(ReadFrame(g))
    ensures ReadFrame(g).log.calls == h.log.calls
  {
    InvIsRunning(h);
    hide Progress, Queued, FeedAll, Feed, IsError, Reached;
    if g.read.waiting && g.read.tid && g.rxframes != [] {
      var p := g.rxframes[0];
      var g1 := Taken(g);
      ReachedKeeps(if IsError(p) && p[7] == GONE then g1.(closed := true) else g1, Feed(g.read.phase, g.read.cmd, p));
    }
  }

  lemma ReachedKeeps(g: Client, ph: Phase)
    requires g.read.waiting
    ensures var h := Reached(g, ph);
            && h.log.calls == g.log.calls
            && (ph.Done? && h.dev ==> h.konts == g.konts && h.rxcb == g.rxcb)
            && (!ph.Done? ==> h.read.waiting)
  {
  }

  lemma ReceiveComesToRest(g: Client, p: Packet)
    requires GnubbyClient.Inv(g) && AtRest(g)
    ensures AtRest(ReceivedFrame(g, p)) && ReceivedFrame(g, p).log == g.log.(arrived := ReceivedFrame(g, p).log.arrived)
  {
    hide GnubbyClient.Inv, ForChannel;
  }

  lemma TimeoutComesToRest(g: Client)
    requires GnubbyClient.Inv(g) && AtRest(g)
    ensures AtRest(ReadTimeout(g)) && ReadTimeout(g).log.calls == g.log.calls
  {
    hide GnubbyClient.Inv, ReceivedFrame;
    ReceiveComesToRest(g, ChannelLock.GonePacket());
  }

  /** What happens to the client outside of the callback. */
  lemma ClientStep(g: Client, e: Event)
    requires GnubbyClient.Inv(g) && AtRest(g) && !e.Deliver?
    ensures Running(g.read.phase)
    ensures var h := GnubbyClient.Step(g, e);
            && GnubbyClient.Inv(h) && AtRest(h) && h.read.cmd == g.read.cmd && h.log.calls == g.log.calls
            && (!g.read.waiting ==> !h.read.waiting && h.log.due == g.log.due)
  {
    InvIsRunning(g);
    GnubbyClient.StepKeepsInv(g, e);
    if e.RunInit? || e.RunCont? {
      ContinuationStep(g, e);
    } else {
      OtherStep(g, e);
    }
    hide GnubbyClient.Inv, GnubbyClient.Step, AtRest;
  }

  lemma ContinuationStep(g: Client, e: Event)
    requires GnubbyClient.Inv(g) && AtRest(g) && Running(g.read.phase) && (e.RunInit? || e.RunCont?)
    ensures var h := GnubbyClient.Step(g, e);
            AtRest(h) && h.log.calls == g.log.calls && (!g.read.waiting ==> !h.read.waiting && h.log.due == g.log.due)
  {
    hide GnubbyClient.Inv, ReadFrame;
    if e.RunInit? && g.konts.init > 0 {
      ReadFrameComesToRest(g, g.(konts := g.konts.(init := g.konts.init - 1)));
      NotWaiting(g.(konts := g.konts.(init := g.konts.init - 1)));
    } else if e.RunCont? && g.konts.cont > 0 {
      ReadFrameComesToRest(g, g.(konts := g.konts.(cont := g.konts.cont - 1)));
      NotWaiting(g.(konts := g.konts.(cont := g.konts.cont - 1)));
    }
  }

  lemma OtherStep(g: Client, e: Event)
    requires GnubbyClient.Inv(g) && AtRest(g) && Running(g.read.phase) && !e.Deliver? && !e.RunInit? && !e.RunCont?
    ensures var h := GnubbyClient.Step(g, e);
            AtRest(h) && h.log.calls == g.log.calls && (!g.read.waiting ==> !h.read.waiting && h.log.due == g.log.due)
  {
    hide GnubbyClient.Inv, ReceivedFrame, ReadTimeout;
    match e
    case Receive(p) =>
      ReceiveComesToRest(g, p);
      ReceiveKeepsRead(g, p);
    case Timer =>
      TimeoutComesToRest(g);
      NotWaiting(g);
    case Gone =>
      ReceiveComesToRest(g, ChannelLock.GonePacket());
      ReceiveKeepsRead(g, ChannelLock.GonePacket());
    case _ =>
  }

  lemma ReceiveKeepsRead(g: Client, p: Packet)
    ensures ReceivedFrame(g, p).read == g.read
  {
    hide ForChannel;
  }

  lemma NotWaiting(g: Client)
    requires Running(g.read.phase)
    ensures !g.read.waiting ==> ReadFrame(g) == g && ReadTimeout(g) == g
  {
  }

  /** The next read of a client whose last read was answered BUSY starts from a clean state. */
  lemma NextRead(x: Exchange)
    requires GnubbyClient.Inv(x.client) && AtRest(x.client) && x.client.dev && !x.client.closed
    requires !x.client.read.waiting && !x.client.log.timedOut
    ensures var y := Read(x);
            && GnubbyClient.Inv(y.client) && AtRest(y.client) && y.client.read.cmd == x.cmd && y.client.log.calls == []
            && y.results == x.results && y.begun == x.begun + 1
  {
    hide FeedAll;
    var g := x.client.(log := x.client.log.(calls := [], due := []));
    NothingRead(x.cmd);
    assert [] + g.rxframes == g.rxframes;
    NotifyKeepsInv(FreshRead(g, x.cmd), InitFrame);
  }

  lemma NothingRead(cmd: byte)
    ensures FeedAll(Init, cmd, []) == Init
  {
  }

  lemma WriteChangesNothing(x: Exchange)
    requires GnubbyClient.Inv(x.client) && AtRest(x.client)
    ensures var y := Write(x);
            && GnubbyClient.Inv(y.client) && AtRest(y.client) && y.client == x.client.(commandPending := y.client.commandPending)
            && y.results == x.results && y.begun == x.begun && y.cmd == x.cmd
            && (x.client.dev && !x.client.closed ==> y.written == x.written + 1)
            && (x.client.closed || !x.client.dev ==> y == x)
  {
    hide Progress, Queued, Scheduled;
  }

  lemma BeginsInv(cid: int32, cmd: byte, left: seq<Packet>)
    ensures Inv(Begin(cid, cmd, left))
  {
    hide FeedAll;
    var x := Write(Exchange(Idle(cid, left), cmd, 0, 0, []));
    NothingRead(cmd);
    assert [] + left == left;
    NotifyKeepsInv(FreshRead(x.client.(log := x.client.log.(calls := [], due := [])), cmd), InitFrame);
  }

  /** The callback of the read is called. */
  lemma DeliverKeepsInv(x: Exchange, expired: bool)
    requires Inv(x) && x.client.log.due != []
    ensures Running(x.client.read.phase) && Inv(Step(x, Input(Deliver, expired)))
    ensures var y := Step(x, Input(Deliver, expired));
            y.results != [] ==> || (y.results[0] == x.client.log.due[0] && (y.results[0].rc == -BUSY ==> expired))
                                || y.results[0] == Reply(-GONE, None)
  {
    InvIsRunning(x.client);
    GnubbyClient.StepKeepsInv(x.client, Deliver);
    var g := GnubbyClient.Step(x.client, Deliver);
    var r := x.client.log.due[0];
    Delivered(x.client);
    hide GnubbyClient.Inv, GnubbyClient.Step, Read, Write;
    if r.rc == -BUSY && !expired {
      var x1 := x.(client := g);
      WriteChangesNothing(x1);
      if g.dev && !g.closed {
        NextRead(Write(x1));
      } else {
        ReadOfClosed(x1);
      }
    }
  }

  lemma ReadOfClosed(x: Exchange)
    requires x.client.closed || !x.client.dev
    ensures Read(x) == x.(results := x.results + [Reply(-GONE, None)])
  {
  }

  lemma Delivered(g: Client)
    requires GnubbyClient.Inv(g) && AtRest(g) && g.log.due != [] && g.log.calls == []
    ensures var h, r := GnubbyClient.Step(g, Deliver), g.log.due[0];
            && AtRest(h) && !h.read.waiting && h.log.calls == [r] && h.log.due == [] && h.read.cmd == g.read.cmd
            && (r.rc == -BUSY ==> !h.log.timedOut)
  {
    hide Queued, Scheduled, FeedAll;
    assert (g.log.calls + g.log.due)[0] == g.log.due[0];
  }

  lemma StepKeepsInv(x: Exchange, i: Input)
    requires Inv(x)
    ensures Running(x.client.read.phase) && Inv(Step(x, i))
    ensures x.results != [] ==> Step(x, i).results == x.results
    ensures var y := Step(x, i);
            x.results == [] && y.results != [] && y.results[0].rc == -BUSY ==> i.expired
  {
    InvIsRunning(x.client);
    hide GnubbyClient.Inv, GnubbyClient.Step, RetryBusy, AtRest;
    if i.event.Deliver? {
      if x.client.log.due != [] {
        DeliverKeepsInv(x, i.expired);
      } else {
        NothingDue(x.client);
      }
    } else {
      ClientStep(x.client, i.event);
    }
  }

  lemma NothingDue(g: Client)
    requires Running(g.read.phase) && g.log.due == []
    ensures GnubbyClient.Step(g, Deliver) == g
  {
  }

  /** What comes of a reply.  Any other than BUSY ends the exchange with it, and so does BUSY when the wait is over; else the
      command is written and read again, unless the client is closed, which ends the exchange with GONE. */
  lemma ReplyEnds(x: Exchange, expired: bool)
    requires Inv(x) && x.client.log.due != []
    ensures Running(x.client.read.phase)
    ensures var y, r := Step(x, Input(Deliver, expired)), x.client.log.due[0];
            if r.rc != -BUSY || expired then y.results == [r] && y.written == x.written
            else if x.client.dev && !x.client.closed then y.results == [] && y.written == x.written + 1 && y.client.read.waiting && y.client.commandPending
            else y.results == [Reply(-GONE, None)] && y.written == x.written
  {
    InvIsRunning(x.client);
    NoResultYet(x);
    hide Inv, Progress, Queued, Scheduled;
    assert [] + [x.client.log.due[0]] == [x.client.log.due[0]];
  }

  lemma NoResultYet(x: Exchange)
    requires Inv(x)
    ensures x.client.log.due != [] ==> x.results == []
  {
  }

  /** Only a reply that is delivered ends the exchange. */
  lemma EndsByReply(x: Exchange, i: Input)
    requires Inv(x) && x.results == []
    ensures Running(x.client.read.phase)
    ensures Step(x, i).results != [] ==> i.event.Deliver? && x.client.log.due != []
  {
    InvIsRunning(x.client);
    hide GnubbyClient.Step, RetryBusy;
  }

  /** A command is written once before its first reply is awaited. */
  lemma BeginsWithOneWrite(cid: int32, cmd: byte, left: seq<Packet>)
    ensures var x := Begin(cid, cmd, left);
            x.written == 1 && x.begun == 1 && x.results == [] && x.client.read.waiting && x.client.commandPending
  {
  }

  ghost function Run(x: Exchange, es: seq<Input>): (r: Exchange)
    requires Inv(x)
    ensures Inv(r)
  {
    hide Inv, Step;
    if es == [] then x
    else
      var y := Run(x, es[..|es| - 1]);
      StepKeepsInv(y, es[|es| - 1]);
      Step(y, es[|es| - 1])
  }

  /** In every run of a command, through all its repetitions: every write is followed by one read; the callback is
      called at most once, and with BUSY only when the wait for a busy device was over; and a message it is called with
      is reassembled from the frames that its last read has taken. */
  lemma {:induction false} ExchangeCallsBackOnce(cid: int32, cmd: byte, left: seq<Packet>, es: seq<Input>)
    ensures Inv(Begin(cid, cmd, left))
    ensures var x := Run(Begin(cid, cmd, left), es);
            && |x.results| <= 1 && x.written == x.begun
            && (x.results != [] && x.results[0].rc == -BUSY ==> exists k :: 0 <= k < |es| && es[k].expired)
            && (x.results != [] && x.results[0].data.Some? ==>
                  && x.results[0].rc == OK
                  && exists picks :: Reassembles(x.client.log.consumed, cmd, picks, x.results[0].data.value))
  {
    hide Inv, Step, Begin, Reassembles;
    CommandStays(cid, cmd, left, es);
    ReportedMessage(Run(Begin(cid, cmd, left), es));
    BeginsInv(cid, cmd, left);
    StartsSilent(cid, cmd, left);
    InvBounds(Run(Begin(cid, cmd, left), es));
    if es != [] {
      var n := |es| - 1;
      ExchangeCallsBackOnce(cid, cmd, left, es[..n]);
      StepKeepsInv(Run(Begin(cid, cmd, left), es[..n]), es[n]);
      assert forall k :: 0 <= k < n ==> es[..n][k] == es[k];
    }
  }

  lemma {:induction false} CommandStays(cid: int32, cmd: byte, left: seq<Packet>, es: seq<Input>)
    ensures Inv(Begin(cid, cmd, left)) && Run(Begin(cid, cmd, left), es).cmd == cmd
  {
    hide Inv, GnubbyClient.Step;
    BeginsInv(cid, cmd, left);
    if es != [] {
      CommandStays(cid, cmd, left, es[..|es| - 1]);
      StepKeepsInv(Run(Begin(cid, cmd, left), es[..|es| - 1]), es[|es| - 1]);
    }
  }

  lemma ReportedMessage(x: Exchange)
    requires Inv(x)
    ensures x.results != [] && x.results[0].data.Some? ==>
              && x.results[0].rc == OK
              && exists picks :: Reassembles(x.client.log.consumed, x.cmd, picks, x.results[0].data.value)
  {
    hide Reassembles, Queued, Scheduled, FeedAll, Pending;
    var picks := Trace(x.cmd, x.client.log.consumed);
    if x.results != [] {
      assert x.client.log.calls + [] == x.client.log.calls;
    }
  }

  lemma StartsSilent(cid: int32, cmd: byte, left: seq<Packet>)
    ensures Begin(cid, cmd, left).results == []
  {
  }

  lemma InvBounds(x: Exchange)
    requires Inv(x)
    ensures |x.results| <= 1 && x.written == x.begun
  {
  }
}
