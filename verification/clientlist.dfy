/** The clients of a device, and the loop that reads reports for them. */
module ClientList {
  import opened Words
  import opened Framing

  /** A client as the driver sees it: `id` tells it from the others, `frames` is all that it has queued. */
  datatype Listener = Listener(id: nat, cid: int32, closed: bool, frames: seq<Packet>)

  /** `receives` are outstanding reads, `timers` scheduled runs of the read loop, `failed` scheduled destructions. */
  datatype Reader = Reader(alive: bool, updating: bool, clients: seq<Listener>, receives: nat, timers: nat, failed: nat)

  const FRESH: Reader := Reader(true, false, [], 0, 0, 0)

  // ----- the effect of each method

  /** `receivedFrame`: a closed client does not take the frame, and leaves. */
  function Received(c: Listener, p: Packet): Listener {
    if !c.closed && ForChannel(c.cid, p) then c.(frames := c.frames + [p]) else c
  }

  function Publish(cs: seq<Listener>, p: Packet): seq<Listener> {
    if cs == [] then []
    else Publish(cs[..|cs| - 1], p) + if cs[|cs| - 1].closed then [] else [Received(cs[|cs| - 1], p)]
  }

  function PublishAll(cs: seq<Listener>, ps: seq<Packet>): seq<Listener> {
    if ps == [] then cs else Publish(PublishAll(cs, ps[..|ps| - 1]), ps[|ps| - 1])
  }

  function Destroy(s: Reader): Reader {
    s.(alive := false, clients := [])
  }

  function ReadLoop(s: Reader): Reader {
    if !s.alive then s
    else if s.clients == [] then Destroy(s)
    else if s.updating then s
    else s.(receives := s.receives + 1)
  }

  predicate HasClient(cs: seq<Listener>, id: nat) {
    exists k :: 0 <= k < |cs| && cs[k].id == id
  }

  /** The first client starts the loop. */
  function Register(s: Reader, c: Listener): Reader {
    if HasClient(s.clients, c.id) then s
    else
      var s1 := s.(clients := s.clients + [c]);
      if s.clients == [] then ReadLoop(s1) else s1
  }

  function Deregister(s: Reader, i: nat): Reader {
    if i < |s.clients| then s.(clients := s.clients[..i] + s.clients[i + 1..]) else s
  }

  // ----- every client gets its frames

  ghost predicate Open(cs: seq<Listener>) {
    forall i :: 0 <= i < |cs| ==> !cs[i].closed
  }

  lemma {:induction false} PublishKeepsOpen(cs: seq<Listener>, p: Packet)
    requires Open(cs)
    ensures |Publish(cs, p)| == |cs| && Open(Publish(cs, p))
    ensures forall i :: 0 <= i < |cs| ==> Publish(cs, p)[i] == Received(cs[i], p)
  {
    hide ForChannel;
    if cs != [] {
      PublishKeepsOpen(cs[..|cs| - 1], p);
    }
  }

  /** However many clients share a device: each one queues exactly the packets of its channel and those for everybody,
      once each and in order, whatever comes for the others. */
  lemma {:induction false} EachGetsItsOwn(cs: seq<Listener>, ps: seq<Packet>)
    requires Open(cs)
    ensures |PublishAll(cs, ps)| == |cs| && Open(PublishAll(cs, ps))
    ensures forall i :: 0 <= i < |cs| ==> PublishAll(cs, ps)[i] == cs[i].(frames := cs[i].frames + Filter(cs[i].cid, ps))
  {
    hide ForChannel, Publish;
    if ps == [] {
      assert forall c: Listener :: c.frames + [] == c.frames;
    } else {
      var n := |ps| - 1;
      var before := PublishAll(cs, ps[..n]);
      EachGetsItsOwn(cs, ps[..n]);
      PublishKeepsOpen(before, ps[n]);
      forall i | 0 <= i < |cs|
        ensures PublishAll(cs, ps)[i] == cs[i].(frames := cs[i].frames + Filter(cs[i].cid, ps))
      {
        var f := Filter(cs[i].cid, ps[..n]);
        assert cs[i].frames + f + [ps[n]] == cs[i].frames + (f + [ps[n]]);
        assert f + [] == f;
      }
    }
  }

  /** Publishing drops exactly the clients that were closed; the others stay in their order. */
  lemma {:induction false} ClosedLeave(cs: seq<Listener>, p: Packet)
    ensures Open(Publish(cs, p))
    ensures Publish(cs, p) == Publish(StillOpen(cs), p)
  {
    hide ForChannel;
    if cs != [] {
      var n := |cs| - 1;
      ClosedLeave(cs[..n], p);
      assert !cs[n].closed ==> StillOpen(cs)[..|StillOpen(cs)| - 1] == StillOpen(cs[..n]);
      assert StillOpen(cs[..n]) + [] == StillOpen(cs[..n]);
    }
  }

  function StillOpen(cs: seq<Listener>): seq<Listener> {
    if cs == [] then [] else StillOpen(cs[..|cs| - 1]) + if cs[|cs| - 1].closed then [] else [cs[|cs| - 1]]
  }

  lemma {:induction false} PublishedOpen(cs: seq<Listener>, p: Packet, i: nat) returns (k: nat)
    requires i < |Publish(cs, p)|
    ensures k < |cs| && !cs[k].closed && Publish(cs, p)[i] == Received(cs[k], p)
  {
    hide ForChannel;
    var n := |cs| - 1;
    if i < |Publish(cs[..n], p)| {
      k := PublishedOpen(cs[..n], p, i);
    } else {
      k := n;
    }
  }

  // ----- the read loop

  /** A packet is published when it has been read, or because the driver says so itself: that a device is busy or gone. */
  datatype Event =
    | Registered(c: Listener)
    | Deregistered(i: nat)
    | ClientClosed(i: nat)
    | ReportCame(p: Packet)
    | ReadFailed
    | Published(p: Packet)
    | LoopTimer
    | LastBlockSent
    | Destroyed

  function Step(s: Reader, e: Event): Reader {
    match e
    case Registered(c) => if s.alive then Register(s, c) else s
    case Deregistered(i) => Deregister(s, i)
    case ClientClosed(i) => if i < |s.clients| then s.(clients := s.clients[i := s.clients[i].(closed := true)]) else s
    case ReportCame(p) =>
      if s.receives > 0 then s.(receives := s.receives - 1, clients := Publish(s.clients, p), timers := s.timers + 1) else s
    case Published(p) => s.(clients := Publish(s.clients, p))
    case ReadFailed => if s.receives > 0 then s.(receives := s.receives - 1, failed := s.failed + 1) else s
    case LoopTimer => if s.timers > 0 then ReadLoop(s.(timers := s.timers - 1)) else s
    case LastBlockSent => s.(updating := true)
    case Destroyed => Destroy(s)
  }

  function Run(s: Reader, es: seq<Event>): Reader {
    if es == [] then s else Step(Run(s, es[..|es| - 1]), es[|es| - 1])
  }

  function Loops(s: Reader): nat { s.receives + s.timers }

  /** As long as a device has clients, somebody reads for them or a failure is about to be acted on; but a device whose
      firmware has been updated is read no more. */
  ghost predicate Inv(s: Reader) {
    && (s.alive && !s.updating && s.clients != [] ==> Loops(s) + s.failed > 0)
    && (!s.alive ==> s.clients == [])
  }

  lemma {:induction false} ClientsAreServed(es: seq<Event>)
    ensures Inv(Run(FRESH, es))
  {
    hide Inv, Step;
    if es != [] {
      ClientsAreServed(es[..|es| - 1]);
      StepKeepsInv(Run(FRESH, es[..|es| - 1]), es[|es| - 1]);
    } else {
      StartsIdle();
    }
  }

  lemma StartsIdle()
    ensures Inv(FRESH)
  {
  }

  lemma {:induction false} StepKeepsInv(s: Reader, e: Event)
    requires Inv(s)
    ensures Inv(Step(s, e))
  {
    hide Publish;
    PublishNothing();
  }

  lemma PublishNothing()
    ensures forall p :: Publish([], p) == []
  {
  }

  /** A read that is answered is followed by the loop that starts the next one, a read that fails by a destruction; and the
      loop reads as long as there are clients, unless the firmware is being updated. */
  lemma LoopGoesOn(s: Reader, e: Event)
    ensures var t := Step(s, e);
            && (e.ReportCame? && s.receives > 0 ==> t.receives == s.receives - 1 && t.timers == s.timers + 1)
            && (e == ReadFailed && s.receives > 0 ==> t == s.(receives := s.receives - 1, failed := s.failed + 1))
            && (e == LoopTimer && s.timers > 0 && s.alive ==>
                  t.timers == s.timers - 1 && t.alive == (s.clients != [])
                  && t.receives == if s.clients != [] && !s.updating then s.receives + 1 else s.receives)
            && (e == LastBlockSent ==> t == s.(updating := true))
            && (t.updating <==> s.updating || e == LastBlockSent)
            && (t.alive ==> s.alive)
  {
    hide Publish;
  }

  /** The list was empty for a moment while the loop that served it is still under way. */
  ghost predicate LateFirst(s: Reader, e: Event) {
    e.Registered? && s.alive && !s.updating && s.clients == [] && Loops(s) > 0
  }

  ghost predicate NeverLate(s: Reader, es: seq<Event>) {
    es == [] || (NeverLate(s, es[..|es| - 1]) && !LateFirst(Run(s, es[..|es| - 1]), es[|es| - 1]))
  }

  /** A second loop, with a second read at the same time, starts exactly when a client registers late. */
  lemma SecondLoop(s: Reader, e: Event)
    requires Loops(s) <= 1
    ensures Loops(Step(s, e)) > 1 <==> LateFirst(s, e)
  {
    hide Publish;
  }

  /** The only client closes and a report comes, which drops it; before the loop notices, another client registers. */
  lemma TwoLoops(c: Listener, p: Packet, d: Listener)
    requires !c.closed
    ensures Loops(Run(FRESH, [Registered(c), ClientClosed(0), ReportCame(p), Registered(d)])) == 2
  {
    hide Run;
    var es := [Registered(c), ClientClosed(0), ReportCame(p), Registered(d)];
    RunNothing();
    RunStep(FRESH, es[..3][..2][..1]);
    RunStep(FRESH, es[..3][..2]);
    RunStep(FRESH, es[..3]);
    RunStep(FRESH, es);
    assert es[..3] == [Registered(c), ClientClosed(0), ReportCame(p)] && es[..3][..2] == [Registered(c), ClientClosed(0)];
    assert es[..3][..2][..1] == [Registered(c)] && es[..3][..2][..1][..0] == [];
    var s1 := Step(FRESH, Registered(c));
    assert s1.clients == [c] && s1.receives == 1 && s1.timers == 0;
    var s2 := Step(s1, ClientClosed(0));
    assert s2.clients == [c.(closed := true)];
    var s3 := Step(s2, ReportCame(p));
    assert s2.clients[..0] == [] && Publish([], p) == [];
    assert s3.clients == [] && s3.timers == 1 && s3.alive && s3.receives == 0;
  }

  lemma {:induction false} RunStep(s: Reader, es: seq<Event>)
    requires es != []
    ensures Run(s, es) == Step(Run(s, es[..|es| - 1]), es[|es| - 1])
  {
    hide Step;
  }

  lemma RunNothing()
    ensures Run(FRESH, []) == FRESH
  {
  }

  lemma {:induction false} OneLoop(es: seq<Event>)
    requires NeverLate(FRESH, es)
    ensures Loops(Run(FRESH, es)) <= 1
  {
    hide Step, LateFirst;
    if es != [] {
      OneLoop(es[..|es| - 1]);
      SecondLoop(Run(FRESH, es[..|es| - 1]), es[|es| - 1]);
    }
  }

  // ----- what each client gets, over whole runs

  /** The packets that a client has queued since it was last put into the list, with those it brought along. */
  function QueuedBy(es: seq<Event>, id: nat, cid: int32): seq<Packet> {
    if es == [] then []
    else
      var n := |es| - 1;
      var s := Run(FRESH, es[..n]);
      match es[n]
      case Registered(c) => if s.alive && c.id == id && !HasClient(s.clients, id) then c.frames else QueuedBy(es[..n], id, cid)
      case Published(p) => QueuedBy(es[..n], id, cid) + Filter(cid, [p])
      case ReportCame(p) => QueuedBy(es[..n], id, cid) + if s.receives > 0 then Filter(cid, [p]) else []
      case _ => QueuedBy(es[..n], id, cid)
  }

  ghost predicate Supplied(cs: seq<Listener>, es: seq<Event>) {
    forall i :: 0 <= i < |cs| && !cs[i].closed ==> cs[i].frames == QueuedBy(es, cs[i].id, cs[i].cid)
  }

  lemma FilterOne(cid: int32, p: Packet)
    ensures Filter(cid, [p]) == if ForChannel(cid, p) then [p] else []
  {
    hide ForChannel;
    assert [p][..0] == [];
    assert Filter(cid, []) == [];
  }

  lemma {:induction false} ReportSupplies(es: seq<Event>, p: Packet)
    requires es != []
    requires es[|es| - 1] == Published(p) || (es[|es| - 1] == ReportCame(p) && Run(FRESH, es[..|es| - 1]).receives > 0)
    requires Supplied(Run(FRESH, es[..|es| - 1]).clients, es[..|es| - 1])
    ensures Supplied(Publish(Run(FRESH, es[..|es| - 1]).clients, p), es)
  {
    hide ForChannel, Filter, Run, Publish;
    var cs := Run(FRESH, es[..|es| - 1]).clients;
    var after := Publish(cs, p);
    forall i | 0 <= i < |after| && !after[i].closed
      ensures after[i].frames == QueuedBy(es, after[i].id, after[i].cid)
    {
      var k := PublishedOpen(cs, p, i);
      FilterOne(cs[k].cid, p);
      assert cs[k].frames + [] == cs[k].frames;
    }
  }

  /** In every run, whatever other clients come, close and leave, and however many reads there are: each open client in the
      list has queued exactly the packets of its channel, and those for everybody, that were published since it registered. */
  lemma {:induction false} EachIsSupplied(es: seq<Event>)
    ensures Supplied(Run(FRESH, es).clients, es)
  {
    hide Publish, Filter, ForChannel, HasClient;
    if es != [] {
      var n := |es| - 1;
      var s := Run(FRESH, es[..n]);
      EachIsSupplied(es[..n]);
      match es[n]
      case ReportCame(p) =>
        if s.receives > 0 {
          ReportSupplies(es, p);
        } else {
          assert forall q: seq<Packet> :: q + [] == q;
        }
      case Published(p) => ReportSupplies(es, p);
      case Registered(c) => RegisteringSupplies(es, c);
      case Deregistered(i) =>
        if i < |s.clients| {
          var left := s.clients[..i] + s.clients[i + 1..];
          assert forall k :: 0 <= k < |left| ==> left[k] == s.clients[if k < i then k else k + 1];
        }
      case _ =>
    }
  }

  lemma {:induction false} RegisteringSupplies(es: seq<Event>, c: Listener)
    requires es != [] && es[|es| - 1] == Registered(c)
    requires Supplied(Run(FRESH, es[..|es| - 1]).clients, es[..|es| - 1])
    ensures Supplied(Run(FRESH, es).clients, es)
  {
    hide Publish, Filter, ForChannel;
    var s := Run(FRESH, es[..|es| - 1]);
    if s.alive && !HasClient(s.clients, c.id) {
      var after := s.clients + [c];
      assert Run(FRESH, es).clients == after;
      forall i | 0 <= i < |after| && !after[i].closed
        ensures after[i].frames == QueuedBy(es, after[i].id, after[i].cid)
      {
        if i < |s.clients| {
          assert s.clients[i].id != c.id;
        }
      }
    }
  }

  // ----- who is in the list

  ghost predicate Listed(cs: seq<Listener>, id: nat, cid: int32) {
    exists k :: 0 <= k < |cs| && cs[k].id == id && cs[k].cid == cid && !cs[k].closed
  }

  /** The client at position `k` leaves, is closed, or loses its device. */
  predicate Ends(e: Event, k: nat) {
    e == Deregistered(k) || e == ClientClosed(k) || e == Destroyed
  }

  /** An open client stays in the list until it leaves, is closed, or the device is destroyed. */
  lemma StaysListed(s: Reader, e: Event, k: nat)
    requires k < |s.clients| && !s.clients[k].closed && !Ends(e, k)
    ensures Listed(Step(s, e).clients, s.clients[k].id, s.clients[k].cid)
  {
    hide Publish, ForChannel;
    var c := s.clients[k];
    match e
    case Published(p) => PublishKeepsListed(s.clients, p, k);
    case ReportCame(p) => PublishKeepsListed(s.clients, p, k);
    case Deregistered(i) =>
      if i < |s.clients| {
        var left := s.clients[..i] + s.clients[i + 1..];
        assert left[if k < i then k else k - 1] == c;
      }
    case Registered(d) => assert (s.clients + [d])[k] == c;
    case Destroyed =>
    case _ => assert Step(s, e).clients[k] == c;
  }

  lemma {:induction false} PublishKeepsListed(cs: seq<Listener>, p: Packet, k: nat)
    requires k < |cs| && !cs[k].closed
    ensures Listed(Publish(cs, p), cs[k].id, cs[k].cid)
  {
    hide ForChannel;
    var n := |cs| - 1;
    var before := Publish(cs[..n], p);
    if k < n {
      PublishKeepsListed(cs[..n], p, k);
      var j :| 0 <= j < |before| && before[j].id == cs[k].id && before[j].cid == cs[k].cid && !before[j].closed;
      assert Publish(cs, p)[j] == before[j];
    } else {
      assert Publish(cs, p)[|before|] == Received(cs[n], p);
    }
  }

  /** A client gets into the list by registering with a working device, and out of it by leaving; no list outlives its device. */
  lemma ListChanges(s: Reader, e: Event)
    ensures e.Registered? && s.alive && !e.c.closed && !HasClient(s.clients, e.c.id) ==> Listed(Step(s, e).clients, e.c.id, e.c.cid)
    ensures e.Deregistered? && e.i < |s.clients| ==> Step(s, e).clients == s.clients[..e.i] + s.clients[e.i + 1..]
    ensures e.ClientClosed? && e.i < |s.clients| ==> Step(s, e).clients[e.i].closed
    ensures e == Destroyed ==> Step(s, e).clients == [] && !Step(s, e).alive
  {
    hide Publish;
    if e.Registered? {
      assert (s.clients + [e.c])[|s.clients|] == e.c;
    }
  }

  // ----- the list in place

  class Clients {
    var alive: bool
    var updating: bool
    var clients: seq<Listener>
    var receives: nat
    var timers: nat
    var failed: nat

    ghost function State(): Reader
      reads this
    {
      Reader(alive, updating, clients, receives, timers, failed)
    }

    constructor ()
      ensures State() == FRESH
    {
      alive, updating, clients, receives, timers, failed := true, false, [], 0, 0, 0;
    }

    method PublishFrame(p: Packet)
      modifies `clients
      ensures State() == old(State()).(clients := Publish(old(clients), p))
    {
      hide ForChannel;
      var was := clients;
      var remaining := [];
      for i := 0 to |was|
        invariant remaining == Publish(was[..i], p)
      {
        assert was[..i + 1][..i] == was[..i];
        if !was[i].closed {
          remaining := remaining + [Received(was[i], p)];
        }
      }
      assert was[..|was|] == was;
      clients := remaining;
    }

    method RegisterClient(c: Listener)
      modifies this
      ensures State() == Register(old(State()), c)
    {
      for i := 0 to |clients|
        invariant forall k :: 0 <= k < i ==> clients[k].id != c.id
      {
        if clients[i].id == c.id {
          return;
        }
      }
      clients := clients + [c];
      if |clients| == 1 {
        RunReadLoop();
      }
    }

    method RunReadLoop()
      modifies this
      ensures State() == ReadLoop(old(State()))
    {
      if !alive {
        return;
      }
      if |clients| == 0 {
        alive, clients := false, [];
        return;
      }
      if updating {
        return;
      }
      receives := receives + 1;
    }

    method ReceiveDone(report: Option<Packet>)
      requires receives > 0
      modifies this
      ensures State() == Step(old(State()), match report { case Some(p) => ReportCame(p) case None => ReadFailed })
    {
      hide Publish;
      receives := receives - 1;
      match report
      case None => failed := failed + 1;
      case Some(p) =>
        PublishFrame(p);
        timers := timers + 1;
    }
  }
}
