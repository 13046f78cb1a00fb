/** Many sign requests in one queue: to complete the token of one request is to begin the next one, in the middle of whatever
    completed it. */
module SignQueue {
  import opened Answers
  import opened KeyHandles
  import Requests = SignRequests
  import Queues = QueueSchedule

  /** A request as it was queued, whether it names an app id, and what has happened to it since. */
  datatype Life = Life(initial: Requests.Sign, appIds: bool, events: seq<Requests.Event>)

  /** The requests in the order in which they were queued, and the operations on their queue.  Request `t` has token `t`,
      and is `lives[t - 1]`. */
  datatype System = System(lives: seq<Life>, calls: seq<Queues.Event>)

  const NO_REQUESTS: System := System([], [])

  function Now(l: Life): Requests.Sign {
    Requests.Run(l.initial, l.events)
  }

  function QueueOf(y: System): Queues.Queue {
    Queues.Run(Queues.EMPTY, y.calls)
  }

  predicate Exists(y: System, t: nat) {
    1 <= t <= |y.lives|
  }

  function RequestOf(y: System, t: nat): Requests.Sign
    requires Exists(y, t)
  {
    Now(y.lives[t - 1])
  }

  // ----- the effect of an event

  function Called(y: System, c: Queues.Event): System {
    y.(calls := y.calls + [c])
  }

  function Happened(y: System, t: nat, e: Requests.Event): System
    requires Exists(y, t)
  {
    var l := y.lives[t - 1];
    y.(lives := y.lives[t - 1 := l.(events := l.events + [e])])
  }

  /** Whatever happens to a request, its token is completed in the course of it if it is not completed any more after it. */
  function Act(y: System, t: nat, e: Requests.Event): (z: System)
    requires Exists(y, t)
    ensures |z.lives| == |y.lives|
    decreases |QueueOf(y).waiting|, 1
  {
    var z := Happened(y, t, e);
    if RequestOf(z, t).request.completed && !RequestOf(y, t).request.completed then CompleteToken(z, t) else z
  }

  /** `RequestQueue.complete`: the successor is begun at once, and may complete its own token at once. */
  function CompleteToken(y: System, t: nat): (z: System)
    ensures |z.lives| == |y.lives|
    decreases |QueueOf(y).waiting|, 0
  {
    var z := Called(y, Queues.Completed(t));
    var next := Successor(QueueOf(y), t);
    LastCall(y, Queues.Completed(t));
    if Exists(y, next) then Act(z, next, Requests.BeginWork(y.lives[next - 1].appIds)) else z
  }

  /** The token behind `t`, or 0. */
  function Successor(q: Queues.Queue, t: nat): nat {
    var i := Queues.IndexOf(q.waiting, t);
    if i + 1 < |q.waiting| then q.waiting[i + 1] else 0
  }

  lemma LastCall(y: System, c: Queues.Event)
    ensures QueueOf(Called(y, c)) == Queues.Step(QueueOf(y), c)
  {
    assert (y.calls + [c])[..|y.calls|] == y.calls;
  }

  // ----- runs

  /** A page asks, the queue's first request is started, or something happens to request `t`.  Requests are begun by the queue
      alone. */
  datatype Event =
    | Arrives(watchdogTimer: bool, requestTimer: bool, appIds: bool, challenges: seq<Entry>)
    | StartTimer(t: nat)
    | Happens(t: nat, e: Requests.Event)

  function Step(y: System, e: Event): System {
    match e
    case Arrives(watchdogTimer, requestTimer, appIds, challenges) =>
      Called(y, Queues.Queued).(lives := y.lives + [Life(Requests.Queued(watchdogTimer, requestTimer, challenges), appIds, [])])
    case StartTimer(t) =>
      if t !in QueueOf(y).starts || !Exists(y, t) then y
      else
        var z := Called(y, Queues.Started(t));
        if RequestOf(y, t).request.completed then z else Act(z, t, Requests.BeginWork(y.lives[t - 1].appIds))
    case Happens(t, x) => if Exists(y, t) && !x.BeginWork? then Act(y, t, x) else y
  }

  function Run(y: System, es: seq<Event>): System {
    if es == [] then y else Step(Run(y, es[..|es| - 1]), es[|es| - 1])
  }

  // ----- the queue knows who is to be served

  ghost predicate WasQueued(q: Requests.Sign) {
    exists w, r, challenges :: q == Requests.Queued(w, r, challenges)
  }

  /** The requests that wait are those whose tokens are not completed, and they are at work if the queue has begun them. */
  ghost predicate Attuned(q: Queues.Queue, t: nat, s: Requests.Sign) {
    && (t in q.waiting <==> !s.request.completed)
    && (!s.request.completed ==> (t in q.begun <==> s.request.begun))
  }

  /** All requests but `hole` are attuned to the queue. */
  ghost predicate Consistent(y: System, hole: nat) {
    && |y.lives| == QueueOf(y).id
    && (forall l :: l in y.lives ==> WasQueued(l.initial))
    && (forall t :: Exists(y, t) && t != hole ==> Attuned(QueueOf(y), t, RequestOf(y, t)))
  }

  /** What a request may meet when `e` is about to happen to it: the queue has counted a begin already. */
  ghost predicate Ready(q: Queues.Queue, t: nat, s: Requests.Sign, e: Requests.Event) {
    && (t in q.waiting <==> !s.request.completed)
    && (!s.request.completed ==> (t in q.begun <==> s.request.begun || e.BeginWork?))
  }

  lemma LifeInv(l: Life)
    requires WasQueued(l.initial)
    ensures Requests.Inv(Now(l))
  {
    hide Requests.Inv;
    Requests.QueuedInv(l.initial);
    Requests.RunKeepsInv(l.initial, l.events);
  }

  lemma StepTouches(s: Requests.Sign, e: Requests.Event)
    requires Requests.Inv(s)
    ensures var r := Requests.Step(s, e).request;
            && (s.request.completed ==> r.completed)
            && (!r.completed ==> (r.begun <==> s.request.begun || e.BeginWork?))
  {
  }

  lemma HappenedNow(y: System, t: nat, e: Requests.Event)
    requires Exists(y, t)
    ensures var z := Happened(y, t, e);
            && QueueOf(z) == QueueOf(y)
            && RequestOf(z, t) == Requests.Step(RequestOf(y, t), e)
            && (forall u :: Exists(y, u) && u != t ==> RequestOf(z, u) == RequestOf(y, u))
  {
    hide Requests.Step;
    var l := y.lives[t - 1];
    assert (l.events + [e])[..|l.events|] == l.events;
  }

  lemma HappenedKeepsConsistent(y: System, t: nat, e: Requests.Event)
    requires Exists(y, t) && Consistent(y, t)
    ensures Consistent(Happened(y, t, e), t)
  {
    hide Requests.Step, Requests.Run, Queues.Run, WasQueued;
    var z := Happened(y, t, e);
    HappenedNow(y, t, e);
    forall l | l in z.lives
      ensures WasQueued(l.initial)
    {
      assert l in y.lives || (l.initial == y.lives[t - 1].initial && y.lives[t - 1] in y.lives);
    }
  }

  lemma {:induction false} ActKeepsConsistent(y: System, t: nat, e: Requests.Event)
    requires Exists(y, t) && Consistent(y, t) && Ready(QueueOf(y), t, RequestOf(y, t), e)
    ensures Consistent(Act(y, t, e), 0)
    decreases |QueueOf(y).waiting|, 1
  {
    hide Requests.Step, Requests.Run, Queues.Run, CompleteToken, WasQueued, Requests.Inv;
    LifeInv(y.lives[t - 1]);
    var z := Happened(y, t, e);
    HappenedNow(y, t, e);
    HappenedKeepsConsistent(y, t, e);
    StepTouches(RequestOf(y, t), e);
    if RequestOf(z, t).request.completed && !RequestOf(y, t).request.completed {
      CompleteKeepsConsistent(z, t);
    }
  }

  lemma {:induction false} CompleteKeepsConsistent(y: System, t: nat)
    requires Exists(y, t) && Consistent(y, t) && t in QueueOf(y).waiting && RequestOf(y, t).request.completed
    ensures Consistent(CompleteToken(y, t), 0)
    decreases |QueueOf(y).waiting|, 0
  {
    hide Requests.Run, Queues.Run, Queues.Step, Act, Successor, Queues.Inv, Consistent, Ready;
    var next := Successor(QueueOf(y), t);
    LastCall(y, Queues.Completed(t));
    Queues.RunKeepsInv(y.calls);
    CompletedQueue(QueueOf(y), t);
    CalledKeepsConsistent(y, t);
    if Exists(y, next) {
      ActKeepsConsistent(Called(y, Queues.Completed(t)), next, Requests.BeginWork(y.lives[next - 1].appIds));
    }
  }

  /** The queue has dropped the token, and counted the begin of the next one. */
  lemma CalledKeepsConsistent(y: System, t: nat)
    requires Exists(y, t) && Consistent(y, t) && t in QueueOf(y).waiting && RequestOf(y, t).request.completed
    ensures var z, next := Called(y, Queues.Completed(t)), Successor(QueueOf(y), t);
            && Consistent(z, next) && (next != 0 <==> Exists(y, next))
            && (Exists(y, next) ==> Ready(QueueOf(z), next, RequestOf(z, next), Requests.BeginWork(y.lives[next - 1].appIds))
                                    && !RequestOf(z, next).request.completed)
  {
    hide Requests.Run, Queues.Run, Queues.Step, WasQueued, Successor, Queues.Inv;
    var z, next := Called(y, Queues.Completed(t)), Successor(QueueOf(y), t);
    LastCall(y, Queues.Completed(t));
    Queues.RunKeepsInv(y.calls);
    CompletedQueue(QueueOf(y), t);
    forall u | Exists(z, u)
      ensures u != next ==> Attuned(QueueOf(z), u, RequestOf(z, u))
    {
      assert RequestOf(z, u) == RequestOf(y, u);
    }
  }

  lemma CompletedQueue(q: Queues.Queue, t: nat)
    requires Queues.Inv(q) && t in q.waiting
    ensures var r, next := Queues.Step(q, Queues.Completed(t)), Successor(q, t);
            && r.id == q.id && |r.waiting| < |q.waiting|
            && (forall u :: u in r.waiting <==> u in q.waiting && u != t)
            && (forall u: nat :: u in r.begun <==> u in q.begun || (u == next && next != 0))
            && (next != 0 ==> next in r.waiting && next != t && 1 <= next <= q.id)
  {
    hide Queues.IndexOf;
    var w, i := q.waiting, Queues.IndexOf(q.waiting, t);
    forall u: nat
      ensures u in w[..i] + w[i + 1..] <==> u in w && u != t
    {
      Queues.Removed(w, i, u);
    }
    if i + 1 < |w| {
      Queues.Appended(q.begun, w[i + 1]);
    }
  }

  lemma StepKeepsConsistent(y: System, e: Event)
    requires Consistent(y, 0)
    ensures Consistent(Step(y, e), 0)
  {
    hide Requests.Run, Requests.Step, Queues.Run, Queues.Step, Act, WasQueued, Queues.Inv;
    match e
    case Arrives(w, r, appIds, challenges) => ArrivalKeepsConsistent(y, w, r, appIds, challenges);
    case StartTimer(t) =>
      if t in QueueOf(y).starts && Exists(y, t) {
        var z := Called(y, Queues.Started(t));
        LastCall(y, Queues.Started(t));
        StartedQueue(QueueOf(y), t);
        forall u | Exists(z, u)
          ensures u != t ==> Attuned(QueueOf(z), u, RequestOf(z, u))
        {
          assert RequestOf(z, u) == RequestOf(y, u);
        }
        if !RequestOf(y, t).request.completed {
          ActKeepsConsistent(z, t, Requests.BeginWork(y.lives[t - 1].appIds));
        }
      }
    case Happens(t, x) =>
      if Exists(y, t) && !x.BeginWork? {
        ActKeepsConsistent(y, t, x);
      }
  }

  lemma StartedQueue(q: Queues.Queue, t: nat)
    requires t in q.starts
    ensures var r := Queues.Step(q, Queues.Started(t));
            && r.id == q.id && r.waiting == q.waiting
            && (forall u: nat :: u in r.begun <==> u in q.begun || (u == t && t in q.waiting))
  {
    Queues.Appended(q.begun, t);
  }

  lemma ArrivalKeepsConsistent(y: System, w: bool, r: bool, appIds: bool, challenges: seq<Entry>)
    requires Consistent(y, 0)
    ensures Consistent(Step(y, Arrives(w, r, appIds, challenges)), 0)
  {
    hide Requests.Step, Queues.Run, Queues.Step;
    var q := QueueOf(y);
    var z := Step(y, Arrives(w, r, appIds, challenges));
    LastCall(y, Queues.Queued);
    QueuedQueue(y.calls);
    forall u | Exists(z, u)
      ensures Attuned(QueueOf(z), u, RequestOf(z, u))
    {
      if Exists(y, u) {
        assert RequestOf(z, u) == RequestOf(y, u);
      } else {
        assert RequestOf(z, u) == Requests.Queued(w, r, challenges);
      }
    }
    assert WasQueued(Requests.Queued(w, r, challenges));
  }

  lemma QueuedQueue(calls: seq<Queues.Event>)
    ensures var q := Queues.Run(Queues.EMPTY, calls);
            var r := Queues.Step(q, Queues.Queued);
            && r.id == q.id + 1 && r.begun == q.begun && r.id !in q.begun
            && (forall u: nat :: u in r.waiting <==> u in q.waiting || u == r.id)
  {
    hide Queues.Run;
    Queues.RunKeepsInv(calls);
    Queues.Appended(Queues.Run(Queues.EMPTY, calls).waiting, Queues.Run(Queues.EMPTY, calls).id + 1);
  }

  /** Over all runs, those waiting are the requests that are not completed. */
  lemma {:induction false} RunIsConsistent(es: seq<Event>)
    ensures Consistent(Run(NO_REQUESTS, es), 0)
  {
    hide Step, Consistent;
    if es != [] {
      RunIsConsistent(es[..|es| - 1]);
      StepKeepsConsistent(Run(NO_REQUESTS, es[..|es| - 1]), es[|es| - 1]);
    } else {
      NobodyWaits();
    }
  }

  lemma NobodyWaits()
    ensures Consistent(NO_REQUESTS, 0)
  {
  }

  /** The queue never gets stuck: its first request has its start scheduled, or is at work, with a signer that has reported
      nothing yet and a page that still waits for its answer. */
  lemma NeverStuck(es: seq<Event>)
    ensures var y := Run(NO_REQUESTS, es);
            QueueOf(y).waiting != [] ==>
                var h := QueueOf(y).waiting[0];
                && Exists(y, h)
                && (h !in QueueOf(y).starts ==> Requests.AtWork(RequestOf(y, h)) && !RequestOf(y, h).watchdog.closed)
  {
    hide Run, Queues.Run, Requests.Run, Requests.Step;
    var y := Run(NO_REQUESTS, es);
    RunIsConsistent(es);
    Queues.RunKeepsInv(y.calls);
    if QueueOf(y).waiting != [] {
      LifeInv(y.lives[QueueOf(y).waiting[0] - 1]);
    }
  }

  // ----- what a nested begin leaves alone

  function With(y: System, t: nat, l: Life): System
    requires Exists(y, t)
  {
    y.(lives := y.lives[t - 1 := l])
  }

  /** What happens to other requests does not depend on a request that does not wait, and leaves it alone. */
  lemma {:induction false} ActCommutes(y: System, u: nat, e: Requests.Event, t: nat, l: Life)
    requires Exists(y, u) && Exists(y, t) && t != u && t !in QueueOf(y).waiting
    ensures Act(With(y, t, l), u, e) == With(Act(y, u, e), t, l)
    decreases |QueueOf(y).waiting|, 1
  {
    hide Requests.Run, Queues.Run, CompleteToken;
    var z := Happened(y, u, e);
    assert Happened(With(y, t, l), u, e) == With(z, t, l);
    if RequestOf(z, u).request.completed && !RequestOf(y, u).request.completed {
      CompleteCommutes(z, u, t, l);
    }
  }

  /** Completing a token has the same effect whatever its own request has still to do: it makes no difference that the
      next request is begun in the middle of an event of this one, and not after it. */
  lemma {:induction false} CompleteCommutes(y: System, u: nat, t: nat, l: Life)
    requires Exists(y, t) && (t !in QueueOf(y).waiting || t == u)
    ensures CompleteToken(With(y, t, l), u) == With(CompleteToken(y, u), t, l)
    decreases |QueueOf(y).waiting|, 0
  {
    hide Requests.Run, Queues.Run, Queues.Step, Act, Queues.Inv, Successor;
    var q, next := QueueOf(y), Successor(QueueOf(y), u);
    var z := Called(y, Queues.Completed(u));
    LastCall(y, Queues.Completed(u));
    Queues.RunKeepsInv(y.calls);
    assert Called(With(y, t, l), Queues.Completed(u)) == With(z, t, l);
    if u in q.waiting {
      CompletedQueue(q, u);
      if Exists(y, next) {
        ActCommutes(z, next, Requests.BeginWork(y.lives[next - 1].appIds), t, l);
      }
    } else {
      NoSuccessor(q, u);
    }
  }

  lemma NoSuccessor(q: Queues.Queue, t: nat)
    ensures t !in q.waiting ==> Successor(q, t) == 0
  {
  }

  /** What a request causes in the queue does not come back to it. */
  lemma ActOnce(y: System, t: nat, e: Requests.Event)
    requires Exists(y, t) && (t in QueueOf(y).waiting ==> !RequestOf(y, t).request.completed)
    ensures Act(y, t, e).lives[t - 1] == Happened(y, t, e).lives[t - 1]
    ensures RequestOf(Act(y, t, e), t) == Requests.Step(RequestOf(y, t), e)
  {
    hide Requests.Step, Requests.Run, Queues.Run, CompleteToken;
    var z := Happened(y, t, e);
    HappenedNow(y, t, e);
    if RequestOf(z, t).request.completed && !RequestOf(y, t).request.completed {
      assert With(z, t, z.lives[t - 1]) == z;
      CompleteCommutes(z, t, t, z.lives[t - 1]);
    }
  }

  // ----- every page gets its answer once

  /** `k` is what became of `l`. */
  ghost predicate Extends(l: Life, k: Life) {
    k.initial == l.initial && k.appIds == l.appIds && l.events <= k.events
  }

  /** More has happened to a request after an event: it was begun, or the event was its own. */
  lemma {:induction false} ActExtends(y: System, t: nat, e: Requests.Event, u: nat)
    requires Exists(y, t) && Exists(y, u)
    ensures Extends(y.lives[u - 1], Act(y, t, e).lives[u - 1])
    ensures forall x :: x in Act(y, t, e).lives[u - 1].events ==> x in y.lives[u - 1].events || x.BeginWork? || (u == t && x == e)
    decreases |QueueOf(y).waiting|, 1
  {
    hide Requests.Run, Queues.Run, CompleteToken;
    var z := Happened(y, t, e);
    if RequestOf(z, t).request.completed && !RequestOf(y, t).request.completed {
      CompleteExtends(z, t, u);
    }
  }

  lemma {:induction false} CompleteExtends(y: System, t: nat, u: nat)
    requires Exists(y, u)
    ensures Extends(y.lives[u - 1], CompleteToken(y, t).lives[u - 1])
    ensures forall x :: x in CompleteToken(y, t).lives[u - 1].events ==> x in y.lives[u - 1].events || x.BeginWork?
    decreases |QueueOf(y).waiting|, 0
  {
    hide Requests.Run, Queues.Run, Act;
    LastCall(y, Queues.Completed(t));
    var next := Successor(QueueOf(y), t);
    if Exists(y, next) {
      ActExtends(Called(y, Queues.Completed(t)), next, Requests.BeginWork(y.lives[next - 1].appIds), u);
    }
  }

  lemma StepExtends(y: System, e: Event, u: nat)
    requires Exists(y, u)
    ensures Exists(Step(y, e), u) && Extends(y.lives[u - 1], Step(y, e).lives[u - 1])
    ensures forall x :: x in Step(y, e).lives[u - 1].events ==> x in y.lives[u - 1].events || x.BeginWork? || e == Happens(u, x)
  {
    hide Requests.Run, Queues.Run, Act;
    match e
    case Arrives(_, _, _, _) =>
    case StartTimer(t) =>
      if t in QueueOf(y).starts && Exists(y, t) {
        ActExtends(Called(y, Queues.Started(t)), t, Requests.BeginWork(y.lives[t - 1].appIds), u);
      }
    case Happens(t, x) =>
      if Exists(y, t) {
        ActExtends(y, t, x, u);
      }
  }

  lemma {:induction false} RunExtends(y: System, es: seq<Event>, u: nat)
    requires Exists(y, u)
    ensures Exists(Run(y, es), u) && Extends(y.lives[u - 1], Run(y, es).lives[u - 1])
  {
    hide Step;
    if es != [] {
      RunExtends(y, es[..|es| - 1], u);
      StepExtends(Run(y, es[..|es| - 1]), es[|es| - 1], u);
    }
  }

  lemma {:induction false} EventsCame(es: seq<Event>, u: nat)
    requires Exists(Run(NO_REQUESTS, es), u)
    ensures forall x :: x in Run(NO_REQUESTS, es).lives[u - 1].events ==> x.BeginWork? || Happens(u, x) in es
  {
    hide Step;
    var n := |es| - 1;
    var y := Run(NO_REQUESTS, es[..n]);
    if Exists(y, u) {
      EventsCame(es[..n], u);
      StepExtends(y, es[n], u);
      assert forall e :: e in es[..n] ==> e in es;
    } else {
      NewLife(y, es[n], u);
    }
  }

  lemma NewLife(y: System, e: Event, u: nat)
    requires !Exists(y, u) && Exists(Step(y, e), u)
    ensures Step(y, e).lives[u - 1].events == []
  {
    hide Act;
  }

  lemma {:induction false} RunOn(s: Requests.Sign, a: seq<Requests.Event>, b: seq<Requests.Event>)
    ensures Requests.Run(s, a + b) == Requests.Run(Requests.Run(s, a), b)
  {
    hide Requests.Step;
    if b == [] {
      assert a + b == a;
    } else {
      RunOn(s, a, b[..|b| - 1]);
      assert (a + b)[..|a + b| - 1] == a + b[..|b| - 1];
    }
  }

  /** A request is answered at most once, with one of its own challenges if with a success, and never after its watchdog was
      closed, whatever the others do; and it ends in silence only if its own port was closed. */
  lemma EachRespondsOnce(es: seq<Event>, t: nat, later: seq<Event>)
    requires Exists(Run(NO_REQUESTS, es), t)
    ensures var s := RequestOf(Run(NO_REQUESTS, es), t);
            && |s.sent| <= 1
            && Exists(Run(Run(NO_REQUESTS, es), later), t)
            && (s.watchdog.closed ==> RequestOf(Run(Run(NO_REQUESTS, es), later), t).sent == s.sent)
            && (s.watchdog.closed && s.sent == [] ==> Happens(t, Requests.PortClosed) in es)
  {
    hide Run, Requests.Run, Requests.Step, Consistent;
    var y := Run(NO_REQUESTS, es);
    RunExtends(y, later, t);
    var l, k := y.lives[t - 1], Run(y, later).lives[t - 1];
    EventsCame(es, t);
    var xs := k.events[|l.events|..];
    assert l.events + xs == k.events;
    RunOn(l.initial, l.events, xs);
    InitiallyQueued(es, t);
    var w, r, challenges :| l.initial == Requests.Queued(w, r, challenges);
    Requests.RespondsOnce(w, r, challenges, l.events, xs);
  }

  lemma InitiallyQueued(es: seq<Event>, t: nat)
    requires Exists(Run(NO_REQUESTS, es), t)
    ensures WasQueued(Run(NO_REQUESTS, es).lives[t - 1].initial)
  {
    hide Run, WasQueued, Attuned;
    RunIsConsistent(es);
  }

  // ----- one request at a time

  ghost predicate CompletesInTheMiddle(y: System, e: Event) {
    var w := QueueOf(y).waiting;
    && (e.Happens? || e.StartTimer?) && Exists(y, e.t) && e.t in w && e.t != w[0] && e.t != w[|w| - 1]
    && RequestOf(Step(y, e), e.t).request.completed
  }

  ghost predicate EndsOnly(es: seq<Event>) {
    es == [] || (EndsOnly(es[..|es| - 1]) && !CompletesInTheMiddle(Run(NO_REQUESTS, es[..|es| - 1]), es[|es| - 1]))
  }

  lemma {:induction false} ActAtEnds(y: System, t: nat, e: Requests.Event)
    requires Exists(y, t) && Queues.EndsOnly(y.calls)
    requires Requests.Step(RequestOf(y, t), e).request.completed ==> Queues.AtTheEnds(QueueOf(y), Queues.Completed(t))
    ensures Queues.EndsOnly(Act(y, t, e).calls)
    decreases |QueueOf(y).waiting|, 1
  {
    hide Requests.Run, Requests.Step, Queues.Run, Queues.AtTheEnds, Queues.EndsOnly, CompleteToken;
    var z := Happened(y, t, e);
    HappenedNow(y, t, e);
    if RequestOf(z, t).request.completed && !RequestOf(y, t).request.completed {
      CompleteAtEnds(z, t);
    }
  }

  lemma {:induction false} CompleteAtEnds(y: System, t: nat)
    requires Queues.EndsOnly(y.calls) && Queues.AtTheEnds(QueueOf(y), Queues.Completed(t))
    ensures Queues.EndsOnly(CompleteToken(y, t).calls)
    decreases |QueueOf(y).waiting|, 0
  {
    hide Requests.Run, Requests.Step, Queues.Run, Queues.Step, Queues.AtTheEnds, Queues.Inv, Act, Successor;
    var q, next := QueueOf(y), Successor(QueueOf(y), t);
    var z := Called(y, Queues.Completed(t));
    LastCall(y, Queues.Completed(t));
    Queues.RunKeepsInv(y.calls);
    assert z.calls[..|y.calls|] == y.calls;
    if Exists(y, next) {
      SuccessorIsHead(q, t);
      NoSuccessor(q, t);
      CompletedQueue(q, t);
      ActAtEnds(z, next, Requests.BeginWork(y.lives[next - 1].appIds));
    }
  }

  lemma SuccessorIsHead(q: Queues.Queue, t: nat)
    requires Queues.Inv(q) && Queues.AtTheEnds(q, Queues.Completed(t)) && Successor(q, t) != 0
    ensures Queues.AtTheEnds(Queues.Step(q, Queues.Completed(t)), Queues.Completed(Successor(q, t)))
  {
    hide Queues.IndexOf;
    assert Queues.IndexOf(q.waiting, t) == 0;
  }

  lemma StepAtEnds(y: System, e: Event)
    requires Consistent(y, 0) && Queues.EndsOnly(y.calls) && !CompletesInTheMiddle(y, e)
    ensures Queues.EndsOnly(Step(y, e).calls)
  {
    hide Requests.Run, Requests.Step, Queues.Run, Queues.Step, Queues.EndsOnly, Act, Consistent, Attuned;
    match e
    case Arrives(_, _, _, _) => OtherCall(y, Queues.Queued);
    case StartTimer(t) =>
      if t in QueueOf(y).starts && Exists(y, t) {
        var z := Called(y, Queues.Started(t));
        OtherCall(y, Queues.Started(t));
        LastCall(y, Queues.Started(t));
        StartedQueue(QueueOf(y), t);
        UncompletedWait(y, t);
        assert RequestOf(z, t) == RequestOf(y, t);
        if !RequestOf(y, t).request.completed {
          ActOnce(z, t, Requests.BeginWork(y.lives[t - 1].appIds));
          ActAtEnds(z, t, Requests.BeginWork(y.lives[t - 1].appIds));
        }
      }
    case Happens(t, x) =>
      if Exists(y, t) && !x.BeginWork? {
        UncompletedWait(y, t);
        ActOnce(y, t, x);
        ActAtEnds(y, t, x);
      }
  }

  lemma UncompletedWait(y: System, t: nat)
    requires Consistent(y, 0) && Exists(y, t)
    ensures t in QueueOf(y).waiting <==> !RequestOf(y, t).request.completed
  {
    hide Requests.Run, Queues.Run;
  }

  lemma OtherCall(y: System, c: Queues.Event)
    requires Queues.EndsOnly(y.calls) && !c.Completed?
    ensures Queues.EndsOnly(Called(y, c).calls)
  {
    assert (y.calls + [c])[..|y.calls|] == y.calls;
  }

  /** Unless a request in the middle of the queue ends, the queue only completes its first and last tokens. */
  lemma {:induction false} CallsAtEnds(es: seq<Event>)
    requires EndsOnly(es)
    ensures Queues.EndsOnly(Run(NO_REQUESTS, es).calls)
  {
    hide Step, CompletesInTheMiddle, Consistent;
    if es != [] {
      CallsAtEnds(es[..|es| - 1]);
      RunIsConsistent(es[..|es| - 1]);
      StepAtEnds(Run(NO_REQUESTS, es[..|es| - 1]), es[|es| - 1]);
    }
  }

  /** Whether a request stays at work when it is begun. */
  predicate Survives(y: System, u: nat) {
    Exists(y, u) && !RequestOf(y, u).request.expired && y.lives[u - 1].appIds
  }

  /** What is left of a queue when the requests at its front that end at once have been begun. */
  function Dropped(y: System, ts: seq<nat>): seq<nat> {
    if ts == [] || Survives(y, ts[0]) then ts else Dropped(y, ts[1..])
  }

  lemma {:induction false} DroppedIsSuffix(y: System, ts: seq<nat>)
    ensures |Dropped(y, ts)| <= |ts| && Dropped(y, ts) == ts[|ts| - |Dropped(y, ts)|..]
    ensures Dropped(y, ts) != [] ==> Survives(y, Dropped(y, ts)[0])
    ensures Dropped(y, ts) != [] <==> exists k :: 0 <= k < |ts| && Survives(y, ts[k])
  {
    hide Survives;
    if ts != [] && !Survives(y, ts[0]) {
      var rest := ts[1..];
      DroppedIsSuffix(y, rest);
      var n := |Dropped(y, rest)|;
      assert rest[|rest| - n..] == ts[|ts| - n..];
      SurvivorBehind(y, ts);
    }
  }

  lemma SurvivorBehind(y: System, ts: seq<nat>)
    requires ts != [] && !Survives(y, ts[0])
    ensures (exists k :: 0 <= k < |ts| && Survives(y, ts[k])) <==> (exists k :: 0 <= k < |ts[1..]| && Survives(y, ts[1..][k]))
  {
    hide Survives;
    if k :| 0 <= k < |ts| && Survives(y, ts[k]) {
      assert ts[1..][k - 1] == ts[k];
    }
  }

  lemma {:induction false} DroppedAlike(y: System, z: System, ts: seq<nat>)
    requires forall u :: u in ts ==> (Survives(y, u) <==> Survives(z, u))
    ensures Dropped(y, ts) == Dropped(z, ts)
  {
    hide Survives;
    if ts != [] {
      assert ts[0] in ts;
      DroppedAlike(y, z, ts[1..]);
    }
  }

  /** The requests behind `t` have been begun up to the first that stays at work, and those before that one are gone; nobody
      else has been touched. */
  ghost predicate Served(y: System, t: nat, z: System)
    requires t in QueueOf(y).waiting && |z.lives| == |y.lives|
  {
    var w, i := QueueOf(y).waiting, Queues.IndexOf(QueueOf(y).waiting, t);
    var d := Dropped(y, w[i + 1..]);
    && QueueOf(z).waiting == w[..i] + d
    && (d != [] ==> Exists(y, d[0]) && Requests.AtWork(RequestOf(z, d[0])))
    && forall u :: Exists(y, u) && (u in w[..i] || (d != [] && u in d[1..])) ==> RequestOf(z, u) == RequestOf(y, u)
  }

  /** All that completing a token does. */
  lemma {:induction false} CompletionEffect(y: System, t: nat)
    requires Exists(y, t) && Consistent(y, t) && t in QueueOf(y).waiting && RequestOf(y, t).request.completed
    ensures Served(y, t, CompleteToken(y, t))
    decreases |QueueOf(y).waiting|
  {
    hide Requests.Run, Requests.Step, Queues.Run, Queues.Step, Queues.Inv, Queues.IndexOf, Act, Dropped, Consistent, Ready, Survives, Requests.AtWork;
    var w, z := QueueOf(y).waiting, Called(y, Queues.Completed(t));
    var i := Queues.IndexOf(w, t);
    var next := Successor(QueueOf(y), t);
    CompletedWaiting(y, t);
    CalledKeepsConsistent(y, t);
    var d := Dropped(y, w[i + 1..]);
    DroppedIsSuffix(y, w[i + 1..]);
    if next == 0 {
      assert CompleteToken(y, t) == z;
    } else {
      NextEffect(y, t);
    }
  }

  lemma CompletedWaiting(y: System, t: nat)
    requires t in QueueOf(y).waiting
    ensures var w, i := QueueOf(y).waiting, Queues.IndexOf(QueueOf(y).waiting, t);
            && QueueOf(Called(y, Queues.Completed(t))).waiting == w[..i] + w[i + 1..]
            && (Successor(QueueOf(y), t) == 0 ==> w[i + 1..] == [])
            && (Successor(QueueOf(y), t) != 0 ==> w[i + 1..] != [] && w[i + 1] == Successor(QueueOf(y), t))
            && Queues.Increasing(w)
  {
    hide Queues.Run;
    LastCall(y, Queues.Completed(t));
    Queues.RunKeepsInv(y.calls);
  }

  /** The system with the token dropped and the next request begun, but not completed. */
  function NextBegun(y: System, t: nat): System
    requires Exists(y, Successor(QueueOf(y), t))
  {
    var next := Successor(QueueOf(y), t);
    Happened(Called(y, Queues.Completed(t)), next, Requests.BeginWork(y.lives[next - 1].appIds))
  }

  lemma BeginNext(y: System, t: nat)
    requires Exists(y, t) && Consistent(y, t) && t in QueueOf(y).waiting && RequestOf(y, t).request.completed
    requires Successor(QueueOf(y), t) != 0
    ensures Exists(y, Successor(QueueOf(y), t))
    ensures var w, i, next := QueueOf(y).waiting, Queues.IndexOf(QueueOf(y).waiting, t), Successor(QueueOf(y), t);
            var x := NextBegun(y, t);
            && Consistent(x, next) && Unchanged(y, x, next)
            && QueueOf(x).waiting == w[..i] + w[i + 1..]
            && (if Survives(y, next) then CompleteToken(y, t) == x && Requests.AtWork(RequestOf(x, next))
                else CompleteToken(y, t) == CompleteToken(x, next) && RequestOf(x, next).request.completed)
  {
    hide Requests.Run, Requests.Step, Queues.Run, Queues.Step, Queues.Inv, Queues.IndexOf, CompleteToken, Consistent, Ready, Requests.AtWork, Survives;
    var z, next := Called(y, Queues.Completed(t)), Successor(QueueOf(y), t);
    CompletedWaiting(y, t);
    CalledKeepsConsistent(y, t);
    var begin := Requests.BeginWork(y.lives[next - 1].appIds);
    HappenedNow(z, next, begin);
    HappenedKeepsConsistent(z, next, begin);
    assert RequestOf(z, next) == RequestOf(y, next);
    ConsistentQueued(y, t, next);
    BeginSurvives(y, next);
    CompleteIsAct(y, t);
  }

  lemma NextEffect(y: System, t: nat)
    requires Exists(y, t) && Consistent(y, t) && t in QueueOf(y).waiting && RequestOf(y, t).request.completed
    requires Successor(QueueOf(y), t) != 0
    ensures Served(y, t, CompleteToken(y, t))
    decreases |QueueOf(y).waiting|, 0
  {
    hide Requests.Run, Queues.Run, Queues.IndexOf, CompleteToken, Dropped, Consistent, Requests.AtWork, NextBegun, Served, Survives, Successor;
    BeginNext(y, t);
    CompletedWaiting(y, t);
    var w, x := QueueOf(y).waiting, NextBegun(y, t);
    var i, next := Queues.IndexOf(w, t), Successor(QueueOf(y), t);
    if Survives(y, next) {
      NextStays(y, t, x, i, next);
    } else {
      assert QueueOf(x).waiting[i] == next;
      CompletionEffect(x, next);
      NextGoes(y, t, x, CompleteToken(x, next), i, next);
    }
  }

  lemma NextStays(y: System, t: nat, x: System, i: nat, next: nat)
    requires var w := QueueOf(y).waiting;
             Queues.Increasing(w) && t in w && i == Queues.IndexOf(w, t) && i + 1 < |w| && next == w[i + 1]
    requires Unchanged(y, x, next) && QueueOf(x).waiting == QueueOf(y).waiting[..i] + QueueOf(y).waiting[i + 1..]
    requires Survives(y, next) && Exists(x, next) && Requests.AtWork(RequestOf(x, next))
    ensures Served(y, t, x)
  {
    hide Requests.Run, Queues.Run, Queues.IndexOf, Dropped, Requests.AtWork, Survives;
    var w := QueueOf(y).waiting;
    KeepsSurvivor(y, w[i + 1..]);
    assert next !in w[..i] && next !in w[i + 1..][1..];
  }

  lemma NextGoes(y: System, t: nat, x: System, z: System, i: nat, next: nat)
    requires var w := QueueOf(y).waiting;
             Queues.Increasing(w) && t in w && i == Queues.IndexOf(w, t) && i + 1 < |w| && next == w[i + 1]
    requires Unchanged(y, x, next) && QueueOf(x).waiting == QueueOf(y).waiting[..i] + QueueOf(y).waiting[i + 1..]
    requires !Survives(y, next) && next in QueueOf(x).waiting && |z.lives| == |x.lives| && Served(x, next, z)
    ensures Served(y, t, z)
  {
    hide Requests.Run, Queues.Run, Queues.IndexOf, Dropped, Requests.AtWork, Survives;
    var w, v := QueueOf(y).waiting, QueueOf(x).waiting;
    var d := Dropped(x, v[i + 1..]);
    AtIndex(v, i);
    SplitWithout(w, i);
    assert v[..i] == w[..i] && v[i + 1..] == w[i + 1..][1..];
    SameDropped(y, x, next, w[i + 1..]);
    assert d == Dropped(y, w[i + 1..]);
    forall u | Exists(y, u) && (u in w[..i] || (d != [] && u in d[1..]))
      ensures RequestOf(z, u) == RequestOf(y, u)
    {
      assert u != next;
    }
  }

  lemma SplitWithout(w: seq<nat>, i: nat)
    requires Queues.Increasing(w) && i + 1 < |w|
    ensures Queues.Increasing(w[..i] + w[i + 1..]) && w[i + 1] !in w[..i] && w[i + 1] !in w[i + 1..][1..]
  {
    var v := w[..i] + w[i + 1..];
    assert forall k :: 0 <= k < |v| ==> v[k] == w[if k < i then k else k + 1];
  }

  lemma SameDropped(y: System, x: System, next: nat, ts: seq<nat>)
    requires Unchanged(y, x, next) && ts != [] && ts[0] == next && next !in ts[1..] && !Survives(y, next)
    ensures Dropped(x, ts[1..]) == Dropped(y, ts) && forall u :: u in Dropped(y, ts) ==> u in ts[1..]
  {
    hide Requests.Run, Dropped;
    forall u | u in ts[1..]
      ensures Survives(y, u) <==> Survives(x, u)
    {
      SurvivesAlike(y, x, next, u);
    }
    DroppedAlike(y, x, ts[1..]);
    SkipsOthers(y, ts);
    DroppedIsSuffix(y, ts[1..]);
  }

  lemma ConsistentQueued(y: System, hole: nat, u: nat)
    requires Consistent(y, hole) && Exists(y, u)
    ensures WasQueued(y.lives[u - 1].initial)
  {
    hide Requests.Run, Queues.Run, WasQueued;
  }

  ghost predicate Unchanged(y: System, x: System, except: nat) {
    |x.lives| == |y.lives| && forall u :: Exists(y, u) && u != except ==> x.lives[u - 1] == y.lives[u - 1]
  }

  lemma SurvivesAlike(y: System, x: System, t: nat, u: nat)
    requires Unchanged(y, x, t) && u != t
    ensures Survives(y, u) <==> Survives(x, u)
  {
    hide Requests.Run;
    assert Exists(y, u) <==> Exists(x, u);
    assert Exists(y, u) ==> x.lives[u - 1] == y.lives[u - 1];
  }

  lemma KeepsSurvivor(y: System, ts: seq<nat>)
    requires ts != [] && Survives(y, ts[0])
    ensures Dropped(y, ts) == ts
  {
  }

  lemma SkipsOthers(y: System, ts: seq<nat>)
    requires ts != [] && !Survives(y, ts[0])
    ensures Dropped(y, ts) == Dropped(y, ts[1..])
  {
  }

  lemma AtIndex(w: seq<nat>, i: nat)
    requires i < |w| && Queues.Increasing(w)
    ensures Queues.IndexOf(w, w[i]) == i
  {
    hide Queues.IndexOf;
    assert w[i] in w;
  }

  lemma CompleteIsAct(y: System, t: nat)
    requires Exists(y, Successor(QueueOf(y), t))
    ensures var next := Successor(QueueOf(y), t);
            CompleteToken(y, t) == Act(Called(y, Queues.Completed(t)), next, Requests.BeginWork(y.lives[next - 1].appIds))
  {
    hide Queues.Run, Act, Successor;
  }

  lemma BeginSurvives(y: System, u: nat)
    requires Exists(y, u) && WasQueued(y.lives[u - 1].initial) && !RequestOf(y, u).request.completed
    ensures var s := Requests.Step(RequestOf(y, u), Requests.BeginWork(y.lives[u - 1].appIds));
            if Survives(y, u) then !s.request.completed && Requests.AtWork(s) else s.request.completed
  {
    hide Requests.Run;
    LifeInv(y.lives[u - 1]);
  }

  /** A token is completed under a signer at work only by its timer. */
  lemma {:induction false} CompletedAtWork(l: Life)
    requires WasQueued(l.initial)
    ensures Requests.AtWork(Now(l)) && Now(l).request.completed ==> Requests.TokenTimer in l.events
    decreases |l.events|
  {
    if l.events != [] {
      hide Requests.Step, Requests.Inv, WasQueued;
      var n := |l.events| - 1;
      var k := l.(events := l.events[..n]);
      CompletedAtWork(k);
      LifeInv(k);
      assert l.events[n] in l.events;
      if l.events[n] != Requests.TokenTimer {
        StillAtWork(Now(k), l.events[n]);
      }
      assert forall x :: x in l.events[..n] ==> x in l.events;
    }
  }

  lemma StillAtWork(s: Requests.Sign, e: Requests.Event)
    requires Requests.Inv(s) && e != Requests.TokenTimer
    ensures var r := Requests.Step(s, e);
            Requests.AtWork(r) && r.request.completed ==> Requests.AtWork(s) && s.request.completed
  {
  }

  /** Unless a request in the middle of the queue ends, at most one request is at work, the first one, but for those whose
      tokens have timed out; and the requests begin
      in the order in which they came, none of them twice. */
  lemma OneAtATime(es: seq<Event>)
    requires EndsOnly(es)
    ensures var y := Run(NO_REQUESTS, es);
            && Queues.Increasing(QueueOf(y).begun)
            && forall t :: Exists(y, t) && Requests.AtWork(RequestOf(y, t)) ==>
                 (QueueOf(y).waiting != [] && t == QueueOf(y).waiting[0]) || Happens(t, Requests.TokenTimer) in es
  {
    hide Run, Requests.Run, Queues.Run, EndsOnly;
    var y := Run(NO_REQUESTS, es);
    RunIsConsistent(es);
    CallsAtEnds(es);
    Queues.RunsInTurn(y.calls);
    forall t | Exists(y, t) && Requests.AtWork(RequestOf(y, t))
      ensures (QueueOf(y).waiting != [] && t == QueueOf(y).waiting[0]) || Happens(t, Requests.TokenTimer) in es
    {
      LifeInv(y.lives[t - 1]);
      CompletedAtWork(y.lives[t - 1]);
      EventsCame(es, t);
    }
  }

  // ----- two requests at a time

  /** A request that was queued and has not been completed is at work besides the first one. */
  ghost predicate SecondAtWork(y: System) {
    exists k :: 1 <= k < |QueueOf(y).waiting| && WorksAt(y, QueueOf(y).waiting[k])
  }

  ghost predicate WorksAt(y: System, u: nat) {
    Exists(y, u) && Requests.AtWork(RequestOf(y, u))
  }

  /** As long as no request in the middle of the queue has ended, the end of one sets a second one to work exactly if it was
      not the first, and some request behind it has the time and an app id to begin with. */
  lemma SecondBeginsIff(es: seq<Event>, t: nat, e: Requests.Event)
    requires EndsOnly(es)
    requires var y := Run(NO_REQUESTS, es);
             && Exists(y, t) && !e.BeginWork? && !RequestOf(y, t).request.completed
             && Requests.Step(RequestOf(y, t), e).request.completed
    ensures var y, w := Run(NO_REQUESTS, es), QueueOf(Run(NO_REQUESTS, es)).waiting;
            SecondAtWork(Step(y, Happens(t, e)))
            <==> exists i, k :: 1 <= i < k < |w| && w[i] == t && CanBegin(y, w[k])
  {
    hide Run, Requests.Run, Requests.Step, Queues.Run, Queues.IndexOf, CompleteToken, Consistent, Served, EndsOnly, CanBegin, Survives;
    var y := Run(NO_REQUESTS, es);
    var w := QueueOf(y).waiting;
    RunIsConsistent(es);
    UncompletedWait(y, t);
    Queues.RunKeepsInv(y.calls);
    var i := Queues.IndexOf(w, t);
    var x := Happened(y, t, e);
    HappenedNow(y, t, e);
    HappenedKeepsConsistent(y, t, e) by {
      WithHole(y, t);
    }
    var z := CompleteToken(x, t);
    assert Step(y, Happens(t, e)) == z;
    CompletionEffect(x, t);
    OnlyFirstWorks(es);
    ServedSecond(y, x, t, z, i);
    forall k | i < k < |w|
      ensures Survives(x, w[k]) <==> CanBegin(y, w[k])
    {
      CanBeginSurvives(es, w[k]);
      assert w[k] != t;
      SurvivesAlike(y, x, t, w[k]);
    }
    if i > 0 && (exists k :: i < k < |w| && Survives(x, w[k])) {
      var k :| i < k < |w| && Survives(x, w[k]);
      assert 1 <= i < k < |w| && w[i] == t && CanBegin(y, w[k]);
    }
    if j, k :| 1 <= j < k < |w| && w[j] == t && CanBegin(y, w[k]) {
      assert j == i;
    }
  }

  /** A request that has a timer and names an app id. */
  predicate CanBegin(y: System, u: nat) {
    Exists(y, u) && y.lives[u - 1].initial.request.armed && y.lives[u - 1].appIds
  }

  lemma WithHole(y: System, t: nat)
    requires Consistent(y, 0)
    ensures Consistent(y, t)
  {
    hide Requests.Run, Queues.Run, WasQueued;
  }

  /** Of those that wait, only the first can be at work. */
  ghost predicate FirstWorks(y: System) {
    forall k :: 1 <= k < |QueueOf(y).waiting| ==> !WorksAt(y, QueueOf(y).waiting[k])
  }

  lemma OnlyFirstWorks(es: seq<Event>)
    requires EndsOnly(es)
    ensures FirstWorks(Run(NO_REQUESTS, es))
  {
    hide Run, Requests.Run, Queues.Run, EndsOnly;
    var y := Run(NO_REQUESTS, es);
    RunIsConsistent(es);
    CallsAtEnds(es);
    Queues.RunsInTurn(y.calls);
    Queues.RunKeepsInv(y.calls);
    forall k | 1 <= k < |QueueOf(y).waiting|
      ensures !WorksAt(y, QueueOf(y).waiting[k])
    {
      var u := QueueOf(y).waiting[k];
      assert u in QueueOf(y).waiting && u != QueueOf(y).waiting[0];
      if Exists(y, u) {
        LifeInv(y.lives[u - 1]);
      }
    }
  }

  lemma CanBeginSurvives(es: seq<Event>, u: nat)
    requires EndsOnly(es)
    requires u in QueueOf(Run(NO_REQUESTS, es)).waiting && u != QueueOf(Run(NO_REQUESTS, es)).waiting[0]
    ensures var y := Run(NO_REQUESTS, es); Survives(y, u) <==> CanBegin(y, u)
  {
    hide Run, Requests.Run, Queues.Run, EndsOnly, Requests.Inv;
    var y := Run(NO_REQUESTS, es);
    RunIsConsistent(es);
    OnlyFirstWorks(es);
    var k :| 0 <= k < |QueueOf(y).waiting| && QueueOf(y).waiting[k] == u;
    if Exists(y, u) {
      UncompletedWait(y, u);
      LifeInv(y.lives[u - 1]);
      BegunAtWork(RequestOf(y, u));
      ExpiredWhen(y.lives[u - 1]);
      assert !WorksAt(y, u);
    }
  }

  lemma ServedSecond(y: System, x: System, t: nat, z: System, i: nat)
    requires FirstWorks(y) && Unchanged(y, x, t) && QueueOf(x) == QueueOf(y) && |z.lives| == |x.lives|
    requires Queues.Increasing(QueueOf(y).waiting)
    requires var w := QueueOf(y).waiting; t in w && i == Queues.IndexOf(w, t) && Served(x, t, z)
    ensures var w := QueueOf(y).waiting;
            SecondAtWork(z) <==> i > 0 && exists k :: i < k < |w| && Survives(x, w[k])
  {
    hide Requests.Run, Queues.Run, Queues.IndexOf, FirstWorks, Served, Dropped, Survives, Requests.AtWork;
    var w, d := QueueOf(y).waiting, Dropped(x, QueueOf(y).waiting[i + 1..]);
    DroppedIsSuffix(x, w[i + 1..]);
    ServedWaiting(x, t, z);
    assert d != [] <==> exists k :: i < k < |w| && Survives(x, w[k]) by {
      if k :| i < k < |w| && Survives(x, w[k]) {
        assert w[i + 1..][k - i - 1] == w[k];
      }
      var rest := w[i + 1..];
      if k :| 0 <= k < |rest| && Survives(x, rest[k]) {
        assert rest[k] == w[i + 1 + k];
      }
    }
    forall k | 1 <= k < |QueueOf(z).waiting| && k != i
      ensures !WorksAt(z, QueueOf(z).waiting[k])
    {
      OthersDoNotWork(y, x, t, z, i, k);
    }
    if d != [] && i > 0 {
      assert QueueOf(z).waiting[i] == d[0] && WorksAt(z, QueueOf(z).waiting[i]);
    }
  }

  lemma ServedWaiting(x: System, t: nat, z: System)
    requires t in QueueOf(x).waiting && |z.lives| == |x.lives| && Served(x, t, z)
    ensures var w, i := QueueOf(x).waiting, Queues.IndexOf(QueueOf(x).waiting, t);
            var d := Dropped(x, w[i + 1..]);
            QueueOf(z).waiting == w[..i] + d && (d != [] ==> Exists(z, d[0]) && Requests.AtWork(RequestOf(z, d[0])))
  {
    hide Requests.Run, Queues.Run, Queues.IndexOf, Dropped;
  }

  lemma OthersDoNotWork(y: System, x: System, t: nat, z: System, i: nat, k: nat)
    requires FirstWorks(y) && Unchanged(y, x, t) && QueueOf(x) == QueueOf(y) && |z.lives| == |x.lives|
    requires Queues.Increasing(QueueOf(y).waiting)
    requires var w := QueueOf(y).waiting; t in w && i == Queues.IndexOf(w, t) && Served(x, t, z)
    requires 1 <= k < |QueueOf(z).waiting| && k != i
    ensures !WorksAt(z, QueueOf(z).waiting[k])
  {
    hide Requests.Run, Queues.Run, Queues.IndexOf, Dropped, Survives, Requests.AtWork;
    var w, d := QueueOf(y).waiting, Dropped(x, QueueOf(y).waiting[i + 1..]);
    DroppedIsSuffix(x, w[i + 1..]);
    var u := QueueOf(z).waiting[k];
    if k < i {
      assert u == w[k] && u in w[..i];
    } else {
      var j := |w| - |d| + (k - i);
      assert u == d[k - i] == w[j] && j > i && u == d[1..][k - i - 1];
    }
    assert u != t;
    assert Exists(y, u) ==> RequestOf(z, u) == RequestOf(x, u) == RequestOf(y, u);
  }

  /** A request without timers expires before it is begun. */
  lemma {:induction false} ExpiredWhen(l: Life)
    requires WasQueued(l.initial)
    ensures !Now(l).request.completed ==> (Now(l).request.expired <==> Now(l).request.begun || !l.initial.request.armed)
    decreases |l.events|
  {
    if l.events != [] {
      hide Requests.Step, Requests.Inv, WasQueued;
      var k := l.(events := l.events[..|l.events| - 1]);
      ExpiredWhen(k);
      LifeInv(k);
      ExpiredStep(Now(k), l.events[|l.events| - 1]);
    }
  }

  lemma ExpiredStep(s: Requests.Sign, e: Requests.Event)
    requires Requests.Inv(s)
    ensures var r := Requests.Step(s, e).request;
            && (s.request.completed ==> r.completed)
            && (!r.completed ==> (r.expired <==> s.request.expired || r.begun) && (s.request.begun ==> r.begun))
  {
  }

  lemma BeginEnds(s: Requests.Sign, appIds: bool)
    requires Requests.Inv(s) && !s.request.completed
    ensures Requests.Step(s, Requests.BeginWork(appIds)).sent == [Failure(TIMEOUT)] <==> s.request.expired
  {
    Requests.SilentUntilClosed(s);
    if s.request.expired {
      assert s.request.begun ==> Requests.AtWork(s);
    } else {
      var t := Requests.Step(s, Requests.BeginWork(appIds));
      assert t == Requests.StartSigner(s, appIds);
      assert t.sent == [] || t.sent[0] == Failure(BAD_REQUEST);
    }
  }

  /** The request behind one that ends is told at once that it is too late, exactly if it was at work already, or had no time
      to begin with. */
  lemma NextIsTimedOut(es: seq<Event>, t: nat, e: Requests.Event)
    requires var y := Run(NO_REQUESTS, es);
             && Exists(y, t) && !e.BeginWork? && !RequestOf(y, t).request.completed
             && Requests.Step(RequestOf(y, t), e).request.completed
    ensures var y, z := Run(NO_REQUESTS, es), Step(Run(NO_REQUESTS, es), Happens(t, e));
            var u := Successor(QueueOf(y), t);
            Exists(y, u) && Exists(z, u) ==>
                (RequestOf(z, u).sent == [Failure(TIMEOUT)] <==> Requests.AtWork(RequestOf(y, u)) || !y.lives[u - 1].initial.request.armed)
  {
    hide Run, Requests.Run, Requests.Step, Queues.Run, Queues.Step, Queues.Inv, Successor, Act, WasQueued, Requests.Inv;
    var y := Run(NO_REQUESTS, es);
    var q, u := QueueOf(y), Successor(QueueOf(y), t);
    RunIsConsistent(es);
    if Exists(y, u) {
      NextBegins(y, t, e);
      UncompletedWait(y, t);
      NoSuccessor(q, t);
      Queues.RunKeepsInv(y.calls);
      CompletedQueue(q, t);
      UncompletedWait(y, u);
      LifeInv(y.lives[u - 1]);
      BeginEnds(RequestOf(y, u), y.lives[u - 1].appIds);
      ExpiredWhen(y.lives[u - 1]);
      BegunAtWork(RequestOf(y, u));
    }
  }

  lemma BegunAtWork(s: Requests.Sign)
    requires Requests.Inv(s) && !s.request.completed
    ensures Requests.AtWork(s) <==> s.request.begun
  {
  }

  lemma NextBegins(y: System, t: nat, e: Requests.Event)
    requires Consistent(y, 0) && Exists(y, t) && !e.BeginWork? && !RequestOf(y, t).request.completed
    requires Requests.Step(RequestOf(y, t), e).request.completed
    requires Exists(y, Successor(QueueOf(y), t))
    ensures var u, z := Successor(QueueOf(y), t), Step(y, Happens(t, e));
            && Exists(z, u)
            && RequestOf(z, u) == Requests.Step(RequestOf(y, u), Requests.BeginWork(y.lives[u - 1].appIds))
  {
    hide Requests.Run, Requests.Step, Queues.Run, Queues.Step, Queues.Inv, Successor, WasQueued;
    var q, u := QueueOf(y), Successor(QueueOf(y), t);
    var x := Happened(y, t, e);
    HappenedNow(y, t, e);
    UncompletedWait(y, t);
    Queues.RunKeepsInv(y.calls);
    CompletedQueue(q, t);
    UncompletedWait(y, u);
    var c := Called(x, Queues.Completed(t));
    LastCall(x, Queues.Completed(t));
    assert RequestOf(c, u) == RequestOf(x, u);
    ActOnce(c, u, Requests.BeginWork(y.lives[u - 1].appIds));
    assert CompleteToken(x, t) == Act(c, u, Requests.BeginWork(y.lives[u - 1].appIds));
  }

  /** A run in which a page closes its tab while two more requests of its origin are under way, one at work and one behind it:
      the last one is set to work beside the first, and gets a timeout as soon as the first ends. */
  lemma ClosedTab(challenges: seq<Entry>)
    ensures var page := Arrives(true, true, true, challenges);
            var es := [page, StartTimer(1), page, page, Happens(2, Requests.PortClosed)];
            var y, z := Run(NO_REQUESTS, es), Run(NO_REQUESTS, es + [Happens(1, Requests.OriginIs(false))]);
            && |y.lives| == 3 && Requests.AtWork(RequestOf(y, 1)) && Requests.AtWork(RequestOf(y, 3))
            && |z.lives| == 3 && RequestOf(z, 3).sent == [Failure(TIMEOUT)]
  {
    hide Run, Step, Requests.Run, Requests.Step, Queues.Run, Successor;
    var page := Arrives(true, true, true, challenges);
    var es := [page, StartTimer(1), page, page, Happens(2, Requests.PortClosed)];
    var y := ThreePages(challenges, true);
    var e := Happens(1, Requests.OriginIs(false));
    TabClosed(challenges);
    RunMore(es, e);
    ThreeAtWork(challenges);
    NextIsTimedOut(es, 1, Requests.OriginIs(false));
    StepExtends(y, e, 3);
    StepExtends(y, e, 1);
    SameNumber(y, Happens(1, Requests.OriginIs(false)));
  }

  lemma SameNumber(y: System, e: Event)
    requires e.Happens?
    ensures |Step(y, e).lives| == |y.lives|
  {
    hide Act;
  }

  lemma RunMore(es: seq<Event>, e: Event)
    ensures Run(NO_REQUESTS, es + [e]) == Step(Run(NO_REQUESTS, es), e)
  {
    hide Step;
    assert (es + [e])[..|es|] == es;
  }

  /** Three requests, the first of them at work, the second one's tab closed or not. */
  function ThreePages(challenges: seq<Entry>, closed: bool): System {
    var r := Requests.Queued(true, true, challenges);
    var begin := Requests.BeginWork(true);
    System([Life(r, true, [begin]), Life(r, true, if closed then [Requests.PortClosed] else []), Life(r, true, if closed then [begin] else [])],
           [Queues.Queued, Queues.Started(1), Queues.Queued, Queues.Queued] + if closed then [Queues.Completed(2)] else [])
  }

  lemma FirstEvents(challenges: seq<Entry>)
    ensures var r := Requests.Queued(true, true, challenges);
            && Requests.Run(r, []) == r
            && (var s := Requests.Run(r, [Requests.BeginWork(true)]); Requests.AtWork(s) && !s.request.completed)
            && Requests.Run(r, [Requests.PortClosed]).request.completed
            && Requests.Step(Requests.Run(r, [Requests.BeginWork(true)]), Requests.OriginIs(false)).request.completed
  {
    var r := Requests.Queued(true, true, challenges);
    assert [Requests.BeginWork(true)][..0] == [] && [Requests.PortClosed][..0] == [];
    assert Requests.Run(r, [Requests.BeginWork(true)]) == Requests.StartSigner(r, true);
  }

  lemma ThreeAsk(challenges: seq<Entry>)
    ensures var page := Arrives(true, true, true, challenges);
            Run(NO_REQUESTS, [page, StartTimer(1), page, page]) == ThreePages(challenges, false)
  {
    hide Run, Requests.Run, Requests.Step, Queues.Run, Act;
    var page := Arrives(true, true, true, challenges);
    var r := Requests.Queued(true, true, challenges);
    var y1 := System([Life(r, true, [])], [Queues.Queued]);
    NothingRun();
    RunMore([], page);
    assert [] + [page] == [page];
    assert Run(NO_REQUESTS, [page]) == y1;
    FirstStarts(challenges);
    RunMore([page], StartTimer(1));
    assert [page] + [StartTimer(1)] == [page, StartTimer(1)];
    TwoMore(challenges);
  }

  lemma FirstStarts(challenges: seq<Entry>)
    ensures var r := Requests.Queued(true, true, challenges);
            var y := System([Life(r, true, [Requests.BeginWork(true)])], [Queues.Queued, Queues.Started(1)]);
            Step(System([Life(r, true, [])], [Queues.Queued]), StartTimer(1)) == y
  {
    hide Requests.Run, Requests.Step, Queues.Run, CompleteToken;
    var r := Requests.Queued(true, true, challenges);
    var begin := Requests.BeginWork(true);
    var y := System([Life(r, true, [])], [Queues.Queued]);
    var z := Called(y, Queues.Started(1));
    FirstEvents(challenges);
    Queues.NoEvents();
    Queues.Snoc([], Queues.Queued);
    assert [] + [Queues.Queued] == [Queues.Queued] && [] + [begin] == [begin];
    assert QueueOf(y) == Queues.Queue([1], 1, {1}, []);
    assert Happened(z, 1, begin) == System([Life(r, true, [begin])], [Queues.Queued, Queues.Started(1)]);
    assert Act(z, 1, begin) == Happened(z, 1, begin);
  }

  lemma TwoMore(challenges: seq<Entry>)
    requires var page := Arrives(true, true, true, challenges);
             var r := Requests.Queued(true, true, challenges);
             Run(NO_REQUESTS, [page, StartTimer(1)]) == System([Life(r, true, [Requests.BeginWork(true)])], [Queues.Queued, Queues.Started(1)])
    ensures var page := Arrives(true, true, true, challenges);
            Run(NO_REQUESTS, [page, StartTimer(1), page, page]) == ThreePages(challenges, false)
  {
    hide Run, Requests.Run, Requests.Step, Queues.Run, Act;
    var page := Arrives(true, true, true, challenges);
    RunMore([page, StartTimer(1)], page);
    assert [page, StartTimer(1)] + [page] == [page, StartTimer(1), page];
    RunMore([page, StartTimer(1), page], page);
    assert [page, StartTimer(1), page] + [page] == [page, StartTimer(1), page, page];
  }

  lemma NothingRun()
    ensures Run(NO_REQUESTS, []) == NO_REQUESTS
  {
  }

  lemma TabClosed(challenges: seq<Entry>)
    ensures var page := Arrives(true, true, true, challenges);
            Run(NO_REQUESTS, [page, StartTimer(1), page, page, Happens(2, Requests.PortClosed)]) == ThreePages(challenges, true)
  {
    hide Run, Requests.Run, Requests.Step, Queues.Run;
    var page := Arrives(true, true, true, challenges);
    var es := [page, StartTimer(1), page, page];
    ThreeAsk(challenges);
    RunMore(es, Happens(2, Requests.PortClosed));
    assert es + [Happens(2, Requests.PortClosed)] == [page, StartTimer(1), page, page, Happens(2, Requests.PortClosed)];
    FirstEvents(challenges);
    Queues.ThreeQueued();
    var y := ThreePages(challenges, false);
    var z := Happened(y, 2, Requests.PortClosed);
    var begin := Requests.BeginWork(true);
    assert y.calls == [Queues.Queued, Queues.Started(1), Queues.Queued, Queues.Queued];
    assert [] + [Requests.PortClosed] == [Requests.PortClosed] && [] + [begin] == [begin];
    assert Successor(QueueOf(z), 2) == 3 by {
      assert Queues.IndexOf([1, 2, 3], 2) == 1;
    }
    var c := Called(z, Queues.Completed(2));
    assert Happened(c, 3, begin) == ThreePages(challenges, true);
    assert Act(c, 3, begin) == ThreePages(challenges, true);
    assert CompleteToken(z, 2) == Act(c, 3, begin);
    assert Act(y, 2, Requests.PortClosed) == CompleteToken(z, 2);
  }

  lemma ThreeAtWork(challenges: seq<Entry>)
    ensures var y := ThreePages(challenges, true);
            && Requests.AtWork(RequestOf(y, 1)) && Requests.AtWork(RequestOf(y, 3)) && !RequestOf(y, 1).request.completed
            && Requests.Step(RequestOf(y, 1), Requests.OriginIs(false)).request.completed
            && Successor(QueueOf(y), 1) == 3
  {
    hide Requests.Run, Requests.Step, Queues.Run;
    FirstEvents(challenges);
    Queues.MiddleCompletion();
    var calls := ThreePages(challenges, true).calls;
    assert calls == [Queues.Queued, Queues.Started(1), Queues.Queued, Queues.Queued, Queues.Completed(2)];
    assert Queues.IndexOf([1, 3], 1) == 0;
  }
}
