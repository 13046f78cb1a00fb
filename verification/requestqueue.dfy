/** A queue of requests from one origin, by the number that each token gets when it is queued. */
module QueueSchedule {

  /** `waiting` are the uncompleted tokens in order, `id` the last number given out, `starts` the tokens whose start
      is scheduled with the system timer, and `begun` the calls of begin callbacks. */
  datatype Queue = Queue(waiting: seq<nat>, id: nat, starts: set<nat>, begun: seq<nat>)

  const EMPTY: Queue := Queue([], 0, {}, [])

  // ----- the effect of each operation

  function QueueRequest(q: Queue): Queue {
    var t := q.id + 1;
    q.(waiting := q.waiting + [t], id := t, starts := if q.waiting == [] then q.starts + {t} else q.starts)
  }

  function IndexOf(s: seq<nat>, t: nat): (i: nat)
    ensures i <= |s| && (i < |s| <==> t in s) && (i < |s| ==> s[i] == t)
  {
    if s == [] then 0 else if s[0] == t then 0 else 1 + IndexOf(s[1..], t)
  }

  /** Completing a token that is not waiting, or was never queued, does nothing. */
  function Complete(q: Queue, t: nat): Queue {
    var i := IndexOf(q.waiting, t);
    if i == |q.waiting| then q
    else q.(waiting := q.waiting[..i] + q.waiting[i + 1..],
            begun := if i + 1 < |q.waiting| then q.begun + [q.waiting[i + 1]] else q.begun)
  }

  function RunStart(q: Queue, t: nat): Queue {
    if t !in q.starts then q
    else q.(starts := q.starts - {t}, begun := if t in q.waiting then q.begun + [t] else q.begun)
  }

  // ----- runs

  /** A begin callback is the last thing that `complete` and a scheduled start call.  What it does to the queue, like
      completing its own token, is therefore an event of its own that comes next. */
  datatype Event = Queued | Completed(t: nat) | Started(t: nat)

  function Step(q: Queue, e: Event): Queue {
    match e
    case Queued => QueueRequest(q)
    case Completed(t) => Complete(q, t)
    case Started(t) => RunStart(q, t)
  }

  function Run(q: Queue, es: seq<Event>): Queue {
    if es == [] then q else Step(Run(q, es[..|es| - 1]), es[|es| - 1])
  }

  ghost predicate Increasing(s: seq<nat>) {
    forall i, j :: 0 <= i < j < |s| ==> s[i] < s[j]
  }

  /** The head, if there is one, has been begun or has its start scheduled. */
  ghost predicate Inv(q: Queue) {
    && Increasing(q.waiting) && (forall i :: 0 <= i < |q.waiting| ==> 1 <= q.waiting[i] <= q.id)
    && (forall t :: t in q.starts ==> 1 <= t <= q.id)
    && (forall t :: t in q.begun ==> 1 <= t <= q.id)
    && (q.waiting != [] ==> q.waiting[0] in q.begun || q.waiting[0] in q.starts)
  }

  lemma CompleteKeepsInv(q: Queue, t: nat)
    requires Inv(q)
    ensures Inv(Complete(q, t))
  {
    hide IndexOf;
    var i := IndexOf(q.waiting, t);
    if i < |q.waiting| {
      var w := q.waiting[..i] + q.waiting[i + 1..];
      forall k | 0 <= k < |w|
        ensures w[k] == q.waiting[if k < i then k else k + 1]
      {
      }
      if i + 1 < |q.waiting| {
        Appended(q.begun, q.waiting[i + 1]);
      }
    }
  }

  lemma Appended(s: seq<nat>, x: nat)
    ensures forall t :: t in s + [x] <==> t in s || t == x
  {
  }

  lemma StepKeepsInv(q: Queue, e: Event)
    requires Inv(q)
    ensures Inv(Step(q, e))
  {
    hide Complete;
    match e
    case Queued =>
    case Completed(t) => CompleteKeepsInv(q, t);
    case Started(t) => Appended(q.begun, t);
  }

  lemma {:induction false} RunKeepsInv(es: seq<Event>)
    ensures Inv(Run(EMPTY, es))
  {
    if es != [] {
      hide Inv, Step;
      RunKeepsInv(es[..|es| - 1]);
      StepKeepsInv(Run(EMPTY, es[..|es| - 1]), es[|es| - 1]);
    } else {
      assert Inv(EMPTY);
    }
  }

  /** `complete` has been called on the token. */
  ghost predicate WasCompleted(es: seq<Event>, t: nat) {
    es != [] &&
    var n := |es| - 1;
    WasCompleted(es[..n], t) || (es[n] == Completed(t) && 1 <= t <= Run(EMPTY, es[..n]).id)
  }

  /** After any calls on any tokens, repeated or not, those waiting are the ones that were queued and not completed. */
  lemma {:induction false} WaitingAreUncompleted(es: seq<Event>, t: nat)
    ensures var q := Run(EMPTY, es); Increasing(q.waiting)
    ensures var q := Run(EMPTY, es); t in q.waiting <==> 1 <= t <= q.id && !WasCompleted(es, t)
    ensures WasCompleted(es, t) ==> t <= Run(EMPTY, es).id
  {
    RunKeepsInv(es);
    if es != [] {
      hide IndexOf, Inv, Step;
      WaitingAreUncompleted(es[..|es| - 1], t);
      RunKeepsInv(es[..|es| - 1]);
      WaitingStep(Run(EMPTY, es[..|es| - 1]), es[|es| - 1], t);
    }
  }

  lemma WaitingStep(q: Queue, e: Event, t: nat)
    requires Inv(q)
    ensures var r := Step(q, e);
            r.id >= q.id && (t in r.waiting <==> (t in q.waiting || (e.Queued? && t == r.id)) && e != Completed(t))
    ensures e.Queued? <==> Step(q, e).id != q.id
    ensures e.Queued? ==> Step(q, e).id == q.id + 1
  {
    hide IndexOf;
    if e.Completed? {
      var i, w := IndexOf(q.waiting, e.t), q.waiting;
      if i < |w| {
        Removed(w, i, t);
      }
    }
  }

  lemma Removed(w: seq<nat>, i: nat, t: nat)
    requires Increasing(w) && i < |w|
    ensures t in w[..i] + w[i + 1..] <==> t in w && t != w[i]
  {
    assert w == w[..i] + [w[i]] + w[i + 1..];
    assert t in w[..i] ==> t < w[i];
    assert t in w[i + 1..] ==> t > w[i];
  }

  /** In every run, an event begins at most one token, and only one that is waiting and not completed. */
  lemma OnlyWaitingBegin(es: seq<Event>, e: Event)
    ensures var q, r := Run(EMPTY, es), Step(Run(EMPTY, es), e);
            r.begun == q.begun || exists t :: t in r.waiting && r.begun == q.begun + [t]
  {
    hide IndexOf, Run;
    RunKeepsInv(es);
    var q := Run(EMPTY, es);
    match e
    case Queued =>
    case Started(t) =>
    case Completed(t) =>
      var i := IndexOf(q.waiting, t);
      if i + 1 < |q.waiting| {
        assert (q.waiting[..i] + q.waiting[i + 1..])[i] == q.waiting[i + 1];
      }
  }

  // ----- order and exclusion

  /** A completion of the head, of the last token, or of a token that is not waiting. */
  ghost predicate AtTheEnds(q: Queue, e: Event) {
    e.Completed? && e.t in q.waiting ==> e.t == q.waiting[0] || e.t == q.waiting[|q.waiting| - 1]
  }

  ghost predicate EndsOnly(es: seq<Event>) {
    es == [] || (EndsOnly(es[..|es| - 1]) && AtTheEnds(Run(EMPTY, es[..|es| - 1]), es[|es| - 1]))
  }

  /** Tokens have begun in order, once each, and only the head may be begun or about to be. */
  ghost predicate InTurn(q: Queue) {
    && Increasing(q.begun)
    && (q.waiting != [] ==>
          var h := q.waiting[0];
          && (forall t :: t in q.begun ==> t <= h)
          && (h in q.begun <==> h !in q.starts)
          && (forall t :: t in q.starts && t in q.waiting ==> t == h))
  }

  lemma IncreasingAppended(s: seq<nat>, x: nat)
    requires Increasing(s) && forall t :: t in s ==> t < x
    ensures Increasing(s + [x]) && forall t :: t in s + [x] <==> t in s || t == x
  {
    assert forall i :: 0 <= i < |s| ==> s[i] in s;
  }

  lemma StepKeepsTurn(q: Queue, e: Event)
    requires Inv(q) && InTurn(q) && AtTheEnds(q, e)
    ensures InTurn(Step(q, e))
  {
    hide IndexOf;
    match e
    case Queued =>
    case Started(t) =>
      if t in q.starts && t in q.waiting {
        IncreasingAppended(q.begun, t);
      }
    case Completed(t) =>
      var i := IndexOf(q.waiting, t);
      if i < |q.waiting| {
        CompleteAtEnds(q, t);
      }
  }

  lemma CompleteAtEnds(q: Queue, t: nat)
    requires Inv(q) && InTurn(q) && AtTheEnds(q, Completed(t)) && t in q.waiting
    ensures InTurn(Complete(q, t))
  {
    hide IndexOf, InTurn;
    var i, w := IndexOf(q.waiting, t), q.waiting;
    if i == 0 {
      assert w[..0] + w[1..] == w[1..];
      HeadGone(q);
    } else {
      assert i == |w| - 1 && w[..i] + w[i + 1..] == w[..i];
      LastGone(q);
    }
  }

  lemma HeadGone(q: Queue)
    requires Inv(q) && InTurn(q) && q.waiting != []
    ensures var w := q.waiting;
            InTurn(q.(waiting := w[1..], begun := if |w| > 1 then q.begun + [w[1]] else q.begun))
  {
    var w := q.waiting;
    if |w| > 1 {
      IncreasingAppended(q.begun, w[1]);
      assert forall t :: t in w[1..] ==> t in w && t != w[0];
    }
  }

  lemma LastGone(q: Queue)
    requires Inv(q) && InTurn(q) && |q.waiting| > 1
    ensures InTurn(q.(waiting := q.waiting[..|q.waiting| - 1]))
  {
    assert forall t :: t in q.waiting[..|q.waiting| - 1] ==> t in q.waiting;
  }

  /** If only tokens at the ends of the queue are ever completed, tokens begin in the order in which they were
      queued, each at most once, and at most one is begun and not completed, namely the head. */
  lemma {:induction false} RunsInTurn(es: seq<Event>)
    requires EndsOnly(es)
    ensures InTurn(Run(EMPTY, es))
    ensures var q := Run(EMPTY, es); forall t :: t in q.begun && t in q.waiting ==> t == q.waiting[0]
  {
    if es == [] {
    } else {
      hide Step, AtTheEnds;
      var n := |es| - 1;
      RunsInTurn(es[..n]);
      RunKeepsInv(es[..n]);
      StepKeepsTurn(Run(EMPTY, es[..n]), es[n]);
      RunKeepsInv(es);
    }
  }

  /** A completion begins a token that is not the head exactly when it is not at the ends of the queue. */
  lemma OutOfTurn(es: seq<Event>, t: nat)
    ensures var q, r := Run(EMPTY, es), Step(Run(EMPTY, es), Completed(t));
            !AtTheEnds(q, Completed(t))
            <==> r.begun != q.begun && r.begun[|r.begun| - 1] != r.waiting[0]
  {
    hide IndexOf, Run;
    RunKeepsInv(es);
    var q := Run(EMPTY, es);
    var i := IndexOf(q.waiting, t);
    if i < |q.waiting| {
      var w := q.waiting[..i] + q.waiting[i + 1..];
      assert i > 0 ==> w[0] == q.waiting[0];
      assert i == 0 && |q.waiting| > 1 ==> w[0] == q.waiting[1];
    }
  }

  /** Two requests at work at once, and one of them begun twice: the second of three tokens is completed first. */
  lemma MiddleCompletion()
    ensures var es := [Queued, Started(1), Queued, Queued, Completed(2)];
            Run(EMPTY, es).waiting == [1, 3] && Run(EMPTY, es).begun == [1, 3]
    ensures Run(EMPTY, [Queued, Started(1), Queued, Queued, Completed(2), Completed(1)]).begun == [1, 3, 3]
  {
    hide Run, Step;
    var es := [Queued, Started(1), Queued, Queued];
    ThreeQueued();
    assert es + [Completed(2)] == [Queued, Started(1), Queued, Queued, Completed(2)];
    assert es + [Completed(2)] + [Completed(1)] == [Queued, Started(1), Queued, Queued, Completed(2), Completed(1)];
    Snoc(es, Completed(2));
    Snoc(es + [Completed(2)], Completed(1));
    CompleteTwo();
  }

  lemma ThreeQueued()
    ensures Run(EMPTY, [Queued, Started(1), Queued, Queued]) == Queue([1, 2, 3], 3, {}, [1])
  {
    hide Run;
    NoEvents();
    assert [] + [Queued] == [Queued];
    assert [Queued] + [Started(1)] == [Queued, Started(1)];
    assert [Queued, Started(1)] + [Queued] == [Queued, Started(1), Queued];
    assert [Queued, Started(1), Queued] + [Queued] == [Queued, Started(1), Queued, Queued];
    Snoc([], Queued);
    Snoc([Queued], Started(1));
    Snoc([Queued, Started(1)], Queued);
    Snoc([Queued, Started(1), Queued], Queued);
    assert Step(EMPTY, Queued) == Queue([1], 1, {1}, []);
    assert Step(Queue([1], 1, {1}, []), Started(1)) == Queue([1], 1, {}, [1]);
  }

  lemma CompleteTwo()
    ensures Step(Queue([1, 2, 3], 3, {}, [1]), Completed(2)) == Queue([1, 3], 3, {}, [1, 3])
    ensures Step(Queue([1, 3], 3, {}, [1, 3]), Completed(1)) == Queue([3], 3, {}, [1, 3, 3])
  {
    assert IndexOf([1, 2, 3], 2) == 1;
  }

  lemma NoEvents()
    ensures Run(EMPTY, []) == EMPTY
  {
  }

  lemma Snoc(es: seq<Event>, e: Event)
    ensures Run(EMPTY, es + [e]) == Step(Run(EMPTY, es), e)
  {
    hide Step;
    assert (es + [e])[..|es|] == es;
  }
}

/** The queue as the doubly linked list that it is. */
module LinkedQueue {
  import opened QueueSchedule

  ghost function Numbers(ts: seq<RequestToken>): (ids: seq<nat>)
    ensures |ids| == |ts| && forall i :: 0 <= i < |ts| ==> ids[i] == ts[i].id
  {
    seq(|ts|, i requires 0 <= i < |ts| => ts[i].id)
  }

  /** The numbers of the tokens tell them apart and increase along the list. */
  ghost predicate WellNumbered(queue: RequestQueue, ts: seq<RequestToken>, all: set<RequestToken>, id: nat) {
    && (forall t :: t in all ==> t.queue == queue && 1 <= t.id <= id)
    && (forall t, u :: t in all && u in all && t.id == u.id ==> t == u)
    && (forall t :: t in ts ==> t in all)
    && (forall i, j :: 0 <= i < j < |ts| ==> ts[i].id < ts[j].id)
  }

  lemma WellNumberedWithout(queue: RequestQueue, ts: seq<RequestToken>, all: set<RequestToken>, id: nat, k: nat)
    requires k < |ts| && WellNumbered(queue, ts, all, id)
    ensures var rest := ts[..k] + ts[k + 1..];
            WellNumbered(queue, rest, all, id) && forall t :: t in rest <==> t in ts && t != ts[k]
  {
    var rest := ts[..k] + ts[k + 1..];
    assert ts == ts[..k] + [ts[k]] + ts[k + 1..];
    assert forall i :: 0 <= i < |rest| ==> rest[i] == ts[if i < k then i else i + 1];
    forall t | t in rest
      ensures t != ts[k]
    {
      var i :| 0 <= i < |rest| && rest[i] == t;
      assert rest[i] == ts[if i < k then i else i + 1];
    }
  }

  lemma WellNumberedAppend(queue: RequestQueue, ts: seq<RequestToken>, all: set<RequestToken>, id: nat, t: RequestToken)
    requires WellNumbered(queue, ts, all, id) && t.queue == queue && t.id == id + 1
    ensures WellNumbered(queue, ts + [t], all + {t}, id + 1)
    ensures forall u :: u in ts + [t] <==> u in ts || u == t
  {
    assert forall i :: 0 <= i < |ts| ==> ts[i] in ts;
  }

  lemma NumbersWithout(ts: seq<RequestToken>, k: nat, id: nat, starts: set<nat>, begun: seq<nat>)
    requires k < |ts| && exists queue, all :: WellNumbered(queue, ts, all, id)
    ensures QueueSchedule.Complete(Queue(Numbers(ts), id, starts, begun), ts[k].id)
         == Queue(Numbers(ts[..k] + ts[k + 1..]), id, starts, if k + 1 < |ts| then begun + [ts[k + 1].id] else begun)
  {
    hide IndexOf;
    var ids := Numbers(ts);
    assert ids[k] == ts[k].id;
    var i := IndexOf(ids, ts[k].id);
    assert ids[i] == ids[k] && i == k;
    assert Numbers(ts[..k] + ts[k + 1..]) == ids[..k] + ids[k + 1..];
  }

  lemma NumbersAppend(ts: seq<RequestToken>, t: RequestToken)
    ensures Numbers(ts + [t]) == Numbers(ts) + [t.id]
  {
  }

  class RequestToken {
    const queue: RequestQueue
    const id: nat
    var prev: RequestToken?
    var next: RequestToken?
    var completed: bool

    constructor (queue: RequestQueue, id: nat)
      ensures this.queue == queue && this.id == id && prev == null && next == null && !completed
    {
      this.queue, this.id, prev, next, completed := queue, id, null, null, false;
    }

    /** A token that is complete already is left alone; otherwise the next token, if there is one, is begun. */
    method Complete()
      requires queue.Valid() && this in queue.tokens
      modifies queue, queue.tokens
      ensures queue.Valid() && queue.tokens == old(queue.tokens) && completed
      ensures queue.State() == QueueSchedule.Complete(old(queue.State()), id)
    {
      hide QueueSchedule.Complete, RequestQueue.Linked, WellNumbered, Numbers;
      queue.Numbered(this);
      if completed {
        return;
      }
      completed := true;
      queue.CompleteToken(this);
    }
  }

  class RequestQueue {
    var head: RequestToken?
    var tail: RequestToken?
    var id: nat

    // the system timer, and the calls of begin callbacks
    var starts: set<nat>
    ghost var begun: seq<nat>

    ghost var contents: seq<RequestToken>   // the list from head to tail
    ghost var tokens: set<RequestToken>     // all tokens ever queued here

    ghost predicate LinkedAt(i: nat)
      requires i < |contents|
      reads `contents, contents`next, contents`prev
    {
      && contents[i].next == (if i + 1 < |contents| then contents[i + 1] else null)
      && contents[i].prev == (if i > 0 then contents[i - 1] else null)
    }

    /** The next-chain from `head` is `contents`, the prev-chain from `tail` its reverse, and other tokens have no links. */
    ghost predicate Linked()
      reads `head, `tail, `contents, `tokens, tokens`next, tokens`prev, contents`next, contents`prev
    {
      && (forall i :: 0 <= i < |contents| ==> LinkedAt(i))
      && (forall t :: t in contents ==> t in tokens)
      && (forall i, j :: 0 <= i < j < |contents| ==> contents[i] != contents[j])
      && head == (if contents != [] then contents[0] else null)
      && tail == (if contents != [] then contents[|contents| - 1] else null)
      && (forall t :: t in tokens && t !in contents ==> t.next == null && t.prev == null)
    }

    ghost predicate Ids()
      reads `id, `contents, `tokens
    {
      WellNumbered(this, contents, tokens, id)
    }

    ghost predicate Valid()
      reads this, tokens, contents
    {
      Linked() && Ids() && Marked()
    }

    ghost predicate Marked()
      reads `contents, `tokens, tokens`completed
    {
      forall t :: t in tokens ==> (t.completed <==> t !in contents)
    }

    ghost function State(): Queue
      reads this
    {
      Queue(Numbers(contents), id, starts, begun)
    }

    constructor ()
      ensures Valid() && State() == EMPTY && fresh(this)
    {
      head, tail, id, starts, begun, contents, tokens := null, null, 0, {}, [], [], {};
    }

    lemma Numbered(t: RequestToken)
      requires Ids() && Marked() && t in tokens
      ensures t.completed <==> t.id !in State().waiting
      ensures t.completed ==> QueueSchedule.Complete(State(), t.id) == State()
    {
      hide IndexOf;
      var ids := State().waiting;
      if t.id in ids {
        var i :| 0 <= i < |ids| && ids[i] == t.id;
        assert contents[i] in contents;
      }
      if !t.completed {
        var i :| 0 <= i < |contents| && contents[i] == t;
        assert ids[i] == t.id;
      }
    }

    method InsertToken(token: RequestToken)
      requires Linked() && token !in tokens && token.prev == null && token.next == null
      modifies `head, `tail, `contents, `tokens, contents`next, token`prev
      ensures Linked() && contents == old(contents) + [token] && tokens == old(tokens) + {token}
    {
      if head == null {
        head := token;
        tail := token;
      } else {
        tail.next := token;
        token.prev := tail;
        tail := token;
      }
      ghost var was := contents;
      contents, tokens := contents + [token], tokens + {token};
      forall i | 0 <= i < |contents|
        ensures LinkedAt(i)
      {
        if i < |was| {
          assert contents[i] == was[i] && old(LinkedAt(i));
        }
      }
    }

    /** `removeToken_`; position `k` of the list, where the token stands, is given in specifications only. */
    method RemoveToken(token: RequestToken, ghost k: nat)
      requires Linked() && k < |contents| && contents[k] == token
      modifies this`head, this`tail, this`contents, tokens`prev, tokens`next
      ensures Linked() && contents == old(contents[..k] + contents[k + 1..])
    {
      hide NextWithout, PrevWithout, LinkedAt;
      ghost var rest := Without(k);
      forall i | 0 <= i < |rest|
        ensures LinkedWithout(k, i)
      {
        ShortLinks(k, i);
      }
      forall t | t in tokens && t !in rest
        ensures NextWithout(k, t) == null && PrevWithout(k, t) == null
      {
        LooseLinks(k, t);
      }
      EndLinks(k);
      Unlink(token, k);
      contents := rest;
      forall i | 0 <= i < |rest|
        ensures LinkedAt(i)
      {
        assert old(LinkedWithout(k, i));
        Restored(i);
      }
    }

    ghost function Without(k: nat): seq<RequestToken>
      requires k < |contents|
      reads `contents
    {
      contents[..k] + contents[k + 1..]
    }

    ghost predicate LinkedWithout(k: nat, i: nat)
      requires k < |contents| && i < |contents| - 1
      reads `contents, `tokens, contents`next, contents`prev
    {
      var rest := Without(k);
      && rest[i] in tokens
      && NextWithout(k, rest[i]) == (if i + 1 < |rest| then rest[i + 1] else null)
      && PrevWithout(k, rest[i]) == (if i > 0 then rest[i - 1] else null)
    }

    lemma Restored(i: nat)
      requires i < |contents|
      requires contents[i].next == if i + 1 < |contents| then contents[i + 1] else null
      requires contents[i].prev == if i > 0 then contents[i - 1] else null
      ensures LinkedAt(i)
    {
    }

    lemma ShortLinks(k: nat, i: nat)
      requires Linked() && k < |contents| && i < |contents| - 1
      ensures LinkedWithout(k, i)
    {
      var j := if i < k then i else i + 1;
      assert Without(k)[i] == contents[j];
      assert LinkedAt(j) && LinkedAt(k);
    }

    lemma LooseLinks(k: nat, t: RequestToken)
      requires Linked() && k < |contents| && t in tokens && t !in Without(k)
      ensures NextWithout(k, t) == null && PrevWithout(k, t) == null
    {
      assert contents == contents[..k] + [contents[k]] + contents[k + 1..];
    }

    lemma EndLinks(k: nat)
      requires Linked() && k < |contents|
      ensures var rest := Without(k);
              && (if k == 0 then contents[k].next else head) == (if rest != [] then rest[0] else null)
              && (if k == |contents| - 1 then contents[k].prev else tail) == (if rest != [] then rest[|rest| - 1] else null)
              && (forall t :: t in rest ==> t in tokens)
              && (forall i, j :: 0 <= i < j < |rest| ==> rest[i] != rest[j])
    {
      assert LinkedAt(k);
      var rest := Without(k);
      assert forall i :: 0 <= i < |rest| ==> rest[i] == contents[if i < k then i else i + 1];
    }

    /** Takes the token out of both chains. */
    method Unlink(token: RequestToken, ghost k: nat)
      requires Linked() && k < |contents| && contents[k] == token
      modifies this`head, this`tail, tokens`prev, tokens`next
      ensures forall t :: t in tokens ==> t.next == old(NextWithout(k, t)) && t.prev == old(PrevWithout(k, t))
      ensures head == old(if k == 0 then token.next else head) && tail == old(if k == |contents| - 1 then token.prev else tail)
    {
      ghost var n := |contents|;
      assert LinkedAt(k);
      assert (head == token <==> k == 0) && (tail == token <==> k == n - 1);
      if token.next != null {
        token.next.prev := token.prev;
      }
      if token.prev != null {
        token.prev.next := token.next;
      }
      if head == token && tail == token {
        head, tail := null, null;
      } else {
        if head == token {
          head := token.next;
          head.prev := null;
        }
        if tail == token {
          tail := token.prev;
          tail.next := null;
        }
      }
      token.prev, token.next := null, null;
    }

    /** The links of a token when the one at position `k` is bypassed. */
    ghost function NextWithout(k: nat, t: RequestToken): RequestToken?
      requires k < |contents|
      reads `contents, t`next, contents`next, t`prev, contents`prev
    {
      if t == contents[k] then null else if k > 0 && t == contents[k - 1] then contents[k].next else t.next
    }

    ghost function PrevWithout(k: nat, t: RequestToken): RequestToken?
      requires k < |contents|
      reads `contents, t`next, contents`next, t`prev, contents`prev
    {
      if t == contents[k] then null else if k + 1 < |contents| && t == contents[k + 1] then contents[k].prev else t.prev
    }

    lemma HeadNull()
      requires Linked()
      ensures head == null <==> contents == []
      ensures tail != null ==> tail in contents
    {
    }

    lemma Members()
      requires Linked()
      ensures forall t :: t in contents ==> t in tokens
    {
    }

    lemma Successor(k: nat)
      requires Linked() && k < |contents|
      ensures contents[k].next == if k + 1 < |contents| then contents[k + 1] else null
    {
      assert LinkedAt(k);
    }

    /** The token, marked as completed, leaves the list, and its successor is begun. */
    method CompleteToken(token: RequestToken)
      requires Linked() && Ids() && token in contents && token.completed
      requires forall t :: t in tokens && t != token ==> (t.completed <==> t !in contents)
      modifies `head, `tail, `contents, `begun, tokens`prev, tokens`next
      ensures Valid() && State() == QueueSchedule.Complete(old(State()), token.id)
    {
      hide Linked, QueueSchedule.Complete, WellNumbered, Numbers;
      ghost var k :| 0 <= k < |contents| && contents[k] == token;
      NumbersWithout(contents, k, id, starts, begun);
      Successor(k);
      WellNumberedWithout(this, contents, tokens, id, k);
      var next := token.next;
      RemoveToken(token, k);
      if next != null {
        begun := begun + [next.id];
      }
    }

    method QueueRequest() returns (token: RequestToken)
      requires Valid()
      modifies this, contents`next
      ensures Valid() && fresh(token) && tokens == old(tokens) + {token} && token.id == id
      ensures State() == QueueSchedule.QueueRequest(old(State()))
    {
      hide Linked, WellNumbered, Numbers;
      Members();
      HeadNull();
      var startNow := head == null;
      ghost var last := id;
      id := id + 1;
      token := new RequestToken(this, id);
      WellNumberedAppend(this, contents, tokens, last, token);
      NumbersAppend(contents, token);
      InsertToken(token);
      if startNow {
        starts := starts + {token.id};
      }
    }

    /** The system timer runs the start that was scheduled for a token. */
    method RunScheduledStart(token: RequestToken)
      requires Valid() && token in tokens && token.id in starts
      modifies `starts, `begun
      ensures Valid() && State() == RunStart(old(State()), token.id)
    {
      hide Linked, WellNumbered, Numbers;
      Numbered(token);
      starts := starts - {token.id};
      if !token.completed {
        begun := begun + [token.id];
      }
    }
  }
}
