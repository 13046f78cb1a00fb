/** Several helpers race for one request: the first success is reported, or the last failure of all. */
module HelperRace {

  /** A helper's reply; code 0 is success. */
  datatype Reply = Reply(helper: nat, code: int)

  /** `complete` are the helpers whose reply has been taken, `calls` the calls of the callback. */
  datatype Race = Race(done: bool, running: nat, complete: set<nat>, calls: seq<Reply>)

  const BEFORE: Race := Race(false, 0, {}, [])

  /** What a helper does while it is asked to run: replies that it makes before `run` returns, and what it returns. */
  datatype Helper = Helper(hasHandler: bool, early: seq<int>, accepts: bool)

  // ----- the effect of each method

  function HelperComplete(s: Race, r: Reply): Race {
    if s.done || r.helper in s.complete then s
    else
      var s1 := s.(complete := s.complete + {r.helper});
      if r.code == 0 then s1.(done := true, calls := s.calls + [r])
      else if s.running == 0 then s1
      else if s.running == 1 then s1.(running := 0, done := true, calls := s.calls + [r])
      else s1.(running := s.running - 1)
  }

  function Replies(s: Race, rs: seq<Reply>): Race {
    if rs == [] then s else HelperComplete(Replies(s, rs[..|rs| - 1]), rs[|rs| - 1])
  }

  function Tagged(i: nat, codes: seq<int>): (rs: seq<Reply>)
    ensures |rs| == |codes| && forall k :: 0 <= k < |rs| ==> rs[k] == Reply(i, codes[k])
  {
    seq(|codes|, k requires 0 <= k < |codes| => Reply(i, codes[k]))
  }

  /** A helper is counted only after its `run` has returned. */
  function Launch(s: Race, i: nat, h: Helper): Race {
    if !h.hasHandler then s
    else
      var s1 := Replies(s, Tagged(i, h.early));
      if h.accepts then s1.(running := s1.running + 1) else s1
  }

  function LaunchAll(hs: seq<Helper>): Race {
    if hs == [] then BEFORE else Launch(LaunchAll(hs[..|hs| - 1]), |hs| - 1, hs[|hs| - 1])
  }

  function Accepted(hs: seq<Helper>): set<nat> {
    set i | 0 <= i < |hs| && hs[i].hasHandler && hs[i].accepts
  }

  // ----- helpers that answer later

  ghost predicate Asynchronous(hs: seq<Helper>) {
    forall i :: 0 <= i < |hs| ==> hs[i].early == []
  }

  lemma {:induction false} AllCounted(hs: seq<Helper>)
    requires Asynchronous(hs)
    ensures LaunchAll(hs) == BEFORE.(running := |Accepted(hs)|)
  {
    if hs == [] {
      assert Accepted(hs) == {};
    } else {
      var n := |hs| - 1;
      AllCounted(hs[..n]);
      assert Tagged(n, hs[n].early) == [];
      assert Accepted(hs) == Accepted(hs[..n]) + if hs[n].hasHandler && hs[n].accepts then {n} else {};
    }
  }

  /** The first reply of each helper, in order of arrival. */
  function Heard(rs: seq<Reply>): seq<Reply> {
    if rs == [] then []
    else
      var h, r := Heard(rs[..|rs| - 1]), rs[|rs| - 1];
      if r.helper in Helpers(h) then h else h + [r]
  }

  function Helpers(h: seq<Reply>): set<nat> {
    if h == [] then {} else Helpers(h[..|h| - 1]) + {h[|h| - 1].helper}
  }

  function FirstSuccess(h: seq<Reply>): (k: nat)
    ensures k <= |h| && (k < |h| ==> h[k].code == 0) && forall i :: 0 <= i < k ==> h[i].code != 0
  {
    if h == [] then 0
    else
      var k := FirstSuccess(h[..|h| - 1]);
      if k < |h| - 1 then k else if h[|h| - 1].code == 0 then |h| - 1 else |h|
  }

  /** The first success, or the last failure if everybody has failed. */
  function Expected(h: seq<Reply>, accepted: nat): seq<Reply> {
    var k := FirstSuccess(h);
    if k < |h| then [h[k]]
    else if h != [] && |h| == accepted then [h[|h| - 1]] else []
  }

  lemma {:induction false} HeardDistinct(rs: seq<Reply>, accepted: set<nat>)
    requires forall k :: 0 <= k < |rs| ==> rs[k].helper in accepted
    ensures |Helpers(Heard(rs))| == |Heard(rs)| <= |accepted| && Helpers(Heard(rs)) <= accepted
  {
    if rs != [] {
      var n := |rs| - 1;
      HeardDistinct(rs[..n], accepted);
      HelpersSnoc(Heard(rs[..n]), rs[n]);
    }
    Subset(Helpers(Heard(rs)), accepted);
  }

  lemma HelpersSnoc(h: seq<Reply>, r: Reply)
    ensures Helpers(h + [r]) == Helpers(h) + {r.helper}
  {
    assert (h + [r])[..|h|] == h;
  }

  lemma {:induction false} Subset(a: set<nat>, b: set<nat>)
    ensures a <= b ==> |a| <= |b|
  {
    if a <= b && a != {} {
      var x :| x in a;
      Subset(a - {x}, b - {x});
    }
  }

  lemma SuccessSnoc(h: seq<Reply>, r: Reply)
    ensures FirstSuccess(h + [r]) == if FirstSuccess(h) < |h| then FirstSuccess(h) else if r.code == 0 then |h| else |h| + 1
  {
    assert (h + [r])[..|h|] == h;
  }

  /** The race after the replies `rs` of `n` accepted helpers. */
  ghost predicate InStep(s: Race, rs: seq<Reply>, n: nat) {
    var h := Heard(rs);
    && s.calls == Expected(h, n) && (s.done <==> s.calls != [])
    && (!s.done ==> s.running == n - |h| && s.complete == Helpers(h))
  }

  lemma ReplyKeepsStep(s: Race, rs: seq<Reply>, r: Reply, accepted: set<nat>)
    requires InStep(s, rs, |accepted|)
    requires forall k :: 0 <= k < |rs| ==> rs[k].helper in accepted
    requires r.helper in accepted
    ensures InStep(HelperComplete(s, r), rs + [r], |accepted|)
  {
    hide Helpers, FirstSuccess;
    var h := Heard(rs);
    assert (rs + [r])[..|rs|] == rs;
    HeardDistinct(rs, accepted);
    HeardDistinct(rs + [r], accepted);
    SuccessSnoc(h, r);
    HelpersSnoc(h, r);
  }

  lemma {:induction false} RepliesKeepStep(hs: seq<Helper>, rs: seq<Reply>)
    requires Asynchronous(hs) && forall k :: 0 <= k < |rs| ==> rs[k].helper in Accepted(hs)
    ensures InStep(Replies(LaunchAll(hs), rs), rs, |Accepted(hs)|)
  {
    hide HelperComplete, Accepted, Expected, LaunchAll;
    AllCounted(hs);
    if rs == [] {
      assert Expected([], |Accepted(hs)|) == [] by {
        NothingExpected(|Accepted(hs)|);
      }
    } else {
      var n := |rs| - 1;
      RepliesKeepStep(hs, rs[..n]);
      ReplyKeepsStep(Replies(LaunchAll(hs), rs[..n]), rs[..n], rs[n], Accepted(hs));
      assert rs[..n] + [rs[n]] == rs;
    }
  }

  /** After `run` has returned: a helper replies, or the owner closes the race. */
  datatype Event = Replied(r: Reply) | Closed

  function CloseRace(s: Race): Race { s.(done := true) }

  function Play(s: Race, es: seq<Event>): Race {
    if es == [] then s
    else
      var t := Play(s, es[..|es| - 1]);
      match es[|es| - 1]
      case Replied(r) => HelperComplete(t, r)
      case Closed => CloseRace(t)
  }

  /** The replies that come before the owner closes the race. */
  function BeforeClose(es: seq<Event>): seq<Reply> {
    if es == [] then []
    else
      var rs, e := BeforeClose(es[..|es| - 1]), es[|es| - 1];
      if e.Closed? || Closed in es[..|es| - 1] then rs else rs + [e.r]
  }

  lemma {:induction false} PlayUntilClose(s: Race, es: seq<Event>)
    ensures Play(s, es) == var t := Replies(s, BeforeClose(es)); if Closed in es then CloseRace(t) else t
  {
    if es != [] {
      var n := |es| - 1;
      PlayUntilClose(s, es[..n]);
      assert es == es[..n] + [es[n]];
      var rs := BeforeClose(es[..n]);
      assert es[n].Replied? ==> (rs + [es[n].r])[..|rs|] == rs;
    }
  }

  lemma {:induction false} BeforeCloseByHelpers(es: seq<Event>, accepted: set<nat>)
    requires forall k :: 0 <= k < |es| && es[k].Replied? ==> es[k].r.helper in accepted
    ensures forall k :: 0 <= k < |BeforeClose(es)| ==> BeforeClose(es)[k].helper in accepted
  {
    if es != [] {
      var n := |es| - 1;
      assert forall k :: 0 <= k < n ==> es[..n][k] == es[k];
      BeforeCloseByHelpers(es[..n], accepted);
    }
  }

  /** Whatever helpers accept, and in whatever order and however often they reply later: the counter is the number of
      accepted helpers that have not failed, and the callback is called with the first success in order of arrival
      or, when all have failed, with the last failure; and only then, and only once.  Replies that come after the owner has
      closed the race count for nothing. */
  lemma RaceIsFair(hs: seq<Helper>, es: seq<Event>)
    requires Asynchronous(hs) && forall k :: 0 <= k < |es| && es[k].Replied? ==> es[k].r.helper in Accepted(hs)
    ensures var s := Play(LaunchAll(hs), es);
            && s.calls == Expected(Heard(BeforeClose(es)), |Accepted(hs)|)
            && (s.done <==> s.calls != [] || Closed in es)
            && (!s.done ==> s.running == |Accepted(hs)| - |Heard(BeforeClose(es))|)
  {
    hide HelperComplete, Accepted, Expected, LaunchAll, Heard;
    PlayUntilClose(LaunchAll(hs), es);
    BeforeCloseByHelpers(es, Accepted(hs));
    RepliesKeepStep(hs, BeforeClose(es));
  }

  lemma NothingExpected(n: nat)
    ensures Expected([], n) == []
  {
  }

  // ----- helpers that answer too early

  /** A helper that fails before its `run` returns keeps the counter right, without ending the race of the others, exactly
      if at least two others run and it accepts all the same, or nobody runs and it does not accept. */
  lemma EarlyFailure(s: Race, i: nat, code: int, accepts: bool)
    requires !s.done && i !in s.complete && code != 0
    ensures var t := Launch(s, i, Helper(true, [code], accepts));
            !t.done && t.running == s.running
            <==> (s.running >= 2 && accepts) || (s.running == 0 && !accepts)
  {
    var r := Reply(i, code);
    assert Tagged(i, [code]) == [r];
    assert [r][..0] == [] && Replies(s, [r]) == HelperComplete(Replies(s, []), r);
  }

  /** The failure of a lone helper that answers too early is never reported, whatever it replies afterwards. */
  lemma {:induction false} LoneEarlyFailureIsLost(code: int, codes: seq<int>)
    requires code != 0
    ensures var s := Replies(LaunchAll([Helper(true, [code], true)]), Tagged(0, codes));
            s.calls == [] && !s.done && s.running == 1 && 0 in s.complete
  {
    var h := Helper(true, [code], true);
    if codes == [] {
      assert [h][..0] == [] && LaunchAll([]) == BEFORE;
      var r := Reply(0, code);
      assert Tagged(0, [code]) == [r];
      assert [r][..0] == [] && Replies(BEFORE, [r]) == HelperComplete(Replies(BEFORE, []), r);
      assert LaunchAll([h]) == Launch(BEFORE, 0, h);
    } else {
      hide LaunchAll;
      var n := |codes| - 1;
      LoneEarlyFailureIsLost(code, codes[..n]);
      assert Tagged(0, codes)[..n] == Tagged(0, codes[..n]);
    }
  }

  // ----- the handler

  class DelegatingRequestHandler {
    const helpers: seq<Helper>
    var started: bool
    var handlers: seq<bool>      // which trackers hold a handler
    var complete: set<nat>
    var done: bool
    var stillRunningHelpers: nat
    ghost var calls: seq<Reply>

    ghost function State(): Race
      reads this
    {
      Race(done, stillRunningHelpers, complete, calls)
    }

    constructor (helpers: seq<Helper>)
      ensures State() == BEFORE && !started && this.helpers == helpers
    {
      this.helpers, started, handlers, complete := helpers, false, [], {};
      done, stillRunningHelpers, calls := false, 0, [];
    }

    /** Asks every helper to run, unless it has done so before. */
    method Run() returns (accepted: bool)
      requires !started ==> State() == BEFORE
      modifies this
      ensures old(started) ==> !accepted && State() == old(State())
      ensures !old(started) ==> State() == LaunchAll(helpers) && (accepted <==> Accepted(helpers) != {})
    {
      hide HelperComplete;
      accepted := false;
      if started {
        return;
      }
      started := true;
      handlers := [];
      assert helpers[..0] == [];
      for i := 0 to |helpers|
        invariant |handlers| == i && State() == LaunchAll(helpers[..i])
        invariant accepted <==> exists k :: 0 <= k < i && helpers[k].hasHandler && helpers[k].accepts
      {
        var h := helpers[i];
        handlers := handlers + [h.hasHandler];
        assert helpers[..i + 1][..i] == helpers[..i];
        if h.hasHandler {
          HelperReplies(i, h.early);
          if h.accepts {
            accepted := true;
            stillRunningHelpers := stillRunningHelpers + 1;
          }
        }
      }
      assert helpers[..|helpers|] == helpers;
      if accepted {
        ghost var k :| 0 <= k < |helpers| && helpers[k].hasHandler && helpers[k].accepts;
        assert k in Accepted(helpers);
      }
    }

    method HelperReplies(i: nat, codes: seq<int>)
      modifies `complete, `done, `stillRunningHelpers, `calls
      ensures State() == Replies(old(State()), Tagged(i, codes))
    {
      hide HelperComplete;
      ghost var rs := Tagged(i, codes);
      for k := 0 to |codes|
        invariant State() == Replies(old(State()), rs[..k])
      {
        assert rs[..k + 1][..k] == rs[..k];
        Complete(i, codes[k]);
      }
      assert rs[..|codes|] == rs;
    }

    /** `helperComplete_` */
    method Complete(index: nat, code: int)
      modifies `complete, `done, `stillRunningHelpers, `calls
      ensures State() == HelperComplete(old(State()), Reply(index, code))
    {
      if done {
        return;
      }
      if index in complete {
        return;
      }
      complete := complete + {index};
      if code != 0 {
        if stillRunningHelpers != 0 {
          stillRunningHelpers := stillRunningHelpers - 1;
          if stillRunningHelpers == 0 {
            Close();
            calls := calls + [Reply(index, code)];
          }
        }
      } else {
        Close();
        calls := calls + [Reply(index, code)];
      }
    }

    method Close()
      modifies `done
      ensures State() == CloseRace(old(State()))
    {
      done := true;
    }
  }
}
