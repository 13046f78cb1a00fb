/** The life of one enroll request: a watchdog whose timer answers when the enroller does not. */
module EnrollRequests {
  import opened Answers

  /** `timer`: the watchdog's timer is live.  `closeable`: it still refers to the enroller. */
  datatype Watchdog = Watchdog(closed: bool, timer: bool, closeable: bool)

  /** `timer`: the enroller waits for the approval of its origin until this timer fires. */
  datatype Enroller = Enroller(done: bool, handler: bool, timer: bool)

  /** `versions` are those of the page's challenges, empty where a challenge names none. */
  datatype Enroll = Enroll(versions: seq<string>, watchdog: Watchdog, enroller: Enroller, sent: seq<Response>)

  function Accepted(watchdogTimer: bool, versions: seq<string>): Enroll {
    Enroll(versions, Watchdog(false, watchdogTimer, true), Enroller(false, false, false), [])
  }

  // ----- the effect of each method

  function CloseEnroller(s: Enroll): Enroll {
    s.(enroller := s.enroller.(done := true, handler := false))
  }

  function CloseWatchdog(s: Enroll): Enroll {
    var s1 := s.(watchdog := s.watchdog.(closed := true, timer := false));
    if s.watchdog.closeable then
      var s2 := CloseEnroller(s1);
      s2.(watchdog := s2.watchdog.(closeable := false))
    else s1
  }

  function SendResponseOnce(s: Enroll, r: Response): Enroll {
    var s1 := CloseWatchdog(s);
    s1.(sent := s1.sent + [r])
  }

  /** The enroller calls the callbacks that send the response, not those that the watchdog has wrapped. */
  function Notify(s: Enroll, r: Response): Enroll {
    if s.enroller.done then s else SendResponseOnce(CloseEnroller(s), r)
  }

  function TabLookedUp(s: Enroll, ok: bool): Enroll {
    if ok then s else Notify(CloseEnroller(s), Failure(BAD_REQUEST))
  }

  /** An origin that is not approved is not told so: its request runs into a timeout. */
  function OriginApproved(s: Enroll, approved: bool, expired: bool, appIds: bool): Enroll {
    if s.enroller.done then s
    else if approved then if appIds then s else Notify(s, Failure(BAD_REQUEST))
    else if expired then Notify(s, Failure(TIMEOUT))
    else s.(enroller := s.enroller.(timer := true))
  }

  function AppIdsChecked(s: Enroll, ok: bool, handler: bool): Enroll {
    if s.enroller.done then s
    else if !ok then Notify(s, Failure(BAD_REQUEST))
    else if handler then s.(enroller := s.enroller.(handler := true))
    else Notify(s, Failure(OTHER_ERROR))
  }

  /** A success of a version that the page does not name is an error. */
  function HelperSucceeds(s: Enroll, version: string, info: int): Enroll {
    Notify(s, if Find(s.versions, version) < |s.versions| then Success(version, info) else Failure(OTHER_ERROR))
  }

  /** `findEnrollChallengeOfVersion`; a version that is left out is not the empty one. */
  function Find(versions: seq<string>, version: string): (i: nat)
    ensures i <= |versions|
    ensures i < |versions| <==> version != "" && version in versions
    ensures i < |versions| ==> versions[i] == version
  {
    if versions == [] then 0
    else if versions[0] != "" && versions[0] == version then 0
    else 1 + Find(versions[1..], version)
  }

  function WatchdogTimeout(s: Enroll): Enroll {
    var s1 := s.(watchdog := s.watchdog.(timer := false));
    if s.watchdog.closed then s1 else SendResponseOnce(s1, Failure(TIMEOUT))
  }

  // ----- runs

  /** Promises, timers, the helper and the message port, in any order. */
  datatype Event =
    | TabIs(ok: bool)
    | ApprovalIs(approved: bool, expired: bool, appIds: bool)
    | OriginIs(ok: bool)
    | AppIdsAre(ok: bool, handler: bool)
    | HelperFailed(code: int)
    | HelperEnrolled(version: string, info: int)
    | ApprovalTimer
    | WatchdogTimer
    | PortClosed

  function Step(s: Enroll, e: Event): Enroll {
    match e
    case TabIs(ok) => TabLookedUp(s, ok)
    case ApprovalIs(approved, expired, appIds) => OriginApproved(s, approved, expired, appIds)
    case OriginIs(ok) => if ok then s else Notify(s, Failure(BAD_REQUEST))
    case AppIdsAre(ok, handler) => AppIdsChecked(s, ok, handler)
    case HelperFailed(code) => Notify(s, Failure(code))
    case HelperEnrolled(version, info) => HelperSucceeds(s, version, info)
    case ApprovalTimer =>
      if s.enroller.timer then Notify(s.(enroller := s.enroller.(timer := false)), Failure(TIMEOUT)) else s
    case WatchdogTimer => if s.watchdog.timer then WatchdogTimeout(s) else s
    case PortClosed => CloseWatchdog(s)
  }

  function Run(s: Enroll, es: seq<Event>): Enroll {
    if es == [] then s else Step(Run(s, es[..|es| - 1]), es[|es| - 1])
  }

  /** No helper runs for an enroller that is done, and a request whose watchdog is closed is done. */
  ghost predicate Inv(s: Enroll) {
    && |s.sent| <= 1
    && (s.sent != [] ==> s.watchdog.closed)
    && (s.watchdog.timer ==> !s.watchdog.closed)
    && (s.watchdog.closed <==> !s.watchdog.closeable)
    && (s.watchdog.closed ==> s.enroller.done)
    && (s.enroller.done ==> !s.enroller.handler)
  }

  lemma StepKeepsInv(s: Enroll, e: Event)
    requires Inv(s)
    ensures Inv(Step(s, e)) && Step(s, e).versions == s.versions
    ensures var t := Step(s, e);
            && (s.watchdog.closed ==> t.sent == s.sent && t.watchdog.closed)
            && (t.watchdog.closed && t.sent == [] ==> s.watchdog.closed || e == PortClosed)
            && (s.watchdog.timer && !t.watchdog.timer ==> t.watchdog.closed)
            && (t.watchdog.timer ==> s.watchdog.timer)
            && (e == WatchdogTimer && s.watchdog.timer ==> t.sent != [])
            && (t.enroller.done && !s.enroller.done && t.sent == [] ==> e == PortClosed || e == TabIs(false))
  {
    hide Find;
  }

  lemma {:induction false} RunKeepsInv(s: Enroll, es: seq<Event>)
    requires Inv(s)
    ensures var t := Run(s, es);
            && Inv(t) && t.versions == s.versions
            && (s.watchdog.closed ==> t.sent == s.sent && t.watchdog.closed)
            && (s.watchdog.timer && !t.watchdog.timer ==> t.watchdog.closed)
            && (t.watchdog.timer ==> s.watchdog.timer)
            && (!s.watchdog.closed && t.watchdog.closed && t.sent == [] ==> PortClosed in es)
            && (!s.enroller.done && t.enroller.done && t.sent == [] ==> PortClosed in es || TabIs(false) in es)
  {
    hide Inv, Step;
    if es != [] {
      var n := |es| - 1;
      RunKeepsInv(s, es[..n]);
      StepKeepsInv(Run(s, es[..n]), es[n]);
      assert forall e :: e in es[..n] ==> e in es;
      SentStays(Run(s, es[..n]), es[n]);
    }
  }

  lemma SentStays(s: Enroll, e: Event)
    requires Inv(s)
    ensures s.sent != [] ==> Step(s, e).sent == s.sent
  {
    StepKeepsInv(s, e);
  }

  /** Whatever happens and whatever timers there are: at most one response, none after the watchdog was closed, silence
      after that only if the port was closed; and no helper outlives the enroller.  The watchdog's timer, if it was ever
      set, is live exactly as long as the request is open, and answers it when it fires. */
  lemma RespondsOnce(watchdogTimer: bool, versions: seq<string>, es: seq<Event>, later: seq<Event>)
    ensures var s := Run(Accepted(watchdogTimer, versions), es);
            && |s.sent| <= 1
            && (s.watchdog.closed ==> Run(s, later).sent == s.sent)
            && (s.watchdog.closed && s.sent == [] ==> PortClosed in es)
            && (s.watchdog.timer <==> watchdogTimer && !s.watchdog.closed)
            && (!s.watchdog.closed ==> |Step(s, WatchdogTimer).sent| == if watchdogTimer then 1 else 0)
            && (s.enroller.done ==> !s.enroller.handler)
  {
    hide Step, Run;
    var q := Accepted(watchdogTimer, versions);
    var s := Run(q, es);
    RunKeepsInv(q, es);
    RunKeepsInv(s, later);
    StepKeepsInv(s, WatchdogTimer);
    NotFiring(s);
  }

  lemma NotFiring(s: Enroll)
    ensures !s.watchdog.timer ==> Step(s, WatchdogTimer) == s
  {
  }

  // ----- what the page is told

  /** The answer that an event gives to a request whose enroller is not done. */
  ghost function AnswerTo(s: Enroll, e: Event): seq<Response> {
    match e
    case TabIs(ok) => []
    case ApprovalIs(approved, expired, appIds) =>
      if !approved then if expired then [Failure(TIMEOUT)] else []
      else if appIds then [] else [Failure(BAD_REQUEST)]
    case OriginIs(ok) => if ok then [] else [Failure(BAD_REQUEST)]
    case AppIdsAre(ok, handler) => if !ok then [Failure(BAD_REQUEST)] else if handler then [] else [Failure(OTHER_ERROR)]
    case HelperFailed(code) => [Failure(code)]
    case HelperEnrolled(version, info) => if version != "" && version in s.versions then [Success(version, info)] else [Failure(OTHER_ERROR)]
    case ApprovalTimer => if s.enroller.timer then [Failure(TIMEOUT)] else []
    case WatchdogTimer => if s.watchdog.timer then [Failure(TIMEOUT)] else []
    case PortClosed => []
  }

  /** What each event tells the page of an open request.  A helper's reply is passed on, if a success has a version that the
      page names; each check that fails is a bad request; and time is up for the watchdog, and for an origin without approval.
      When the enroller is done, only the watchdog is left to tell anything. */
  lemma EventAnswers(s: Enroll, e: Event)
    requires Inv(s) && !s.watchdog.closed
    ensures Step(s, e).sent == if s.enroller.done && e != WatchdogTimer then [] else AnswerTo(s, e)
    ensures Step(s, e).sent != [] ==> Step(s, e).watchdog.closed && Step(s, e).enroller.done
    ensures !s.enroller.done && e == AppIdsAre(true, true) ==> Step(s, e).enroller.handler
    ensures !s.enroller.done && e.ApprovalIs? && !e.approved && !e.expired ==> Step(s, e).enroller.timer
    ensures e == WatchdogTimer ==> !Step(s, e).watchdog.timer
    ensures e == ApprovalTimer ==> !Step(s, e).enroller.timer
    ensures !s.enroller.done && AnswerTo(s, e) == [] && e != TabIs(false) && e != PortClosed ==> !Step(s, e).enroller.done
  {
    hide Find;
  }

  /** In every run the page has been told what the event that closed the watchdog had to tell it. */
  lemma {:induction false} ToldOnce(q: Enroll, es: seq<Event>)
    requires Inv(q) && !q.watchdog.closed
    ensures var t := Run(q, es);
            if !t.watchdog.closed then t.sent == []
            else exists k :: 0 <= k < |es| && !Run(q, es[..k]).watchdog.closed
                             && t.sent == Step(Run(q, es[..k]), es[k]).sent && t.sent <= AnswerTo(Run(q, es[..k]), es[k])
  {
    hide Inv, Step, AnswerTo;
    if es == [] {
      SilentUntilClosed(q);
    } else {
      var n := |es| - 1;
      var s := Run(q, es[..n]);
      RunKeepsInv(q, es[..n]);
      RunKeepsInv(q, es);
      SilentUntilClosed(Run(q, es));
      if s.watchdog.closed {
        ToldOnce(q, es[..n]);
        var k :| 0 <= k < n && !Run(q, es[..n][..k]).watchdog.closed
                 && s.sent == Step(Run(q, es[..n][..k]), es[..n][k]).sent && s.sent <= AnswerTo(Run(q, es[..n][..k]), es[..n][k]);
        assert es[..n][..k] == es[..k] && es[..n][k] == es[k];
        StepKeepsInv(s, es[n]);
      } else {
        EventAnswers(s, es[n]);
      }
    }
  }

  /** A request that has just been accepted has no helper, and waits for no approval. */
  lemma AcceptedIdle(watchdogTimer: bool, versions: seq<string>)
    ensures var q := Accepted(watchdogTimer, versions);
            Inv(q) && Step(q, ApprovalTimer) == q && Step(q, PortClosed) == q.(watchdog := Watchdog(true, false, false), enroller := q.enroller.(done := true))
  {
  }

  lemma SilentUntilClosed(s: Enroll)
    requires Inv(s)
    ensures !s.watchdog.closed ==> s.sent == []
  {
  }

  /** A success is told only of an enrollment that a helper has reported, of a version that the page names. */
  lemma SuccessIsEnrolled(watchdogTimer: bool, versions: seq<string>, es: seq<Event>)
    ensures var s := Run(Accepted(watchdogTimer, versions), es);
            s.sent != [] && s.sent[0].Success? ==>
                HelperEnrolled(s.sent[0].challenge, s.sent[0].info) in es && s.sent[0].challenge in versions
  {
    hide Run, Step;
    var q := Accepted(watchdogTimer, versions);
    ToldOnce(q, es);
    var s := Run(q, es);
    if s.sent != [] {
      var k :| 0 <= k < |es| && !Run(q, es[..k]).watchdog.closed && s.sent <= AnswerTo(Run(q, es[..k]), es[k]);
      RunKeepsInv(q, es[..k]);
      assert s.sent == AnswerTo(Run(q, es[..k]), es[k]);
    }
  }

  /** The version that a helper is told to enroll for a challenge of the page. */
  function Encoded(version: string): string { if version == "" then "U2F_V1" else version }

  /** The versions of a valid request, with each at most once. */
  ghost predicate ValidVersions(versions: seq<string>) {
    forall i, j :: 0 <= i < j < |versions| ==> Encoded(versions[i]) != Encoded(versions[j])
  }

  /** A device that enrolls for a challenge of the page makes the request succeed exactly if the challenge names its version:
      one that leaves it out is enrolled as U2F_V1, and answered with an error. */
  lemma UnnamedVersionFails(s: Enroll, i: nat, info: int)
    requires Inv(s) && !s.watchdog.closed && !s.enroller.done && i < |s.versions| && ValidVersions(s.versions)
    ensures Step(s, HelperEnrolled(Encoded(s.versions[i]), info)).sent
         == if s.versions[i] != "" then [Success(s.versions[i], info)] else [Failure(OTHER_ERROR)]
  {
    hide Find, Step, Inv;
    EventAnswers(s, HelperEnrolled(Encoded(s.versions[i]), info));
    if s.versions[i] == "" {
      UnnamedAlone(s.versions, i);
    }
  }

  lemma UnnamedAlone(versions: seq<string>, i: nat)
    requires i < |versions| && versions[i] == "" && ValidVersions(versions)
    ensures "U2F_V1" !in versions
  {
    forall j | 0 <= j < |versions|
      ensures versions[j] != "U2F_V1"
    {
      if j != i {
        assert Encoded(versions[j]) != Encoded(versions[i]);
      }
    }
  }

  // ----- a tab that cannot be looked up

  /** What first ends a request that only its watchdog can answer: its timer, with a timeout, or the port, silently. */
  function FirstEnd(es: seq<Event>, watchdogTimer: bool): seq<Response> {
    if es == [] then []
    else if es[0] == PortClosed then []
    else if es[0] == WatchdogTimer && watchdogTimer then [Failure(TIMEOUT)]
    else FirstEnd(es[1..], watchdogTimer)
  }

  /** When the tab of the page cannot be looked up, the enroller closes itself before it reports the error, which is
      therefore lost: the page is told about a timeout, if the watchdog's timer was set and fires before the port closes,
      and nothing at all otherwise. */
  lemma TabErrorIsLost(watchdogTimer: bool, versions: seq<string>, es: seq<Event>)
    ensures Run(Step(Accepted(watchdogTimer, versions), TabIs(false)), es).sent == FirstEnd(es, watchdogTimer)
  {
    var s := Step(Accepted(watchdogTimer, versions), TabIs(false));
    assert s == OnlyWatchdog(versions, watchdogTimer, false);
    EndedByWatchdog(versions, watchdogTimer, false, es);
  }

  /** The enroller is done, and has said nothing; `waiting` for its approval timer or not. */
  function OnlyWatchdog(versions: seq<string>, watchdogTimer: bool, waiting: bool): Enroll {
    Enroll(versions, Watchdog(false, watchdogTimer, true), Enroller(true, false, waiting), [])
  }

  /** A page that asks for half a second or less and whose tab cannot be looked up is never answered. */
  lemma NeverAnswered(versions: seq<string>, es: seq<Event>)
    ensures Run(Step(Accepted(false, versions), TabIs(false)), es).sent == []
  {
    TabErrorIsLost(false, versions, es);
    NothingEnds(es);
  }

  lemma {:induction false} NothingEnds(es: seq<Event>)
    ensures FirstEnd(es, false) == []
  {
    if es != [] {
      NothingEnds(es[1..]);
    }
  }

  lemma {:induction false} EndedByWatchdog(versions: seq<string>, watchdogTimer: bool, waiting: bool, es: seq<Event>)
    ensures Run(OnlyWatchdog(versions, watchdogTimer, waiting), es).sent == FirstEnd(es, watchdogTimer)
    decreases |es|
  {
    if es != [] {
      hide Step, Run;
      var s := OnlyWatchdog(versions, watchdogTimer, waiting);
      RunFirst(s, es);
      FirstStep(versions, watchdogTimer, waiting, es[0]);
      var t := Step(s, es[0]);
      if t.watchdog.closed {
        WatchdogInv(versions, watchdogTimer, waiting);
        StepKeepsInv(s, es[0]);
        RunKeepsInv(t, es[1..]);
      } else {
        EndedByWatchdog(versions, watchdogTimer, t.enroller.timer, es[1..]);
      }
    } else {
      RunNothing(OnlyWatchdog(versions, watchdogTimer, waiting));
    }
  }

  lemma RunNothing(s: Enroll)
    ensures Run(s, []) == s
  {
  }

  lemma WatchdogInv(versions: seq<string>, watchdogTimer: bool, waiting: bool)
    ensures Inv(OnlyWatchdog(versions, watchdogTimer, waiting))
  {
  }

  lemma FirstStep(versions: seq<string>, watchdogTimer: bool, waiting: bool, e: Event)
    ensures var t := Step(OnlyWatchdog(versions, watchdogTimer, waiting), e);
            if e == PortClosed then t.watchdog.closed && t.sent == []
            else if e == WatchdogTimer && watchdogTimer then t.watchdog.closed && t.sent == [Failure(TIMEOUT)]
            else t == OnlyWatchdog(versions, watchdogTimer, t.enroller.timer)
  {
  }

  lemma {:induction false} RunFirst(s: Enroll, es: seq<Event>)
    requires es != []
    ensures Run(s, es) == Run(Step(s, es[0]), es[1..])
    decreases |es|
  {
    hide Step;
    var n := |es| - 1;
    if n > 0 {
      RunFirst(s, es[..n]);
      assert es[..n][1..] == es[1..][..n - 1];
    } else {
      assert es[..0] == [] && es[1..] == [];
    }
  }
}

/** The same objects with their methods, which call each other back while they are at work. */
module EnrollRequestObjects {
  import opened Answers
  import opened EnrollRequests

  /** The fields of the watchdog and of the enroller. */
  class EnrollRequest {
    const versions: seq<string>

    var wdClosed: bool
    var wdTimer: bool
    var hasCloseable: bool

    var done: bool
    var handler: bool
    var approvalTimer: bool

    var sent: seq<Response>

    ghost function State(): Enroll
      reads this
    {
      Enroll(versions, Watchdog(wdClosed, wdTimer, hasCloseable), Enroller(done, handler, approvalTimer), sent)
    }

    constructor (watchdogTimer: bool, versions: seq<string>)
      ensures State() == Accepted(watchdogTimer, versions)
    {
      this.versions := versions;
      wdClosed, wdTimer, hasCloseable := false, watchdogTimer, true;
      done, handler, approvalTimer, sent := false, false, false, [];
    }

    method SendOnce(r: Response)
      modifies this
      ensures State() == SendResponseOnce(old(State()), r)
    {
      CloseWatchdog();
      sent := sent + [r];
    }

    method CloseWatchdog()
      modifies this
      ensures State() == EnrollRequests.CloseWatchdog(old(State()))
    {
      wdClosed, wdTimer := true, false;
      if hasCloseable {
        Close();
        hasCloseable := false;
      }
    }

    method Close()
      modifies `handler, `done
      ensures State() == CloseEnroller(old(State()))
    {
      if handler {
        handler := false;
      }
      done := true;
    }

    /** `notifyError_` and `notifySuccess_` */
    method Notify(r: Response)
      modifies this
      ensures State() == EnrollRequests.Notify(old(State()), r)
    {
      if done {
        return;
      }
      Close();
      done := true;
      SendOnce(r);
    }

    method TabLookupDone(ok: bool)
      modifies this
      ensures State() == TabLookedUp(old(State()), ok)
    {
      if !ok {
        Close();
        Notify(Failure(BAD_REQUEST));
      }
    }

    method ApprovalDone(approved: bool, expired: bool, appIds: bool)
      modifies this
      ensures State() == OriginApproved(old(State()), approved, expired, appIds)
    {
      if done {
        return;
      }
      if !approved {
        if expired {
          Notify(Failure(TIMEOUT));
          return;
        }
        approvalTimer := true;
        return;
      }
      if !appIds {
        Notify(Failure(BAD_REQUEST));
      }
    }

    method AppIdCheckDone(ok: bool, helper: bool)
      modifies this
      ensures State() == AppIdsChecked(old(State()), ok, helper)
    {
      if done {
        return;
      }
      if ok {
        if helper {
          handler := true;
        } else {
          Notify(Failure(OTHER_ERROR));
        }
      } else {
        Notify(Failure(BAD_REQUEST));
      }
    }

    /** `sendSuccessResponse`, which looks for the challenge of the version, and `notifySuccess_` */
    method HelperEnrolls(version: string, info: int)
      modifies this
      ensures State() == HelperSucceeds(old(State()), version, info)
    {
      var found := FindVersion(version);
      Notify(if found then Success(version, info) else Failure(OTHER_ERROR));
    }

    /** The loop of `findEnrollChallengeOfVersion` */
    method FindVersion(version: string) returns (found: bool)
      ensures found <==> version != "" && version in versions
    {
      for i := 0 to |versions|
        invariant !(version != "" && version in versions[..i])
      {
        if versions[i] != "" && versions[i] == version {
          return true;
        }
        assert versions[..i + 1] == versions[..i] + [versions[i]];
      }
      assert versions[..|versions|] == versions;
      found := false;
    }

    method WatchdogFires()
      modifies this
      ensures State() == WatchdogTimeout(old(State()))
    {
      wdTimer := false;
      if !wdClosed {
        SendOnce(Failure(TIMEOUT));
      }
    }
  }
}
