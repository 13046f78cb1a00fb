/** What a web page is told about its request. */
module Answers {
  /** `challenge` names the challenge of the page that is answered: its key handle for signing, its version for enrolling. */
  datatype Response = Success(challenge: string, info: int) | Failure(code: int)

  const OTHER_ERROR: int := 1
  const BAD_REQUEST: int := 2
  const TIMEOUT: int := 5

  datatype Option<+T> = None | Some(value: T)
}

/** How a signer finds the challenge of the page that a helper's reply is about. */
module KeyHandles {
  import opened Base64Spec

  /** A challenge of the page, and the table in which the signer keeps the challenges by their key handles as written. */
  datatype Entry = Entry(keyHandle: string, challenge: string)

  function Table(es: seq<Entry>): map<string, Entry> {
    if es == [] then map[] else Table(es[..|es| - 1])[es[|es| - 1].keyHandle := es[|es| - 1]]
  }

  lemma {:induction false} TableHolds(es: seq<Entry>, i: nat)
    requires i < |es|
    ensures es[i].keyHandle in Table(es)
    ensures (forall j :: i < j < |es| ==> es[j].keyHandle != es[i].keyHandle) ==> Table(es)[es[i].keyHandle] == es[i]
  {
    var n := |es| - 1;
    if i < n {
      TableHolds(es[..n], i);
      assert (forall j :: i < j < |es| ==> es[j].keyHandle != es[i].keyHandle) ==>
          forall j :: i < j < n ==> es[..n][j].keyHandle != es[..n][i].keyHandle;
    }
  }

  lemma {:induction false} TableKeys(es: seq<Entry>, key: string)
    ensures key in Table(es) <==> exists j :: 0 <= j < |es| && es[j].keyHandle == key
    ensures key in Table(es) ==> Table(es)[key].keyHandle == key
  {
    if es != [] {
      var n := |es| - 1;
      TableKeys(es[..n], key);
      if j :| 0 <= j < |es| && es[j].keyHandle == key {
        assert j < n ==> es[..n][j].keyHandle == key;
      }
      if j :| 0 <= j < n && es[..n][j].keyHandle == key {
        assert es[j].keyHandle == key;
      }
    }
  }

  /** The helper decodes a key handle and encodes it again in its reply.  Looking that up finds an entry with the key handle
      of the challenge that was signed exactly if the page wrote it canonically, and then the last such challenge; otherwise
      it finds nothing, or, exactly if the page also lists the canonical spelling, the entry of that one. */
  lemma KeyHandleFound(es: seq<Entry>, i: nat)
    requires i < |es|
    ensures var key := Encode(Decode(es[i].keyHandle));
            && (key in Table(es) && Table(es)[key].keyHandle == es[i].keyHandle <==> Canonical(es[i].keyHandle))
            && (Canonical(es[i].keyHandle) && (forall j :: i < j < |es| ==> es[j].keyHandle != es[i].keyHandle) ==>
                  Table(es)[key] == es[i])
            && (!Canonical(es[i].keyHandle) && key in Table(es) <==>
                  !Canonical(es[i].keyHandle) && exists j :: 0 <= j < |es| && j != i && es[j].keyHandle == key)
  {
    hide Encode, Decode, Canonical, Table;
    var key := Encode(Decode(es[i].keyHandle));
    EncodeDecode(es[i].keyHandle);
    TableHolds(es, i);
    TableKeys(es, key);
  }
}

/** The life of one sign request: watchdog, queued request, queue token and signer, which call back into each other. */
module SignRequests {
  import opened Answers
  import opened KeyHandles
  import Base64Spec

  /** `timer`: the watchdog's timer is live.  `closeable`: it still refers to the request. */
  datatype Watchdog = Watchdog(closed: bool, calledBack: bool, timer: bool, closeable: bool)

  /** `table`: the challenges by key handle, which the signer keeps from the time when it starts a helper. */
  datatype Signer = Signer(done: bool, handler: bool, table: map<string, Entry>)

  /** `expired` and `armed` are the request's own timer, `completed` is the state of its token in the queue, and
      `tokenTimer` the timer that completes it. */
  datatype Request = Request(begun: bool, closed: bool, expired: bool, armed: bool, completed: bool, tokenTimer: bool)

  /** `sent` records the calls of `sendResponse`. */
  datatype Sign = Sign(challenges: seq<Entry>, watchdog: Watchdog, request: Request, signer: Option<Signer>, sent: seq<Response>)

  /** An accepted request that has just been queued.  A timer that is set to zero is expired, and never fires; so it is
      with the watchdog's if the page asks for half a second or less, and with the others for one second more. */
  function Queued(watchdogTimer: bool, requestTimer: bool, challenges: seq<Entry>): Sign {
    Sign(challenges, Watchdog(false, false, watchdogTimer, true), Request(false, false, !requestTimer, requestTimer, false, requestTimer), None, [])
  }

  // ----- the effect of each method

  /** `QueuedSignRequest.close` under a watchdog that is closed, so that whatever the signer reports is dropped. */
  function CloseQuietly(s: Sign): Sign {
    if s.request.closed then s
    else s.(request := s.request.(completed := true, closed := true),
            signer := if s.request.begun && s.signer.Some? then Some(s.signer.value.(done := true, handler := false)) else s.signer)
  }

  function CloseWatchdog(s: Sign): Sign {
    var s1 := s.(watchdog := s.watchdog.(closed := true, timer := false));
    if s.watchdog.closeable then
      var s2 := CloseQuietly(s1);
      s2.(watchdog := s2.watchdog.(closeable := false))
    else s1
  }

  function SendResponseOnce(s: Sign, r: Response): Sign {
    var s1 := CloseWatchdog(s);
    s1.(sent := s1.sent + [r])
  }

  /** A callback wrapped by the watchdog.  Without an answer, the callback throws before it sends one. */
  function Wrapped(s: Sign, r: Option<Response>): Sign {
    if s.watchdog.closed then s
    else
      var s1 := s.(watchdog := s.watchdog.(calledBack := true, timer := false));
      if r.Some? then SendResponseOnce(s1, r.value) else s1
  }

  /** `notifyError_` and `notifySuccess_`, with `signerFailed_` and `signerSucceeded_`, which they call. */
  function Notify(s: Sign, r: Option<Response>): Sign
    requires s.signer.Some?
  {
    if s.signer.value.done then s
    else Wrapped(s.(signer := Some(s.signer.value.(done := true, handler := false)), request := s.request.(completed := true)), r)
  }

  function CloseSigner(s: Sign): Sign
    requires s.signer.Some?
  {
    Notify(s.(signer := Some(s.signer.value.(handler := false))), Some(Failure(TIMEOUT)))
  }

  function CloseRequest(s: Sign): Sign {
    if s.request.closed then s
    else
      var s1 := if s.request.begun && s.signer.Some? then CloseSigner(s) else s;
      s1.(request := s1.request.(completed := true, closed := true))
  }

  lemma ClosesQuietly(s: Sign)
    requires s.watchdog.closed
    ensures CloseRequest(s) == CloseQuietly(s)
  {
  }

  function Begin(s: Sign, appIds: bool): Sign {
    if s.request.expired then Wrapped(CloseRequest(s), Some(Failure(TIMEOUT)))
    else StartSigner(s, appIds)
  }

  /** The signer takes over, and the request's own timer is cleared. */
  function StartSigner(s: Sign, appIds: bool): Sign {
    var s1 := NewSigner(s);
    var s2 := if appIds then s1 else Notify(s1, Some(Failure(BAD_REQUEST)));
    s2.(request := s2.request.(expired := true, armed := false))
  }

  function NewSigner(s: Sign): (r: Sign)
    ensures r.signer.Some?
  {
    s.(request := s.request.(begun := true), signer := Some(Signer(false, false, map[])))
  }

  function WatchdogTimeout(s: Sign): Sign {
    var s1 := s.(watchdog := s.watchdog.(timer := false));
    if !s.watchdog.calledBack && !s.watchdog.closed then SendResponseOnce(s1, Failure(TIMEOUT)) else s1
  }

  function RequestTimeout(s: Sign): Sign {
    CloseRequest(s.(request := s.request.(expired := true, armed := false)))
  }

  function AppIdChecked(s: Sign, ok: bool, started: bool): Sign
    requires s.signer.Some?
  {
    if !ok then Notify(s, Some(Failure(BAD_REQUEST)))
    else
      var s1 := s.(signer := Some(s.signer.value.(table := s.signer.value.table + Table(s.challenges))));
      if started then s1.(signer := Some(s1.signer.value.(handler := true))) else Notify(s1, Some(Failure(BAD_REQUEST)))
  }

  /** A reply about a key handle that is not in the table leaves the response without a challenge to name. */
  function HelperSucceeds(s: Sign, key: string, info: int): Sign
    requires s.signer.Some?
  {
    var table := s.signer.value.table;
    Notify(s, if key in table then Some(Success(table[key].keyHandle, info)) else None)
  }

  // ----- runs

  /** Timers, promises, helpers, the queue and the message port, in any order.  `appIds` says whether there are
      app ids to check, `started` whether the challenges could be handed to a helper. */
  datatype Event =
    | BeginWork(appIds: bool)
    | OriginIs(ok: bool)
    | AppIdIs(ok: bool, started: bool)
    | HelperFailed(code: int)
    | HelperSigned(key: string, info: int)
    | WatchdogTimer
    | RequestTimer
    | TokenTimer
    | PortClosed

  /** An event that is not enabled changes nothing: the queue begins no completed token, a timer that is not live does
      not fire, and nothing is reported to a signer that does not exist, or by a helper that does not run. */
  function Step(s: Sign, e: Event): Sign {
    match e
    case BeginWork(appIds) => if s.request.completed then s else Begin(s, appIds)
    case OriginIs(ok) => if ok || s.signer.None? then s else Notify(s, Some(Failure(BAD_REQUEST)))
    case AppIdIs(ok, started) => if s.signer.None? then s else AppIdChecked(s, ok, started)
    case HelperFailed(code) => if Helped(s) then Notify(s, Some(Failure(code))) else s
    case HelperSigned(key, info) => if Helped(s) then HelperSucceeds(s, key, info) else s
    case WatchdogTimer => if s.watchdog.timer then WatchdogTimeout(s) else s
    case RequestTimer => if s.request.armed then RequestTimeout(s) else s
    case TokenTimer => if s.request.tokenTimer then s.(request := s.request.(completed := true, tokenTimer := false)) else s
    case PortClosed => CloseWatchdog(s)
  }

  predicate Helped(s: Sign) {
    s.signer.Some? && s.signer.value.handler
  }

  function Run(s: Sign, es: seq<Event>): Sign {
    if es == [] then s else Step(Run(s, es[..|es| - 1]), es[|es| - 1])
  }

  /** The event is a success that an undone signer learns of, but cannot find the challenge for. */
  predicate Loses(s: Sign, e: Event) {
    e.HelperSigned? && Helped(s) && !s.signer.value.done && e.key !in s.signer.value.table
  }

  predicate LosesIn(s: Sign, es: seq<Event>) {
    es != [] && var n := |es| - 1; LosesIn(s, es[..n]) || Loses(Run(s, es[..n]), es[n])
  }

  /** The success callback has thrown. */
  predicate Lost(s: Sign) {
    s.watchdog.calledBack && !s.watchdog.closed
  }

  /** The watchdog is closed before the response is sent, and has no live timer then. */
  ghost predicate Inv(s: Sign) {
    && |s.sent| <= 1
    && (s.sent != [] ==> s.watchdog.closed)
    && (Lost(s) ==> s.signer.Some? && s.signer.value.done)
    && (s.watchdog.timer ==> !s.watchdog.closed && !s.watchdog.calledBack)
    && (s.watchdog.closed <==> !s.watchdog.closeable)
    && (s.watchdog.closed ==> s.request.closed)
    && (s.request.closed ==> s.request.completed)
    && (s.signer.Some? <==> s.request.begun)
    && (s.request.begun && s.request.closed ==> s.signer.value.done)
    && (s.signer.Some? && s.signer.value.done ==> s.request.completed && (s.watchdog.closed || Lost(s)))
    && (s.request.begun ==> s.request.expired)
    && (s.request.armed ==> !s.request.expired)
    && TableInv(s)
  }

  /** A helper runs only when the table holds all challenges, and a success names one of them. */
  ghost predicate TableInv(s: Sign) {
    && (s.signer.Some? ==> s.signer.value.table == Table(s.challenges) || (s.signer.value.table == map[] && !s.signer.value.handler))
    && (s.sent != [] && s.sent[0].Success? ==> s.sent[0].challenge in Table(s.challenges))
  }

  lemma StepKeepsInv(s: Sign, e: Event)
    requires Inv(s)
    ensures Inv(Step(s, e)) && Step(s, e).challenges == s.challenges
  {
    StepKeepsTable(s, e);
    hide Table, TableInv;
  }

  lemma StepKeepsTable(s: Sign, e: Event)
    requires TableInv(s) && (s.sent != [] ==> s.watchdog.closed)
    ensures TableInv(Step(s, e))
  {
    hide Table, Wrapped;
    match e
    case HelperSigned(key, _) =>
      TableKeys(s.challenges, key);
      if Helped(s) && !s.signer.value.done {
        var r := if key in s.signer.value.table then Some(Success(s.signer.value.table[key].keyHandle, e.info)) else None;
        WrappedKeepsTable(s.(signer := Some(s.signer.value.(done := true, handler := false)), request := s.request.(completed := true)), r);
      }
    case BeginWork(appIds) => BeginKeepsTable(s, appIds);
    case RequestTimer => ClosedKeepsTable(s.(request := s.request.(expired := true, armed := false)));
    case HelperFailed(code) => NotifyKeepsTable(s, code);
    case OriginIs(_) => NotifyKeepsTable(s, BAD_REQUEST);
    case AppIdIs(ok, started) =>
      NotifyKeepsTable(s, BAD_REQUEST);
      if ok && s.signer.Some? {
        NotifyKeepsTable(s.(signer := Some(s.signer.value.(table := s.signer.value.table + Table(s.challenges)))), BAD_REQUEST);
      }
    case _ =>
  }

  lemma WrappedKeepsTable(s: Sign, r: Option<Response>)
    requires TableInv(s) && (s.sent != [] ==> s.watchdog.closed)
    requires r.Some? && r.value.Success? ==> r.value.challenge in Table(s.challenges)
    ensures TableInv(Wrapped(s, r))
  {
    hide Table;
  }

  lemma NotifyKeepsTable(s: Sign, code: int)
    requires TableInv(s) && (s.sent != [] ==> s.watchdog.closed)
    ensures s.signer.Some? ==>
        var t := Notify(s, Some(Failure(code))); TableInv(t) && (t.sent != [] ==> t.watchdog.closed)
  {
    hide Table, Wrapped;
    if s.signer.Some? {
      var s1 := s.(signer := Some(s.signer.value.(done := true, handler := false)), request := s.request.(completed := true));
      WrappedKeepsTable(s1, Some(Failure(code)));
      SentWhenClosed(s1, Some(Failure(code)));
    }
  }

  lemma SentWhenClosed(s: Sign, r: Option<Response>)
    requires s.sent != [] ==> s.watchdog.closed
    ensures Wrapped(s, r).sent != [] ==> Wrapped(s, r).watchdog.closed
  {
  }

  lemma ClosedKeepsTable(s: Sign)
    requires TableInv(s) && (s.sent != [] ==> s.watchdog.closed)
    ensures var t := CloseRequest(s); TableInv(t) && (t.sent != [] ==> t.watchdog.closed)
  {
    hide Table, Notify;
    if s.signer.Some? {
      NotifyKeepsTable(s.(signer := Some(s.signer.value.(handler := false))), TIMEOUT);
    }
  }

  lemma BeginKeepsTable(s: Sign, appIds: bool)
    requires TableInv(s) && (s.sent != [] ==> s.watchdog.closed)
    ensures TableInv(Begin(s, appIds))
  {
    hide Table, Wrapped, CloseRequest, Notify;
    if s.request.expired {
      ClosedKeepsTable(s);
      WrappedKeepsTable(CloseRequest(s), Some(Failure(TIMEOUT)));
    } else {
      NotifyKeepsTable(NewSigner(s), BAD_REQUEST);
    }
  }

  /** A step sends at most one response, none if the watchdog was closed before, and closes it when it sends one.  The timer
      goes out when the watchdog is closed, or a success is lost; and after that nothing is sent. */
  lemma StepSends(s: Sign, e: Event)
    requires Inv(s)
    ensures var t := Step(s, e);
            && (s.watchdog.closed ==> t.sent == s.sent && t.watchdog.closed)
            && (t.sent != s.sent ==> !s.watchdog.closed && t.watchdog.closed && |t.sent| == 1)
            && (t.watchdog.closed && t.sent == [] ==> s.watchdog.closed || e == PortClosed)
            && (s.watchdog.timer && !t.watchdog.timer ==> t.watchdog.closed || Loses(s, e))
            && (t.watchdog.timer ==> s.watchdog.timer)
            && (!t.watchdog.closed ==> (Lost(t) <==> Lost(s) || Loses(s, e)))
            && (Lost(s) || Loses(s, e) ==> t.sent == [])
            && (e == WatchdogTimer && s.watchdog.timer ==> t.sent != [])
  {
    hide Table;
  }

  lemma {:induction false} RunKeepsInv(s: Sign, es: seq<Event>)
    requires Inv(s)
    ensures Inv(Run(s, es)) && Run(s, es).challenges == s.challenges
  {
    hide Inv, Step;
    if es != [] {
      RunKeepsInv(s, es[..|es| - 1]);
      StepKeepsInv(Run(s, es[..|es| - 1]), es[|es| - 1]);
    }
  }

  lemma {:induction false} RunSends(s: Sign, es: seq<Event>)
    requires Inv(s)
    ensures var t := Run(s, es);
            && (s.watchdog.closed ==> t.sent == s.sent && t.watchdog.closed)
            && (t.watchdog.timer ==> s.watchdog.timer)
            && (!s.watchdog.closed && t.watchdog.closed && t.sent == [] ==> PortClosed in es)
            && (!t.watchdog.closed ==> !s.watchdog.closed && (Lost(t) <==> Lost(s) || LosesIn(s, es)))
            && (!t.watchdog.closed && s.watchdog.timer && !t.watchdog.timer ==> Lost(t))
            && (!s.watchdog.closed && (Lost(s) || LosesIn(s, es)) ==> t.sent == [])
  {
    hide Inv, Step, Loses, Lost;
    if es != [] {
      var n := |es| - 1;
      RunSends(s, es[..n]);
      RunKeepsInv(s, es[..n]);
      StepSends(Run(s, es[..n]), es[n]);
      assert PortClosed in es[..n] ==> PortClosed in es;
      NothingLostWhenClosed(Run(s, es[..n]), es[n]);
    } else {
      SilentUntilClosed(s);
    }
  }

  lemma NothingLostWhenClosed(s: Sign, e: Event)
    requires Inv(s)
    ensures s.watchdog.closed ==> !Loses(s, e) && !Lost(s)
  {
  }

  lemma SilentUntilClosed(s: Sign)
    requires Inv(s)
    ensures !s.watchdog.closed ==> s.sent == []
  {
  }

  /** Whatever happens, in whatever order, and with whatever timers: at most one response, which names a challenge of the
      page if it is a success; none after the watchdog was closed; silence only if the port was closed.  The watchdog's
      timer, if it was ever set, is live, and answers, exactly as long as the request is open and no success was lost; and
      a request whose success was lost is never answered. */
  lemma RespondsOnce(watchdogTimer: bool, requestTimer: bool, challenges: seq<Entry>, es: seq<Event>, later: seq<Event>)
    ensures var q := Queued(watchdogTimer, requestTimer, challenges);
            var s := Run(q, es);
            && |s.sent| <= 1
            && (s.sent != [] && s.sent[0].Success? ==> exists i :: 0 <= i < |challenges| && challenges[i].keyHandle == s.sent[0].challenge)
            && (s.watchdog.closed ==> Run(s, later).sent == s.sent)
            && (s.watchdog.closed && s.sent == [] ==> PortClosed in es)
            && (s.watchdog.timer <==> watchdogTimer && !s.watchdog.closed && !LosesIn(q, es))
            && (!s.watchdog.closed ==> |Step(s, WatchdogTimer).sent| == if watchdogTimer && !LosesIn(q, es) then 1 else 0)
            && (LosesIn(q, es) ==> s.sent == [] && Run(s, later).sent == [])
  {
    hide Run, LosesIn, Table;
    var q := Queued(watchdogTimer, requestTimer, challenges);
    var s := Run(q, es);
    RunKeepsInv(q, es);
    RunSends(q, es);
    RunSends(s, later);
    StepSends(s, WatchdogTimer);
    StepKeepsInv(s, WatchdogTimer);
    hide Step;
    NotFiring(s);
    if s.sent != [] && s.sent[0].Success? {
      TableKeys(challenges, s.sent[0].challenge);
    }
  }

  lemma NotFiring(s: Sign)
    ensures !s.watchdog.timer ==> Step(s, WatchdogTimer) == s
  {
  }

  // ----- what the page is told

  /** The signer has reported nothing yet. */
  predicate AtWork(s: Sign) {
    s.signer.Some? && !s.signer.value.done
  }

  /** The answer that an event gives to an open request. */
  ghost function AnswerTo(s: Sign, e: Event): seq<Response> {
    match e
    case BeginWork(appIds) =>
      if s.request.completed then []
      else if s.request.expired then [Failure(TIMEOUT)]
      else if appIds then [] else [Failure(BAD_REQUEST)]
    case OriginIs(ok) => if AtWork(s) && !ok then [Failure(BAD_REQUEST)] else []
    case AppIdIs(ok, started) => if AtWork(s) && !(ok && started) then [Failure(BAD_REQUEST)] else []
    case HelperFailed(code) => if AtWork(s) && Helped(s) then [Failure(code)] else []
    case HelperSigned(key, info) => if AtWork(s) && Helped(s) && key in Table(s.challenges) then [Success(key, info)] else []
    case WatchdogTimer => if s.watchdog.timer then [Failure(TIMEOUT)] else []
    case RequestTimer => []
    case TokenTimer => []
    case PortClosed => []
  }

  /** What each event tells the page of an open request.  A helper's reply is passed on, and a success under the key handle
      that it was found by; each check that fails is a bad request; and time is up for the watchdog, and for a request that
      is begun too late. */
  lemma EventAnswers(s: Sign, e: Event)
    requires Inv(s) && !s.watchdog.closed
    ensures Step(s, e).sent == AnswerTo(s, e)
    ensures AnswerTo(s, e) != [] ==> Step(s, e).watchdog.closed
  {
    SilentUntilClosed(s);
    match e
    case HelperSigned(key, info) => SuccessAnswers(s, key, info);
    case AppIdIs(ok, started) => CheckAnswers(s, ok, started);
    case _ => OtherAnswers(s, e);
  }

  lemma SuccessAnswers(s: Sign, key: string, info: int)
    requires Inv(s) && !s.watchdog.closed && s.sent == []
    ensures Step(s, HelperSigned(key, info)).sent == AnswerTo(s, HelperSigned(key, info))
    ensures AnswerTo(s, HelperSigned(key, info)) != [] ==> Step(s, HelperSigned(key, info)).watchdog.closed
  {
    hide Table;
    TableKeys(s.challenges, key);
  }

  lemma CheckAnswers(s: Sign, ok: bool, started: bool)
    requires Inv(s) && !s.watchdog.closed && s.sent == []
    ensures Step(s, AppIdIs(ok, started)).sent == AnswerTo(s, AppIdIs(ok, started))
    ensures AnswerTo(s, AppIdIs(ok, started)) != [] ==> Step(s, AppIdIs(ok, started)).watchdog.closed
    ensures AtWork(s) && ok && started ==> Helped(Step(s, AppIdIs(ok, started)))
  {
    hide Table;
  }

  lemma OtherAnswers(s: Sign, e: Event)
    requires Inv(s) && !s.watchdog.closed && s.sent == [] && !e.HelperSigned? && !e.AppIdIs?
    ensures Step(s, e).sent == AnswerTo(s, e)
    ensures AnswerTo(s, e) != [] ==> Step(s, e).watchdog.closed
  {
    hide Table, TableInv;
  }

  /** Each timer fires once; that of the token completes it, so that the queue goes on even if nobody else does, and does nothing
      to the request. */
  lemma TimersFireOnce(s: Sign)
    requires Inv(s)
    ensures s.request.tokenTimer ==> Step(s, TokenTimer) == s.(request := s.request.(completed := true, tokenTimer := false))
    ensures !Step(s, WatchdogTimer).watchdog.timer && !Step(s, TokenTimer).request.tokenTimer && !Step(s, RequestTimer).request.armed
    ensures s.request.armed ==> Step(s, RequestTimer).request.closed && Step(s, RequestTimer).request.expired
  {
    hide TableInv;
  }

  /** In every run the page has been told what the event that closed the watchdog had to tell it. */
  lemma {:induction false} ToldOnce(q: Sign, es: seq<Event>)
    requires Inv(q) && !q.watchdog.closed
    ensures var t := Run(q, es);
            if !t.watchdog.closed then t.sent == []
            else exists k :: 0 <= k < |es| && !Run(q, es[..k]).watchdog.closed && t.sent == AnswerTo(Run(q, es[..k]), es[k])
  {
    hide Inv, Step, AnswerTo;
    if es == [] {
      SilentUntilClosed(q);
    } else {
      var n := |es| - 1;
      var s := Run(q, es[..n]);
      RunKeepsInv(q, es[..n]);
      RunKeepsInv(q, es);
      SilentUntilClosed(Run(q, es));
      if s.watchdog.closed {
        ToldOnce(q, es[..n]);
        var k :| 0 <= k < n && !Run(q, es[..n][..k]).watchdog.closed && s.sent == AnswerTo(Run(q, es[..n][..k]), es[..n][k]);
        assert es[..n][..k] == es[..k] && es[..n][k] == es[k];
        StepSends(s, es[n]);
      } else {
        EventAnswers(s, es[n]);
      }
    }
  }

  /** A success is told only of a key handle that a helper said it had signed. */
  lemma SuccessIsSigned(watchdogTimer: bool, requestTimer: bool, challenges: seq<Entry>, es: seq<Event>)
    ensures var s := Run(Queued(watchdogTimer, requestTimer, challenges), es);
            s.sent != [] && s.sent[0].Success? ==> HelperSigned(s.sent[0].challenge, s.sent[0].info) in es
  {
    hide Run, Step;
    var q := Queued(watchdogTimer, requestTimer, challenges);
    ToldOnce(q, es);
  }

  /** In every run, the signature of a challenge whose key handle is written canonically reaches the page, with that key
      handle, if the signer is at work with a helper and the request is open. */
  lemma SignatureReachesPage(q: Sign, es: seq<Event>, i: nat, info: int)
    requires Inv(q) && i < |q.challenges| && Base64Spec.Canonical(q.challenges[i].keyHandle)
    ensures var s, h := Run(q, es), q.challenges[i].keyHandle;
            AtWork(s) && Helped(s) && !s.watchdog.closed ==>
                Step(s, HelperSigned(Base64Spec.Encode(Base64Spec.Decode(h)), info)).sent == [Success(h, info)]
  {
    hide Inv, Run, Step, Base64Spec.Encode, Base64Spec.Decode, Base64Spec.Canonical, Table;
    var s, h := Run(q, es), q.challenges[i].keyHandle;
    Base64Spec.EncodeDecode(h);
    TableHolds(q.challenges, i);
    RunKeepsInv(q, es);
    if !s.watchdog.closed {
      EventAnswers(s, HelperSigned(h, info));
    }
  }

  // ----- lost successes

  /** Every helper signs one of the challenges, decodes its key handle for that, and encodes it again for its reply. */
  ghost predicate ByHelpers(challenges: seq<Entry>, es: seq<Event>) {
    forall k :: 0 <= k < |es| && es[k].HelperSigned? ==> IsReply(challenges, es[k].key)
  }

  ghost predicate IsReply(challenges: seq<Entry>, key: string) {
    exists i :: 0 <= i < |challenges| && key == Base64Spec.Encode(Base64Spec.Decode(challenges[i].keyHandle))
  }

  /** The key handle is not written canonically, and its canonical spelling is not listed either. */
  predicate Unlisted(challenges: seq<Entry>, i: nat)
    requires i < |challenges|
  {
    && !Base64Spec.Canonical(challenges[i].keyHandle)
    && forall j :: 0 <= j < |challenges| ==> challenges[j].keyHandle != Base64Spec.Encode(Base64Spec.Decode(challenges[i].keyHandle))
  }

  /** A success can be lost exactly if the page lists a key handle that is not canonical without its canonical spelling.
      (A request without timers of its own gets no signer, and cannot lose anything.) */
  lemma SuccessLostIff(watchdogTimer: bool, requestTimer: bool, challenges: seq<Entry>)
    ensures (exists es :: ByHelpers(challenges, es) && LosesIn(Queued(watchdogTimer, requestTimer, challenges), es))
       <==> requestTimer && exists i :: 0 <= i < |challenges| && Unlisted(challenges, i)
  {
    hide ByHelpers, LosesIn, Unlisted, Queued;
    var q := Queued(watchdogTimer, requestTimer, challenges);
    if es :| ByHelpers(challenges, es) && LosesIn(q, es) {
      LostMeansUnlisted(watchdogTimer, requestTimer, challenges, es);
    }
    if i :| 0 <= i < |challenges| && Unlisted(challenges, i) && requestTimer {
      UnlistedIsLost(watchdogTimer, challenges, i);
    }
  }

  /** A page that lists every key handle canonically, or its canonical spelling too, is answered or still has a live timer
      that will answer it, unless its port was closed. */
  lemma CanonicalPageIsAnswered(requestTimer: bool, challenges: seq<Entry>, es: seq<Event>)
    requires ByHelpers(challenges, es) && PortClosed !in es
    requires forall i :: 0 <= i < |challenges| ==> !Unlisted(challenges, i)
    ensures var s := Run(Queued(true, requestTimer, challenges), es);
            s.sent != [] || (s.watchdog.timer && Step(s, WatchdogTimer).sent == [Failure(TIMEOUT)])
  {
    hide ByHelpers, LosesIn, Unlisted, Run, Queued, Inv;
    SuccessLostIff(true, requestTimer, challenges);
    RespondsOnce(true, requestTimer, challenges, es, []);
    var q := Queued(true, requestTimer, challenges);
    QueuedInv(q);
    RunKeepsInv(q, es);
    SilentUntilClosed(Run(q, es));
    TimerAnswers(Run(q, es));
  }

  lemma TimerAnswers(s: Sign)
    requires Inv(s)
    ensures s.watchdog.timer ==> Step(s, WatchdogTimer).sent == [Failure(TIMEOUT)]
  {
  }

  lemma {:induction false} LostMeansUnlisted(watchdogTimer: bool, requestTimer: bool, challenges: seq<Entry>, es: seq<Event>)
    requires ByHelpers(challenges, es) && LosesIn(Queued(watchdogTimer, requestTimer, challenges), es)
    ensures requestTimer && exists i :: 0 <= i < |challenges| && Unlisted(challenges, i)
  {
    hide Step, Run, IsReply, Unlisted, Inv;
    var n := |es| - 1;
    var q := Queued(watchdogTimer, requestTimer, challenges);
    var s := Run(q, es[..n]);
    if LosesIn(q, es[..n]) {
      assert ByHelpers(challenges, es[..n]) by {
        forall k | 0 <= k < n && es[..n][k].HelperSigned?
          ensures IsReply(challenges, es[..n][k].key)
        {
          assert es[..n][k] == es[k];
        }
      }
      LostMeansUnlisted(watchdogTimer, requestTimer, challenges, es[..n]);
    } else {
      assert IsReply(challenges, es[n].key);
      QueuedInv(q);
      RunKeepsInv(q, es[..n]);
      TableOfHelper(s);
      NotFound(challenges, es[n].key);
      if !requestTimer {
        UntimedNeverSigns(q, es[..n]);
      }
    }
  }

  lemma QueuedInv(q: Sign)
    requires exists w, r, challenges :: q == Queued(w, r, challenges)
    ensures Inv(q)
  {
  }

  lemma TableOfHelper(s: Sign)
    requires Inv(s) && Helped(s)
    ensures s.signer.value.table == Table(s.challenges)
  {
  }

  lemma NotFound(challenges: seq<Entry>, key: string)
    requires IsReply(challenges, key) && key !in Table(challenges)
    ensures exists i :: 0 <= i < |challenges| && Unlisted(challenges, i)
  {
    hide Table, Base64Spec.Encode, Base64Spec.Decode, Base64Spec.Canonical;
    var i :| 0 <= i < |challenges| && key == Base64Spec.Encode(Base64Spec.Decode(challenges[i].keyHandle));
    KeyHandleFound(challenges, i);
    TableKeys(challenges, key);
    assert Unlisted(challenges, i);
  }

  lemma {:induction false} UntimedNeverSigns(q: Sign, es: seq<Event>)
    requires q.request.expired && q.signer.None?
    ensures Run(q, es).request.expired && Run(q, es).signer.None?
  {
    if es != [] {
      hide Step;
      UntimedNeverSigns(q, es[..|es| - 1]);
      ExpiredStays(Run(q, es[..|es| - 1]), es[|es| - 1]);
    }
  }

  lemma ExpiredStays(s: Sign, e: Event)
    requires s.request.expired && s.signer.None?
    ensures Step(s, e).request.expired && Step(s, e).signer.None?
  {
  }

  /** A run that loses the success for such a key handle; the page is never answered, although all timers were set. */
  lemma UnlistedIsLost(watchdogTimer: bool, challenges: seq<Entry>, i: nat)
    requires i < |challenges| && Unlisted(challenges, i)
    ensures var key := Base64Spec.Encode(Base64Spec.Decode(challenges[i].keyHandle));
            var es := [BeginWork(true), AppIdIs(true, true), HelperSigned(key, 0)];
            ByHelpers(challenges, es) && LosesIn(Queued(watchdogTimer, true, challenges), es)
  {
    hide Table, Base64Spec.Encode, Base64Spec.Decode, Base64Spec.Canonical;
    var key := Base64Spec.Encode(Base64Spec.Decode(challenges[i].keyHandle));
    var es := [BeginWork(true), AppIdIs(true, true), HelperSigned(key, 0)];
    TableKeys(challenges, key);
    var q := Queued(watchdogTimer, true, challenges);
    BeganRun(q, true);
    assert es[..2] == [BeginWork(true), AppIdIs(true, true)];
    assert IsReply(challenges, key);
  }

  lemma BeganRun(q: Sign, started: bool)
    requires exists w, challenges :: q == Queued(w, true, challenges)
    ensures Run(q, [BeginWork(true), AppIdIs(true, started)]) == AppIdChecked(StartSigner(q, true), true, started)
  {
    hide Table;
    var es := [BeginWork(true), AppIdIs(true, started)];
    assert es[..1] == [BeginWork(true)] && es[..1][..0] == [];
    assert Run(q, es[..1]) == Step(Run(q, []), BeginWork(true));
  }

  /** For instance, the key handle "AB", whose last four bits should be zero. */
  lemma UnansweredPage(challenge: string, later: seq<Event>)
    ensures var challenges := [Entry("AB", challenge)];
            var key := Base64Spec.Encode(Base64Spec.Decode("AB"));
            var s := Run(Queued(true, true, challenges), [BeginWork(true), AppIdIs(true, true), HelperSigned(key, 0)]);
            !s.watchdog.closed && Run(s, later).sent == []
  {
    hide Step, Run, LosesIn, Unlisted;
    var challenges := [Entry("AB", challenge)];
    var q := Queued(true, true, challenges);
    var key := Base64Spec.Encode(Base64Spec.Decode("AB"));
    var es := [BeginWork(true), AppIdIs(true, true), HelperSigned(key, 0)];
    NotCanonical(challenge);
    UnlistedIsLost(true, challenges, 0);
    RespondsOnce(true, true, challenges, es, later);
    assert !Run(q, es).watchdog.closed by {
      LostRunIsOpen(q, es);
    }
  }

  lemma NotCanonical(challenge: string)
    ensures Unlisted([Entry("AB", challenge)], 0)
  {
    hide Base64Spec.Encode, Base64Spec.Decode;
    Base64Spec.EncodeDecode("AB");
    assert Base64Spec.ValueAt("AB", 1) == 1;
  }

  lemma LostRunIsOpen(q: Sign, es: seq<Event>)
    requires LosesIn(q, es) && Inv(q) && !q.watchdog.closed && PortClosed !in es
    ensures !Run(q, es).watchdog.closed
  {
    hide Run, LosesIn, Lost;
    RunSends(q, es);
  }

  ghost predicate BeginsIn(es: seq<Event>) {
    exists k :: 0 <= k < |es| && es[k].BeginWork?
  }

  // ----- requests without timers, late checks, second begins

  /** Without timers of its own, a request is answered, with a timeout, exactly when the queue begins it; until then
      nothing but the port can end it. */
  lemma {:induction false} UntimedWaitsForTheQueue(watchdogTimer: bool, challenges: seq<Entry>, es: seq<Event>)
    requires PortClosed !in es && (watchdogTimer ==> WatchdogTimer !in es)
    ensures var s := Run(Queued(watchdogTimer, false, challenges), es);
            if BeginsIn(es) then s.sent == [Failure(TIMEOUT)] && s.watchdog.closed else s == Queued(watchdogTimer, false, challenges)
  {
    if es != [] {
      hide Step;
      var n := |es| - 1;
      var q := Queued(watchdogTimer, false, challenges);
      UntimedWaitsForTheQueue(watchdogTimer, challenges, es[..n]);
      RunKeepsInv(q, es[..n]);
      StepSends(Run(q, es[..n]), es[n]);
      UntimedStep(watchdogTimer, challenges, es[n]);
      assert BeginsIn(es) <==> BeginsIn(es[..n]) || es[n].BeginWork? by {
        LastBegins(es);
      }
    }
  }

  lemma LastBegins(es: seq<Event>)
    requires es != []
    ensures BeginsIn(es) <==> BeginsIn(es[..|es| - 1]) || es[|es| - 1].BeginWork?
  {
    var n := |es| - 1;
    if BeginsIn(es[..n]) {
      var k :| 0 <= k < n && es[..n][k].BeginWork?;
      assert es[k].BeginWork?;
    }
    if BeginsIn(es) && !es[n].BeginWork? {
      var k :| 0 <= k < |es| && es[k].BeginWork?;
      assert es[..n][k].BeginWork?;
    }
  }

  lemma UntimedStep(watchdogTimer: bool, challenges: seq<Entry>, e: Event)
    requires e != PortClosed && (watchdogTimer ==> e != WatchdogTimer)
    ensures var q := Queued(watchdogTimer, false, challenges);
            if e.BeginWork? then Step(q, e).sent == [Failure(TIMEOUT)] && Step(q, e).watchdog.closed else Step(q, e) == q
  {
  }

  /** The helper of a signer runs on behalf of nobody when the signer is done.  That comes about exactly by a
      late result of the app id check, which the signer acts on although it is done. */
  lemma HelperLeftRunning(s: Sign, e: Event)
    requires Inv(s) && (s.signer.Some? && s.signer.value.done ==> !s.signer.value.handler)
    ensures var t := Step(s, e);
            (t.signer.Some? && t.signer.value.done && t.signer.value.handler)
            <==> s.signer.Some? && s.signer.value.done && e == AppIdIs(true, true)
  {
  }

  lemma LateCheckStartsHelper(challenges: seq<Entry>)
    ensures var s := Run(Queued(true, true, challenges), [BeginWork(true), PortClosed, AppIdIs(true, true)]);
            s.signer.Some? && s.signer.value.done && s.signer.value.handler
  {
    var es := [BeginWork(true), PortClosed, AppIdIs(true, true)];
    assert es[..2] == [BeginWork(true), PortClosed] && es[..2][..1] == [BeginWork(true)] && es[..2][..1][..0] == [];
    var q := Queued(true, true, challenges);
    assert Run(q, [BeginWork(true)]) == Step(Run(q, []), BeginWork(true));
    assert Run(q, es[..2]) == Step(Run(q, [BeginWork(true)]), PortClosed);
  }

  /** A second begin, which the queue does cause, finds the timer cleared by the first one and ends the request. */
  lemma SecondBeginTimesOut(s: Sign, appIds: bool)
    requires Inv(s) && s.request.begun && !s.watchdog.closed && !s.request.completed
    ensures Step(s, BeginWork(appIds)).sent == [Failure(TIMEOUT)]
  {
  }
}

/** The same objects with their methods, which call each other back while they are at work. */
module SignRequestObjects {
  import opened Answers
  import opened KeyHandles
  import opened SignRequests

  /** The fields of the watchdog, the queued request, its token and its signer. */
  class SignRequest {
    const challenges: seq<Entry>

    var wdClosed: bool
    var calledBack: bool
    var wdTimer: bool
    var hasCloseable: bool

    var begun: bool
    var reqClosed: bool
    var timerExpired: bool
    var timerArmed: bool
    var tokenCompleted: bool
    var tokenTimer: bool

    var hasSigner: bool
    var signerDone: bool
    var handler: bool
    var serverChallenges: map<string, Entry>

    var sent: seq<Response>

    ghost function State(): Sign
      reads this
    {
      Sign(challenges, Watchdog(wdClosed, calledBack, wdTimer, hasCloseable),
           Request(begun, reqClosed, timerExpired, timerArmed, tokenCompleted, tokenTimer),
           if hasSigner then Some(Signer(signerDone, handler, serverChallenges)) else None, sent)
    }

    /** How many more of the guards that stop the recursion are still to be set. */
    ghost function Open(): nat
      reads this
    {
      (if wdClosed then 0 else 1) + (if hasSigner && !signerDone then 1 else 0)
    }

    constructor (watchdogTimer: bool, requestTimer: bool, challenges: seq<Entry>)
      ensures State() == Queued(watchdogTimer, requestTimer, challenges)
    {
      this.challenges, serverChallenges := challenges, map[];
      wdClosed, calledBack, wdTimer, hasCloseable := false, false, watchdogTimer, true;
      begun, reqClosed, timerExpired, timerArmed := false, false, !requestTimer, requestTimer;
      tokenCompleted, tokenTimer := false, requestTimer;
      hasSigner, signerDone, handler, sent := false, false, false, [];
    }

    method SendOnce(r: Response)
      modifies this
      ensures State() == SendResponseOnce(old(State()), r)
      decreases Open(), 5
    {
      CloseWatchdog();
      sent := sent + [r];
    }

    /** `WatchdogRequestHandler.close` */
    method CloseWatchdog()
      modifies this
      ensures State() == SignRequests.CloseWatchdog(old(State()))
      decreases Open(), 4
    {
      hide CloseRequest, CloseQuietly;
      wdClosed, wdTimer := true, false;
      if hasCloseable {
        ClosesQuietly(State());
        Close();
        hasCloseable := false;
      }
    }

    /** Without an answer, the callback throws; it is the last thing that all its callers call. */
    method WrappedCallback(r: Option<Response>)
      modifies this
      ensures State() == Wrapped(old(State()), r)
      decreases Open(), 6
    {
      if !wdClosed {
        calledBack, wdTimer := true, false;
        if r.Some? {
          SendOnce(r.value);
        }
      }
    }

    method WatchdogFires()
      modifies this
      ensures State() == WatchdogTimeout(old(State()))
    {
      wdTimer := false;
      if !calledBack && !wdClosed {
        SendOnce(Failure(TIMEOUT));
      }
    }

    /** `QueuedSignRequest.close`: `closed_` is set last, so it is called again by what it calls. */
    method Close()
      modifies this
      ensures State() == CloseRequest(old(State()))
      decreases Open(), 3
    {
      if reqClosed {
        return;
      }
      if begun && hasSigner {
        CloseSigner(false);
      }
      tokenCompleted := true;
      reqClosed := true;
    }

    method RequestTimerFires()
      modifies this
      ensures State() == RequestTimeout(old(State()))
    {
      timerExpired, timerArmed := true, false;
      Close();
    }

    method Begin(appIds: bool)
      modifies this
      ensures State() == SignRequests.Begin(old(State()), appIds)
    {
      hide SignRequests.StartSigner, CloseRequest, Wrapped;
      if timerExpired {
        Close();
        WrappedCallback(Some(Failure(TIMEOUT)));
        return;
      }
      StartSigner(appIds);
    }

    method StartSigner(appIds: bool)
      modifies this
      ensures State() == SignRequests.StartSigner(old(State()), appIds)
    {
      hide SignRequests.Notify, NewSigner;
      CreateSigner();
      if !appIds {
        Notify(Some(Failure(BAD_REQUEST)));
      }
      timerExpired, timerArmed := true, false;
    }

    method CreateSigner()
      modifies this
      ensures hasSigner && State() == NewSigner(old(State()))
    {
      begun := true;
      hasSigner, signerDone, handler, serverChallenges := true, false, false, map[];
    }

    /** `signerFailed_` and `signerSucceeded_` */
    method SignerReports(r: Option<Response>)
      modifies this
      ensures State() == Wrapped(old(State().(request := State().request.(completed := true))), r)
      decreases Open(), 7
    {
      tokenCompleted := true;
      WrappedCallback(r);
    }

    /** `Signer.close_` */
    method CloseSigner(notifying: bool)
      requires hasSigner && (notifying ==> signerDone)
      modifies this
      ensures notifying ==> State() == old(State().(signer := Some(Signer(true, false, serverChallenges))))
      ensures !notifying ==> State() == SignRequests.CloseSigner(old(State()))
      decreases Open(), 2
    {
      if handler {
        handler := false;
      }
      if !notifying {
        Notify(Some(Failure(TIMEOUT)));
      }
    }

    /** `notifyError_` and `notifySuccess_` */
    method Notify(r: Option<Response>)
      requires hasSigner
      modifies this
      ensures State() == SignRequests.Notify(old(State()), r)
      decreases Open(), 1
    {
      if signerDone {
        return;
      }
      signerDone := true;
      CloseSigner(true);
      SignerReports(r);
    }

    method AppIdCheckDone(ok: bool, started: bool)
      requires hasSigner
      modifies this
      ensures State() == AppIdChecked(old(State()), ok, started)
    {
      if !ok {
        Notify(Some(Failure(BAD_REQUEST)));
        return;
      }
      StoreChallenges();
      if started {
        handler := true;
      } else {
        Notify(Some(Failure(BAD_REQUEST)));
      }
    }

    /** The loop of `doSign_` */
    method StoreChallenges()
      requires hasSigner
      modifies `serverChallenges
      ensures serverChallenges == old(serverChallenges) + Table(challenges)
    {
      for i := 0 to |challenges|
        invariant serverChallenges == old(serverChallenges) + Table(challenges[..i])
      {
        assert challenges[..i + 1][..i] == challenges[..i];
        serverChallenges := serverChallenges[challenges[i].keyHandle := challenges[i]];
      }
      assert challenges[..|challenges|] == challenges;
    }

    /** `helperComplete_` with a success */
    method HelperSigns(key: string, info: int)
      requires hasSigner
      modifies this
      ensures State() == HelperSucceeds(old(State()), key, info)
    {
      if key in serverChallenges {
        Notify(Some(Success(serverChallenges[key].keyHandle, info)));
      } else {
        Notify(None);
      }
    }

    /** Chrome closes the message port. */
    method PortCloses()
      modifies this
      ensures State() == Step(old(State()), PortClosed)
    {
      CloseWatchdog();
    }
  }
}
