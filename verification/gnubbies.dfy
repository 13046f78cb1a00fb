/** Sharing the one open of a device between all who want to be its clients, whose callbacks may ask again. */
module SharedOpen {

  const OK: int := 0
  const NODEVICE: int := -512

  /** What a callback does to the device registry before it returns: ask to be a client, find the device closing, or see it
      removed from the open devices.  The enumeration changes only between callbacks. */
  datatype Script =
    | End
    | Add(client: Client, rest: Script)
    | MarkClosing(rest: Script)
    | Remove(rest: Script)

  datatype Callback = Null | Callback(script: Script)

  datatype Client = Client(id: nat, cb: Callback)

  datatype Call = Call(id: nat, rc: int)

  /** One device.  `pending` is its entry in `pendingOpens_`; `opens` counts the low-level opens that have not reported;
      `added` are the clients with callbacks that ever asked; `aborted`: a null callback was called. */
  datatype Device = Device(present: bool, open: bool, closing: bool, pending: Pending, opens: nat,
                           added: multiset<nat>, calls: seq<Call>, aborted: bool)

  datatype Pending = Absent | Waiting(clients: seq<Client>)

  const IDLE: Device := Device(true, false, false, Absent, 0, multiset{}, [], false)

  // ----- the effect of each method

  function Size(s: Script): nat {
    match s
    case End => 0
    case Add(c, t) => ClientSize(c) + Size(t)
    case MarkClosing(t) => Size(t)
    case Remove(t) => Size(t)
  }

  function ClientSize(c: Client): nat {
    1 + if c.cb.Callback? then Size(c.cb.script) else 0
  }

  function Weight(p: Pending): nat {
    if p.Absent? then 0 else TotalSize(p.clients)
  }

  function TotalSize(cs: seq<Client>): nat {
    if cs == [] then 0 else TotalSize(cs[..|cs| - 1]) + ClientSize(cs[|cs| - 1])
  }

  lemma {:induction false} TotalSizeFirst(cs: seq<Client>)
    requires cs != []
    ensures TotalSize(cs) == ClientSize(cs[0]) + TotalSize(cs[1..])
  {
    if |cs| > 1 {
      TotalSizeFirst(cs[..|cs| - 1]);
      assert cs[..|cs| - 1][1..] == cs[1..][..|cs| - 2];
    }
  }

  /** Running a callback may add waiting clients, but no more than its script holds, and never ends the waiting; it
      starts an open only for the first of them, on a device that is not open. */
  ghost predicate Grows(d: Device, r: Device, size: nat) {
    && Weight(r.pending) <= Weight(d.pending) + size
    && (if d.pending.Absent? && r.pending.Waiting? then r.opens == d.opens + 1 && !r.open && r.pending.clients != []
        else d.pending.Waiting? == r.pending.Waiting? && r.opens == d.opens)
    && (d.pending.Waiting? ==> d.pending.clients <= r.pending.clients)
    && (r.open ==> d.open) && r.aborted == d.aborted && r.present == d.present
  }

  function Push(p: Pending, c: Client): (r: Pending)
    ensures Weight(r) == Weight(p) + ClientSize(c)
  {
    hide ClientSize;
    var cs := if p.Absent? then [] else p.clients;
    TotalSizeLast(cs, c);
    Waiting(cs + [c])
  }

  lemma TotalSizeLast(cs: seq<Client>, c: Client)
    ensures TotalSize(cs + [c]) == TotalSize(cs) + ClientSize(c)
  {
    hide ClientSize;
    var all := cs + [c];
    assert all[..|all| - 1] == cs && all[|all| - 1] == c;
  }

  function RunScript(d: Device, s: Script): (r: Device)
    ensures Grows(d, r, Size(s))
    decreases s, 1
  {
    match s
    case End => d
    case Add(c, t) => RunScript(AddClient(d, c), t)
    case MarkClosing(t) => RunScript(d.(closing := true), t)
    case Remove(t) => RunScript(d.(open := false), t)
  }

  function CallBack(d: Device, c: Client, rc: int): (r: Device)
    ensures Grows(d, r, ClientSize(c) - 1)
    decreases c, 0
  {
    if c.cb.Null? then d else RunScript(d.(calls := d.calls + [Call(c.id, rc)]), c.cb.script)
  }

  /** `opened`; a closing device has no clients. */
  function Opened(d: Device, c: Client): (r: Device)
    ensures Grows(d, r, ClientSize(c) - 1)
    decreases c, 1
  {
    CallBack(d, c, if d.closing then NODEVICE else OK)
  }

  function AddClient(d: Device, c: Client): (r: Device)
    ensures Grows(d, r, ClientSize(c))
    decreases c, 2
  {
    var d1 := if c.cb.Null? then d else d.(added := d.added + multiset{c.id});
    if !d.present then CallBack(d1, c, NODEVICE)
    else if d.open then Opened(d1, c)
    else if d.pending.Waiting? then d1.(pending := Push(d.pending, c))
    else d1.(pending := Push(d.pending, c), opens := d.opens + 1)
  }

  function Shift(d: Device): (r: Device)
    requires d.pending.Waiting? && d.pending.clients != []
    ensures Weight(d.pending) == ClientSize(d.pending.clients[0]) + Weight(r.pending)
  {
    TotalSizeFirst(d.pending.clients);
    d.(pending := Waiting(d.pending.clients[1..]))
  }

  /** The loop of `openCb` over a device that has opened. */
  function DrainOpened(d: Device): Device
    requires d.pending.Waiting?
    decreases Weight(d.pending)
  {
    if d.pending.clients == [] then d.(pending := Absent)
    else DrainOpened(Opened(Shift(d), d.pending.clients[0]))
  }

  /** The loop of `notifyOpenResult`; it calls a null callback, which throws, and leaves the rest waiting. */
  function DrainFailed(d: Device, rc: int): Device
    requires d.pending.Waiting?
    decreases Weight(d.pending)
  {
    if d.pending.clients == [] then d.(pending := Absent)
    else if d.pending.clients[0].cb.Null? then Shift(d).(aborted := true)
    else DrainFailed(CallBack(Shift(d), d.pending.clients[0], rc), rc)
  }

  /** A low-level open reports a device, or fails with `rc`. */
  function OpenReports(d: Device, rc: int): Device
    requires d.pending.Waiting?
  {
    if rc == OK then DrainOpened(d.(open := true, closing := false)) else DrainFailed(d, rc)
  }

  // ----- runs

  datatype Event =
    | Added(c: Client)
    | Reported(rc: int)
    | Closing
    | Removed
    | Enumeration(present: bool)

  /** Each low-level open reports once; the entry that it drains is there. */
  function Step(d: Device, e: Event): Device
    requires d.opens > 0 ==> d.pending.Waiting?
  {
    match e
    case Added(c) => AddClient(d, c)
    case Reported(rc) => if d.opens > 0 then OpenReports(d.(opens := d.opens - 1), rc) else d
    case Closing => d.(closing := true)
    case Removed => d.(open := false)
    case Enumeration(present) => d.(present := present)
  }

  function CallIds(calls: seq<Call>): multiset<nat> {
    if calls == [] then multiset{} else CallIds(calls[..|calls| - 1]) + multiset{calls[|calls| - 1].id}
  }

  function Own(c: Client): multiset<nat> { if c.cb.Null? then multiset{} else multiset{c.id} }

  function WaitingIds(cs: seq<Client>): multiset<nat> {
    if cs == [] then multiset{}
    else WaitingIds(cs[..|cs| - 1]) + Own(cs[|cs| - 1])
  }

  function PendingIds(p: Pending): multiset<nat> {
    if p.Absent? then multiset{} else WaitingIds(p.clients)
  }

  /** Everyone with a callback who asked, other than `extra`, has been called once or is still waiting. */
  ghost predicate Conserved(d: Device, extra: multiset<nat>) {
    d.added == CallIds(d.calls) + PendingIds(d.pending) + extra
  }

  lemma CallCounted(calls: seq<Call>, call: Call)
    ensures CallIds(calls + [call]) == CallIds(calls) + multiset{call.id}
  {
    assert (calls + [call])[..|calls|] == calls;
  }

  lemma PushCounted(p: Pending, c: Client)
    ensures PendingIds(Push(p, c)) == PendingIds(p) + Own(c)
  {
    hide Own;
    LastCounted(if p.Absent? then [] else p.clients, c);
  }

  lemma LastCounted(cs: seq<Client>, c: Client)
    ensures WaitingIds(cs + [c]) == WaitingIds(cs) + Own(c)
  {
    hide Own;
    var all := cs + [c];
    assert all[..|all| - 1] == cs && all[|all| - 1] == c;
  }

  lemma {:induction false} ShiftCounted(cs: seq<Client>)
    requires cs != []
    ensures WaitingIds(cs) == Own(cs[0]) + WaitingIds(cs[1..])
  {
    hide Own;
    if |cs| > 1 {
      var n := |cs| - 1;
      ShiftCounted(cs[..n]);
      LastCounted(cs[..n][1..], cs[n]);
      assert cs[1..] == cs[..n][1..] + [cs[n]];
    } else {
      assert cs[..0] == [] && cs[1..] == [];
    }
  }

  lemma {:induction false} RunScriptConserves(d: Device, s: Script)
    requires Conserved(d, multiset{})
    ensures Conserved(RunScript(d, s), multiset{})
    decreases s, 1
  {
    hide AddClient;
    match s
    case End =>
    case Add(c, t) =>
      AddClientConserves(d, c);
      RunScriptConserves(AddClient(d, c), t);
    case MarkClosing(t) => RunScriptConserves(d.(closing := true), t);
    case Remove(t) => RunScriptConserves(d.(open := false), t);
  }

  lemma {:induction false} CallBackConserves(d: Device, c: Client, rc: int)
    requires Conserved(d, Own(c))
    ensures Conserved(CallBack(d, c, rc), multiset{})
    decreases c, 0
  {
    hide RunScript, CallIds, WaitingIds;
    if c.cb.Callback? {
      CallCounted(d.calls, Call(c.id, rc));
      RunScriptConserves(d.(calls := d.calls + [Call(c.id, rc)]), c.cb.script);
    }
  }

  lemma {:induction false} AddClientConserves(d: Device, c: Client)
    requires Conserved(d, multiset{})
    ensures Conserved(AddClient(d, c), multiset{})
    decreases c, 2
  {
    hide CallBack, CallIds, WaitingIds, Push;
    var d1 := if c.cb.Null? then d else d.(added := d.added + multiset{c.id});
    CallBackConserves(d1, c, NODEVICE);
    CallBackConserves(d1, c, OK);
    PushCounted(d.pending, c);
  }

  lemma {:induction false} DrainOpenedConserves(d: Device)
    requires d.pending.Waiting? && Conserved(d, multiset{})
    ensures Conserved(DrainOpened(d), multiset{})
    ensures var r := DrainOpened(d);
            r.pending.Absent? && r.opens == d.opens && r.aborted == d.aborted
    decreases Weight(d.pending)
  {
    hide CallBack, CallIds, TotalSize;
    if d.pending.clients != [] {
      ShiftCounted(d.pending.clients);
      CallBackConserves(Shift(d), d.pending.clients[0], if d.closing then NODEVICE else OK);
      DrainOpenedConserves(Opened(Shift(d), d.pending.clients[0]));
    }
  }

  lemma {:induction false} DrainFailedConserves(d: Device, rc: int)
    requires d.pending.Waiting? && Conserved(d, multiset{}) && !d.aborted
    ensures Conserved(DrainFailed(d, rc), multiset{})
    ensures var r := DrainFailed(d, rc);
            r.opens == d.opens && (r.open ==> d.open) && (r.pending.Waiting? <==> r.aborted)
    decreases Weight(d.pending)
  {
    hide CallBack, CallIds, TotalSize;
    if d.pending.clients != [] {
      var c := d.pending.clients[0];
      ShiftCounted(d.pending.clients);
      if c.cb.Callback? {
        CallBackConserves(Shift(d), c, rc);
        DrainFailedConserves(CallBack(Shift(d), c, rc), rc);
      }
    }
  }

  /** At most one open is outstanding, none of a device that is open; someone waits for it, and nobody waits without it
      unless a null callback has broken off the calls. */
  ghost predicate Inv(d: Device) {
    && Conserved(d, multiset{})
    && d.opens <= 1 && (d.opens == 1 ==> !d.open && d.pending.Waiting? && d.pending.clients != [])
    && (d.pending.Waiting? <==> d.opens == 1 || d.aborted)
    && (d.aborted ==> d.opens == 0)
  }

  lemma StepKeepsInv(d: Device, e: Event)
    requires Inv(d)
    ensures Inv(Step(d, e))
  {
    hide AddClient, DrainOpened, DrainFailed, CallIds, WaitingIds, TotalSize;
    match e
    case Added(c) => AddClientConserves(d, c);
    case Reported(rc) =>
      if d.opens > 0 {
        if rc == OK {
          DrainOpenedConserves(d.(opens := d.opens - 1, open := true, closing := false));
        } else {
          DrainFailedConserves(d.(opens := d.opens - 1), rc);
        }
      }
    case _ =>
  }

  ghost function Run(es: seq<Event>): (r: Device)
    ensures Inv(r)
  {
    hide Step;
    if es == [] then IDLE
    else
      var d := Run(es[..|es| - 1]);
      StepKeepsInv(d, es[|es| - 1]);
      Step(d, es[|es| - 1])
  }

  /** In every run, however callbacks ask again while others are being called: everyone with a callback has been called
      once or waits, for the one open that is under way; and when none is, everyone has been called. */
  lemma EveryoneCalledOnce(es: seq<Event>)
    ensures var d := Run(es);
            && d.added == CallIds(d.calls) + PendingIds(d.pending)
            && d.opens <= 1 && (d.open ==> d.opens == 0)
            && (d.opens == 0 && !d.aborted ==> d.added == CallIds(d.calls))
  {
    var d := Run(es);
    assert d.opens == 0 && !d.aborted ==> PendingIds(d.pending) == multiset{};
  }

  // ----- what the clients are told

  /** The answer that a client gets which does not have to wait. */
  function AnswerNow(d: Device): int {
    if d.present && !d.closing then OK else NODEVICE
  }

  predicate Waits(d: Device) {
    d.present && !d.open
  }

  /** A callback adds calls to those that were made before it. */
  lemma {:induction false} ScriptCallsMore(d: Device, s: Script)
    ensures d.calls <= RunScript(d, s).calls
    decreases s, 1
  {
    hide AddClient, TotalSize;
    match s
    case End =>
    case Add(c, t) =>
      AddCallsMore(d, c);
      ScriptCallsMore(AddClient(d, c), t);
    case MarkClosing(t) => ScriptCallsMore(d.(closing := true), t);
    case Remove(t) => ScriptCallsMore(d.(open := false), t);
  }

  lemma {:induction false} AddCallsMore(d: Device, c: Client)
    ensures d.calls <= AddClient(d, c).calls
    decreases c, 0
  {
    hide RunScript, TotalSize;
    if c.cb.Callback? {
      var d1 := d.(added := d.added + multiset{c.id});
      CallsWith(d1, c, NODEVICE);
      CallsWith(d1, c, OK);
      assert Opened(d1, c) == CallBack(d1, c, if d.closing then NODEVICE else OK);
      ScriptCallsMore(d1.(calls := d.calls + [Call(c.id, NODEVICE)]), c.cb.script);
      ScriptCallsMore(d1.(calls := d.calls + [Call(c.id, OK)]), c.cb.script);
    } else {
      CallsNobody(d, c, NODEVICE);
    }
  }

  lemma CallsNobody(d: Device, c: Client, rc: int)
    requires c.cb.Null?
    ensures CallBack(d, c, rc) == d && Opened(d, c) == d
  {
  }

  lemma CallsWith(d: Device, c: Client, rc: int)
    requires c.cb.Callback?
    ensures CallBack(d, c, rc) == RunScript(d.(calls := d.calls + [Call(c.id, rc)]), c.cb.script)
    ensures d.present ==> Opened(d, c) == CallBack(d, c, AnswerNow(d))
  {
    hide RunScript;
  }

  /** Whoever asks for a device that is there, but not open, waits for it without being told anything; anybody else is
      told at once, before anything else happens: that the device is open, or that there is none if it is not enumerated or
      about to close. */
  lemma AddAnswers(d: Device, c: Client)
    ensures if Waits(d) then AddClient(d, c).calls == d.calls && AddClient(d, c).pending == Push(d.pending, c)
            else if c.cb.Callback? then d.calls + [Call(c.id, AnswerNow(d))] <= AddClient(d, c).calls
            else AddClient(d, c) == d
  {
    hide RunScript, TotalSize;
    if c.cb.Callback? && !Waits(d) {
      CallsWith(d.(added := d.added + multiset{c.id}), c, AnswerNow(d));
      ScriptCallsMore(d.(added := d.added + multiset{c.id}, calls := d.calls + [Call(c.id, AnswerNow(d))]), c.cb.script);
    } else if c.cb.Null? {
      CallsNobody(d, c, NODEVICE);
    }
  }

  /** What the enumeration, and the closing and the removal of the device, mean for whoever asks next. */
  lemma AnswersAfterChange(d: Device, c: Client)
    requires c.cb.Callback? && (d.opens > 0 ==> d.pending.Waiting?)
    ensures d.calls + [Call(c.id, NODEVICE)] <= Step(Step(d, Enumeration(false)), Added(c)).calls
    ensures d.open ==> d.calls + [Call(c.id, NODEVICE)] <= Step(Step(d, Closing), Added(c)).calls
    ensures d.present ==> Step(Step(d, Removed), Added(c)).calls == d.calls
    ensures d.open && !d.closing ==> d.calls + [Call(c.id, OK)] <= Step(Step(d, Enumeration(true)), Added(c)).calls
  {
    hide AddClient;
    AddAnswers(d.(present := false), c);
    AddAnswers(d.(present := true), c);
    AddAnswers(d.(closing := true), c);
    AddAnswers(d.(open := false), c);
  }

  /** The calls of `r` that `d` has not seen: first the good news, and from the time when the device is about to close, or from
      the beginning if it was, the bad. */
  ghost predicate GoodThenBad(d: Device, r: Device, good: nat) {
    && d.calls <= r.calls && |d.calls| + good <= |r.calls|
    && (forall k :: |d.calls| <= k < |d.calls| + good ==> r.calls[k].rc == OK)
    && (forall k :: |d.calls| + good <= k < |r.calls| ==> r.calls[k].rc == NODEVICE)
    && (d.closing ==> good == 0 && r.closing)
    && (!r.closing ==> |d.calls| + good == |r.calls|)
    && r.present == d.present
  }

  lemma GoodThenBadSteps(d: Device, e: Device, r: Device, g: nat, h: nat) returns (good: nat)
    requires GoodThenBad(d, e, g) && GoodThenBad(e, r, h)
    ensures GoodThenBad(d, r, good)
  {
    good := if e.closing then g else g + h;
  }

  lemma {:induction false} ScriptTellsTruth(d: Device, s: Script) returns (good: nat)
    requires d.present
    ensures GoodThenBad(d, RunScript(d, s), good)
    decreases s, 1
  {
    hide AddClient, TotalSize, GoodThenBad;
    match s
    case End =>
      good := 0;
      NoCalls(d, d);
    case Add(c, t) =>
      var g := AddTellsTruth(d, c);
      AddKeepsPresent(d, c);
      var h := ScriptTellsTruth(AddClient(d, c), t);
      good := GoodThenBadSteps(d, AddClient(d, c), RunScript(d, s), g, h);
    case MarkClosing(t) =>
      NoCalls(d, d.(closing := true));
      var h := ScriptTellsTruth(d.(closing := true), t);
      good := GoodThenBadSteps(d, d.(closing := true), RunScript(d, s), 0, h);
    case Remove(t) =>
      NoCalls(d, d.(open := false));
      var h := ScriptTellsTruth(d.(open := false), t);
      good := GoodThenBadSteps(d, d.(open := false), RunScript(d, s), 0, h);
  }

  lemma NoCalls(d: Device, e: Device)
    requires e.calls == d.calls && e.present == d.present && (d.closing ==> e.closing)
    ensures GoodThenBad(d, e, 0)
  {
  }

  lemma AddKeepsPresent(d: Device, c: Client)
    ensures AddClient(d, c).present == d.present
  {
  }

  lemma {:induction false} CallTellsTruth(d: Device, c: Client) returns (good: nat)
    requires d.present
    ensures GoodThenBad(d, Opened(d, c), good)
    decreases c, 0
  {
    hide RunScript, TotalSize, GoodThenBad;
    if c.cb.Null? {
      good := 0;
      NoCalls(d, d);
    } else {
      var e := d.(calls := d.calls + [Call(c.id, AnswerNow(d))]);
      var g := OneCall(d, c.id);
      CallsWith(d, c, AnswerNow(d));
      var h := ScriptTellsTruth(e, c.cb.script);
      good := GoodThenBadSteps(d, e, Opened(d, c), g, h);
    }
  }

  lemma OneCall(d: Device, id: nat) returns (good: nat)
    requires d.present
    ensures GoodThenBad(d, d.(calls := d.calls + [Call(id, AnswerNow(d))]), good)
  {
    good := if d.closing then 0 else 1;
  }

  lemma {:induction false} AddTellsTruth(d: Device, c: Client) returns (good: nat)
    requires d.present
    ensures GoodThenBad(d, AddClient(d, c), good)
    decreases c, 1
  {
    hide Opened, TotalSize, GoodThenBad;
    var e := if c.cb.Null? then d else d.(added := d.added + multiset{c.id});
    NoCalls(d, e);
    if d.open {
      var h := CallTellsTruth(e, c);
      good := GoodThenBadSteps(d, e, AddClient(d, c), 0, h);
    } else {
      good := 0;
      NoCalls(d, AddClient(d, c));
    }
  }

  /** After a successful open, everyone who waits, and everyone who asks in the meantime and is answered, is told that the
      device is open as long as nobody has made it close, and that there is none after that.  The first who waits is told
      first. */
  lemma {:induction false} OpenTellsTruth(d: Device) returns (good: nat)
    requires d.pending.Waiting? && d.present
    ensures GoodThenBad(d, DrainOpened(d), good)
    decreases Weight(d.pending)
  {
    hide Opened, TotalSize, GoodThenBad;
    if d.pending.clients == [] {
      good := 0;
      NoCalls(d, DrainOpened(d));
    } else {
      var c, e := d.pending.clients[0], Shift(d);
      NoCalls(d, e);
      var g := CallTellsTruth(e, c);
      OpenedPresent(e, c);
      var h := OpenTellsTruth(Opened(e, c));
      g := GoodThenBadSteps(d, e, Opened(e, c), 0, g);
      good := GoodThenBadSteps(d, Opened(e, c), DrainOpened(d), g, h);
    }
  }

  lemma OpenedPresent(d: Device, c: Client)
    ensures Opened(d, c).present == d.present
  {
  }

  lemma FirstIsToldFirst(d: Device)
    requires d.pending.Waiting? && d.present && d.pending.clients != [] && d.pending.clients[0].cb.Callback?
    ensures d.calls + [Call(d.pending.clients[0].id, AnswerNow(d))] <= DrainOpened(d).calls
  {
    hide TotalSize, RunScript, GoodThenBad;
    var c, e := d.pending.clients[0], Shift(d);
    CallsWith(e, c, AnswerNow(d));
    ScriptCallsMore(e.(calls := d.calls + [Call(c.id, AnswerNow(d))]), c.cb.script);
    OpenedPresent(e, c);
    var good := OpenTellsTruth(Opened(e, c));
    CallsGrow(Opened(e, c), DrainOpened(d), good);
  }

  lemma CallsGrow(d: Device, r: Device, good: nat)
    requires GoodThenBad(d, r, good)
    ensures d.calls <= r.calls
  {
  }

  /** One who waits alone for an open that succeeds is told so. */
  lemma OpenIsTold(c: Client)
    requires c.cb == Callback(End)
    ensures Run([Added(c), Reported(OK)]).calls == [Call(c.id, OK)] && Run([Added(c), Reported(OK)]).open
  {
    hide TotalSize;
    var es := [Added(c), Reported(OK)];
    assert es[..1] == [Added(c)] && es[..1][..0] == [];
    assert Run(es[..1]) == Step(Run([]), Added(c));
    assert Run(es[..1]) == AddClient(IDLE, c);
    var d := Run(es[..1]).(opens := 0, open := true, closing := false);
    assert Run(es[..1]).pending.clients == [c];
    assert Run(es) == DrainOpened(d) == DrainOpened(Opened(Shift(d), c));
    assert Shift(d).pending.clients == [];
    CallsWith(Shift(d), c, OK);
    assert RunScript(Shift(d).(calls := [Call(c.id, OK)]), End) == Shift(d).(calls := [Call(c.id, OK)]);
    assert [] + [Call(c.id, OK)] == [Call(c.id, OK)];
    assert Opened(Shift(d), c) == Shift(d).(calls := [Call(c.id, OK)]);
  }

  // ----- the null callback

  /** The clients that a callback adds itself. */
  function AddedBy(s: Script): seq<Client> {
    match s
    case End => []
    case Add(c, t) => [c] + AddedBy(t)
    case MarkClosing(t) => AddedBy(t)
    case Remove(t) => AddedBy(t)
  }

  predicate NullWithin(s: Script) {
    match s
    case End => false
    case Add(c, t) => c.cb.Null? || NullWithin(c.cb.script) || NullWithin(t)
    case MarkClosing(t) => NullWithin(t)
    case Remove(t) => NullWithin(t)
  }

  /** A client without a callback, or one whose callback adds such a client, on some level, to a device that exists. */
  predicate Fragile(present: bool, c: Client) {
    c.cb.Null? || (present && NullWithin(c.cb.script))
  }

  predicate AnyFragile(present: bool, cs: seq<Client>) {
    cs != [] && (Fragile(present, cs[0]) || AnyFragile(present, cs[1..]))
  }

  lemma {:induction false} FragileAppended(present: bool, cs: seq<Client>, ds: seq<Client>)
    ensures AnyFragile(present, cs + ds) <==> AnyFragile(present, cs) || AnyFragile(present, ds)
  {
    hide Fragile;
    if cs == [] {
      assert cs + ds == ds;
    } else {
      assert (cs + ds)[0] == cs[0] && (cs + ds)[1..] == cs[1..] + ds;
      FragileAppended(present, cs[1..], ds);
    }
  }

  lemma {:induction false} FragileAdded(s: Script)
    ensures AnyFragile(true, AddedBy(s)) <==> NullWithin(s)
    decreases s
  {
    match s
    case End =>
    case Add(c, t) =>
      FragileAdded(t);
      assert ([c] + AddedBy(t))[1..] == AddedBy(t);
    case MarkClosing(t) => FragileAdded(t);
    case Remove(t) => FragileAdded(t);
  }

  lemma {:induction false} AddQueues(d: Device, c: Client)
    requires !d.open && d.pending.Waiting?
    ensures var r := AddClient(d, c);
            !r.open && r.present == d.present && r.pending == Waiting(d.pending.clients + if d.present then [c] else [])
    decreases c, 0
  {
    hide TotalSize, RunScript;
    var cs := d.pending.clients;
    assert cs + [] == cs;
    if !d.present && c.cb.Callback? {
      ScriptQueues(d.(added := d.added + multiset{c.id}, calls := d.calls + [Call(c.id, NODEVICE)]), c.cb.script);
    }
  }

  /** While a failed open is reported, a callback queues the clients that it adds behind the others. */
  lemma {:induction false} ScriptQueues(d: Device, s: Script)
    requires !d.open && d.pending.Waiting?
    ensures var r := RunScript(d, s);
            !r.open && r.present == d.present && r.pending == Waiting(d.pending.clients + if d.present then AddedBy(s) else [])
    decreases s, 1
  {
    hide TotalSize, Grows, AddClient;
    var cs := d.pending.clients;
    match s
    case End => assert cs + [] == cs;
    case Add(c, t) =>
      AddQueues(d, c);
      ScriptQueues(AddClient(d, c), t);
      assert cs + [c] + AddedBy(t) == cs + ([c] + AddedBy(t));
      assert cs + [] == cs;
    case MarkClosing(t) => ScriptQueues(d.(closing := true), t);
    case Remove(t) => ScriptQueues(d.(open := false), t);
  }

  /** Reporting a failed open breaks off exactly if it meets a client without a callback, among those waiting or
      among those that their callbacks add. */
  lemma {:induction false} FailedOpenBreaksOff(d: Device, rc: int)
    requires !d.open && d.pending.Waiting? && !d.aborted
    ensures DrainFailed(d, rc).aborted <==> AnyFragile(d.present, d.pending.clients)
    decreases Weight(d.pending)
  {
    hide TotalSize, RunScript, AnyFragile;
    var cs := d.pending.clients;
    FragileUnfold(d.present, cs);
    if cs != [] && cs[0].cb.Callback? {
      var d1 := Shift(d).(calls := d.calls + [Call(cs[0].id, rc)]);
      ScriptQueues(d1, cs[0].cb.script);
      FragileAdded(cs[0].cb.script);
      FragileAppended(d.present, cs[1..], if d.present then AddedBy(cs[0].cb.script) else []);
      FragileUnfold(d.present, []);
      FailedOpenBreaksOff(CallBack(Shift(d), cs[0], rc), rc);
    }
  }

  /** The calls after a failed open: everyone who waits, and everyone whom these add to the end of those who wait, is told why
      it failed, first come first served, up to a client without a callback. */
  ghost function ServedInTurn(present: bool, cs: seq<Client>, rc: int): seq<Call>
    decreases TotalSize(cs)
  {
    hide TotalSize;
    if cs == [] || cs[0].cb.Null? then []
    else
      var added := if present then AddedBy(cs[0].cb.script) else [];
      AddedWeighsLess(cs, added);
      [Call(cs[0].id, rc)] + ServedInTurn(present, cs[1..] + added, rc)
  }

  lemma AddedWeighsLess(cs: seq<Client>, added: seq<Client>)
    requires cs != [] && cs[0].cb.Callback? && (added == AddedBy(cs[0].cb.script) || added == [])
    ensures TotalSize(cs[1..] + added) < TotalSize(cs)
  {
    TotalSizeFirst(cs);
    TotalSizeSum(cs[1..], added);
    AddedSize(cs[0].cb.script);
  }

  lemma {:induction false} TotalSizeSum(cs: seq<Client>, ds: seq<Client>)
    ensures TotalSize(cs + ds) == TotalSize(cs) + TotalSize(ds)
  {
    hide ClientSize;
    if ds == [] {
      assert cs + ds == cs;
    } else {
      var n := |ds| - 1;
      TotalSizeSum(cs, ds[..n]);
      assert (cs + ds)[..|cs + ds| - 1] == cs + ds[..n];
    }
  }

  lemma {:induction false} AddedSize(s: Script)
    ensures TotalSize(AddedBy(s)) <= Size(s)
    decreases s
  {
    match s
    case End =>
    case Add(c, t) =>
      AddedSize(t);
      TotalSizeFirst([c] + AddedBy(t));
      assert ([c] + AddedBy(t))[1..] == AddedBy(t);
    case MarkClosing(t) => AddedSize(t);
    case Remove(t) => AddedSize(t);
  }

  lemma {:induction false} FailureTellsWhy(d: Device, rc: int)
    requires d.present && !d.open && d.pending.Waiting?
    ensures DrainFailed(d, rc).calls == d.calls + ServedInTurn(true, d.pending.clients, rc)
    decreases Weight(d.pending)
  {
    hide TotalSize, RunScript;
    var cs := d.pending.clients;
    if cs == [] || cs[0].cb.Null? {
      assert d.calls + [] == d.calls;
    } else {
      var c, e := cs[0], Shift(d);
      var d1 := e.(calls := d.calls + [Call(c.id, rc)]);
      ScriptQueues(d1, c.cb.script);
      ScriptCallsNobody(d1, c.cb.script);
      FailureTellsWhy(CallBack(e, c, rc), rc);
      var rest := ServedInTurn(true, cs[1..] + AddedBy(c.cb.script), rc);
      assert d.calls + [Call(c.id, rc)] + rest == d.calls + ([Call(c.id, rc)] + rest);
    }
  }

  /** On a device that is there but not open, a callback calls nobody. */
  lemma {:induction false} ScriptCallsNobody(d: Device, s: Script)
    requires d.present && !d.open && d.pending.Waiting?
    ensures RunScript(d, s).calls == d.calls
    decreases s
  {
    hide AddClient, TotalSize;
    match s
    case End =>
    case Add(c, t) =>
      AddQueues(d, c);
      AddAnswers(d, c);
      ScriptCallsNobody(AddClient(d, c), t);
    case MarkClosing(t) => ScriptCallsNobody(d.(closing := true), t);
    case Remove(t) => ScriptCallsNobody(d.(open := false), t);
  }

  lemma FragileUnfold(present: bool, cs: seq<Client>)
    ensures AnyFragile(present, cs) <==> cs != [] && (Fragile(present, cs[0]) || AnyFragile(present, cs[1..]))
  {
  }

  // ----- after a break-off

  /** The device is not open, nobody is opening it, and yet it has an entry of waiting clients. */
  ghost predicate Stuck(d: Device) {
    d.aborted && !d.open && d.opens == 0 && d.pending.Waiting?
  }

  lemma AbortedIsStuck(d: Device, e: Event)
    requires Inv(d) && (d.aborted ==> Stuck(d))
    ensures Step(d, e).aborted ==> Stuck(Step(d, e))
  {
    hide AddClient, DrainOpened, DrainFailed, Conserved;
    match e
    case Added(c) =>
      if d.aborted {
        AddQueues(d, c);
      }
      AddKeepsAborted(d, c);
    case Reported(rc) =>
      if d.opens > 0 {
        assert !d.aborted && !d.open;
        if rc == OK {
          DrainKeepsAborted(d.(opens := d.opens - 1, open := true, closing := false));
        } else {
          DrainKeepsClosed(d.(opens := d.opens - 1), rc);
        }
      }
    case _ =>
  }

  lemma AddKeepsAborted(d: Device, c: Client)
    ensures AddClient(d, c).aborted == d.aborted && (d.pending.Waiting? ==> AddClient(d, c).opens == d.opens)
  {
  }

  lemma {:induction false} DrainKeepsAborted(d: Device)
    requires d.pending.Waiting?
    ensures DrainOpened(d).aborted == d.aborted
    decreases Weight(d.pending)
  {
    hide TotalSize;
    if d.pending.clients != [] {
      DrainKeepsAborted(Opened(Shift(d), d.pending.clients[0]));
    }
  }

  lemma {:induction false} DrainKeepsClosed(d: Device, rc: int)
    requires d.pending.Waiting? && !d.open && !d.aborted
    ensures var r := DrainFailed(d, rc); !r.open && r.opens == d.opens && (r.aborted ==> r.pending.Waiting?)
    decreases Weight(d.pending)
  {
    hide TotalSize;
    if d.pending.clients != [] && d.pending.clients[0].cb.Callback? {
      DrainKeepsClosed(CallBack(Shift(d), d.pending.clients[0], rc), rc);
    }
  }

  lemma {:induction false} RunAborted(es: seq<Event>)
    ensures Run(es).aborted ==> Stuck(Run(es))
  {
    hide Step, Stuck, Inv;
    if es != [] {
      RunAborted(es[..|es| - 1]);
      AbortedIsStuck(Run(es[..|es| - 1]), es[|es| - 1]);
    } else {
      NotAborted();
    }
  }

  lemma NotAborted()
    ensures !Run([]).aborted
  {
  }

  lemma StuckStep(d: Device, e: Event)
    requires Inv(d) && Stuck(d)
    ensures var r := Step(d, e);
            && Stuck(r) && d.pending.clients <= r.pending.clients
            && (e.Added? && d.present ==> e.c in r.pending.clients)
  {
    hide AddClient, Conserved;
    AbortedIsStuck(d, e);
    if e.Added? {
      AddKeepsAborted(d, e.c);
      AddQueues(d, e.c);
    }
  }

  /** Once the calls have been broken off, the device is never opened again, whatever happens; and everyone who waits for it
      then, or asks for it later while it is enumerated, waits for ever. */
  lemma {:induction false} NeverOpenedAgain(es: seq<Event>, later: seq<Event>)
    requires Run(es).aborted
    ensures var d, r := Run(es), Run(es + later);
            && Stuck(d) && Stuck(r) && d.pending.clients <= r.pending.clients
            && forall k :: 0 <= k < |later| && later[k].Added? && Run(es + later[..k]).present ==> later[k].c in r.pending.clients
  {
    hide Step, Stuck, Inv;
    RunAborted(es);
    if later == [] {
      assert es + later == es;
      StuckWaits(Run(es));
    } else {
      var n := |later| - 1;
      NeverOpenedAgain(es, later[..n]);
      assert (es + later)[..|es + later| - 1] == es + later[..n] && (es + later)[|es + later| - 1] == later[n];
      StuckWaits(Run(es + later[..n]));
      StuckStep(Run(es + later[..n]), later[n]);
      StuckWaits(Run(es + later));
      forall k | 0 <= k < |later| && later[k].Added? && Run(es + later[..k]).present
        ensures later[k].c in Run(es + later).pending.clients
      {
        if k < n {
          assert later[..n][k] == later[k] && later[..n][..k] == later[..k];
        }
      }
    }
  }

  lemma StuckWaits(d: Device)
    ensures Stuck(d) ==> d.pending.Waiting?
  {
  }

  /** A run that comes to this: a client without a callback, one with a callback, and an open that fails. */
  lemma NullComesFirst(c: Client)
    requires c.cb.Callback?
    ensures var r := Run([Added(Client(0, Null)), Added(c), Reported(-1)]);
            r.aborted && r.pending.Waiting? && r.pending.clients == [c] && r.calls == []
  {
    hide TotalSize;
    var es := [Added(Client(0, Null)), Added(c), Reported(-1)];
    assert es[..2] == [Added(Client(0, Null)), Added(c)] && es[..2][..1] == [Added(Client(0, Null))];
    assert Run(es[..2][..1]) == Step(Run([]), Added(Client(0, Null)));
    assert Run(es[..2]) == Step(Run(es[..2][..1]), Added(c));
    assert Run(es[..2]).pending.clients == [Client(0, Null), c];
  }
}

/** The entries of one device in the registry, changed by methods that call back while they are at work. */
module GnubbiesObject {
  import opened SharedOpen

  class Gnubbies {
    var inEnumeration: bool
    var openDev: bool
    var closing: bool
    var pendingOpens: Pending
    var opensUnderWay: nat
    ghost var added: multiset<nat>
    ghost var calls: seq<Call>
    var threw: bool

    ghost function State(): Device
      reads this
    {
      Device(inEnumeration, openDev, closing, pendingOpens, opensUnderWay, added, calls, threw)
    }

    constructor ()
      ensures State() == IDLE
    {
      inEnumeration, openDev, closing, pendingOpens, opensUnderWay := true, false, false, Absent, 0;
      added, calls, threw := multiset{}, [], false;
    }

    /** What a callback does before it returns. */
    method RunCallback(s: Script)
      modifies this
      ensures State() == RunScript(old(State()), s)
      decreases s, 1
    {
      match s
      case End =>
      case Add(c, t) =>
        AddClient(c);
        RunCallback(t);
      case MarkClosing(t) =>
        closing := true;
        RunCallback(t);
      case Remove(t) =>
        openDev := false;
        RunCallback(t);
    }

    method CallClient(c: Client, rc: int)
      modifies this
      ensures State() == CallBack(old(State()), c, rc)
      decreases c, 0
    {
      if c.cb.Callback? {
        calls := calls + [Call(c.id, rc)];
        RunCallback(c.cb.script);
      }
    }

    method Opened(c: Client)
      modifies this
      ensures State() == SharedOpen.Opened(old(State()), c)
      decreases c, 1
    {
      if closing {
        CallClient(c, NODEVICE);
      } else {
        CallClient(c, OK);
      }
    }

    method AddClient(c: Client)
      modifies this
      ensures State() == SharedOpen.AddClient(old(State()), c)
      decreases c, 2
    {
      hide CallBack, TotalSize;
      if c.cb.Callback? {
        added := added + multiset{c.id};
      }
      if !inEnumeration {
        CallClient(c, NODEVICE);
        return;
      }
      if openDev {
        Opened(c);
      } else if pendingOpens.Waiting? {
        pendingOpens := Waiting(pendingOpens.clients + [c]);
      } else {
        pendingOpens := Waiting([c]);
        opensUnderWay := opensUnderWay + 1;
      }
    }

    /** `openCb` */
    method OpenReported(rc: int)
      requires opensUnderWay > 0 && pendingOpens.Waiting?
      modifies this
      ensures State() == Step(old(State()), Reported(rc))
    {
      hide DrainOpened, DrainFailed;
      opensUnderWay := opensUnderWay - 1;
      if rc != OK {
        NotifyOpenResult(rc);
        return;
      }
      openDev, closing := true, false;
      DrainPending();
    }

    method DrainPending()
      requires pendingOpens.Waiting?
      modifies this
      ensures State() == DrainOpened(old(State()))
    {
      hide CallBack, TotalSize;
      while pendingOpens.clients != []
        invariant pendingOpens.Waiting? && DrainOpened(State()) == DrainOpened(old(State()))
        decreases Weight(pendingOpens)
      {
        var client := pendingOpens.clients[0];
        ghost var shifted := Shift(State());
        pendingOpens := Waiting(pendingOpens.clients[1..]);
        Opened(client);
      }
      pendingOpens := Absent;
    }

    method NotifyOpenResult(rc: int)
      requires pendingOpens.Waiting?
      modifies this
      ensures State() == DrainFailed(old(State()), rc)
    {
      hide CallBack, TotalSize;
      while pendingOpens.clients != []
        invariant pendingOpens.Waiting? && DrainFailed(State(), rc) == DrainFailed(old(State()), rc)
        decreases Weight(pendingOpens)
      {
        var client := pendingOpens.clients[0];
        ghost var shifted := Shift(State());
        pendingOpens := Waiting(pendingOpens.clients[1..]);
        if client.cb.Null? {
          threw := true;
          return;
        }
        CallClient(client, rc);
      }
      pendingOpens := Absent;
    }
  }
}
