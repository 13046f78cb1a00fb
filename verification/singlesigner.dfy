/** What one device makes of a list of challenges: the signer's loop with its cache of errors, and the plain search
    that it stands for. */
module SignOutcome {
  import opened Words

  const OK: int := 0
  const WRONG_LENGTH: int := 0x6700
  const INVALID_DATA: int := 0x6984
  const WAIT_TOUCH: int := 0x6985
  const WRONG_DATA: int := 0x6a80
  const TIMEOUT: int := -5
  const BUSY: int := -6
  const GONE: int := -8

  /** `version` is empty if the challenge names none. */
  datatype Challenge = Challenge(appIdHash: seq<byte>, keyHandle: seq<byte>, version: string)

  /** `closes`: whoever is told of a success closes the signer at once, as the handler of a sign request does. */
  datatype Config = Config(challenges: seq<Challenge>, forEnroll: bool, closes: bool)

  /** `challenge` is the position of the challenge that was signed, or -1. */
  datatype Result = Result(success: bool, code: int, challenge: int)

  /** What the device answers in the end to an app id hash and a key handle. */
  type Oracle = (seq<byte>, seq<byte>) -> int

  type Cache = map<seq<byte>, int>

  predicate InvalidKeyHandle(code: int) {
    code == WRONG_DATA || code == WRONG_LENGTH || code == INVALID_DATA
  }

  predicate Mismatched(c: Challenge, version: string) {
    c.version != "" && c.version != version
  }

  /** The code that a challenge deserves. */
  function Code(c: Challenge, version: string, ans: Oracle): int {
    if Mismatched(c, version) then WRONG_DATA else ans(c.appIdHash, c.keyHandle)
  }

  /** The code that the signer goes by: errors are cached by the key handle alone. */
  function CodeSeen(c: Challenge, version: string, ans: Oracle, cache: Cache): int {
    if c.keyHandle in cache then cache[c.keyHandle] else Code(c, version, ans)
  }

  function Remember(cache: Cache, c: Challenge, code: int): Cache {
    if InvalidKeyHandle(code) && c.keyHandle !in cache then cache[c.keyHandle := code] else cache
  }

  /** Whether the next challenge is tried after `code` for challenge `i`. */
  predicate GoesOn(cfg: Config, i: nat, code: int) {
    i + 1 < |cfg.challenges| && (InvalidKeyHandle(code) || (!cfg.forEnroll && code != OK))
  }

  function Conclusion(cfg: Config, i: nat, code: int): Result {
    if InvalidKeyHandle(code) then Result(cfg.forEnroll, code, -1)
    else if code == OK && !cfg.forEnroll then Result(true, code, i)
    else Result(false, code, -1)
  }

  function Outcome(cfg: Config, version: string, ans: Oracle, i: nat, cache: Cache): Result
    requires i < |cfg.challenges|
    decreases |cfg.challenges| - i
  {
    var c := cfg.challenges[i];
    var code := CodeSeen(c, version, ans, cache);
    if GoesOn(cfg, i, code) then Outcome(cfg, version, ans, i + 1, Remember(cache, c, code)) else Conclusion(cfg, i, code)
  }

  function Whole(cfg: Config, version: string, ans: Oracle): Result {
    if cfg.challenges == [] then Conclusion(cfg, 0, WRONG_DATA) else Outcome(cfg, version, ans, 0, map[])
  }

  // ----- the plain search

  function CodeAt(cfg: Config, version: string, ans: Oracle, k: nat): int
    requires k < |cfg.challenges|
  {
    Code(cfg.challenges[k], version, ans)
  }

  ghost predicate FirstOk(cfg: Config, version: string, ans: Oracle, k: int) {
    && 0 <= k < |cfg.challenges| && CodeAt(cfg, version, ans, k) == OK
    && forall j :: 0 <= j < k ==> CodeAt(cfg, version, ans, j) != OK
  }

  ghost predicate NoneOk(cfg: Config, version: string, ans: Oracle) {
    forall k :: 0 <= k < |cfg.challenges| ==> CodeAt(cfg, version, ans, k) != OK
  }

  ghost predicate AllInvalid(cfg: Config, version: string, ans: Oracle) {
    forall k :: 0 <= k < |cfg.challenges| ==> InvalidKeyHandle(CodeAt(cfg, version, ans, k))
  }

  /** Signing succeeds at the first challenge answered with OK, enrolling if the device knows none of the challenges. */
  ghost predicate Meets(r: Result, cfg: Config, version: string, ans: Oracle) {
    if cfg.forEnroll then r.success <==> AllInvalid(cfg, version, ans)
    else if r.success then r.code == OK && FirstOk(cfg, version, ans, r.challenge)
    else NoneOk(cfg, version, ans)
  }

  // ----- when the cache does no harm

  ghost predicate FirstWithHandle(cfg: Config, i: nat, j: nat) {
    && i <= j < |cfg.challenges| && cfg.challenges[i].keyHandle == cfg.challenges[j].keyHandle
    && forall k :: 0 <= k < i ==> cfg.challenges[k].keyHandle != cfg.challenges[j].keyHandle
  }

  /** A challenge that this device may answer has the app id of the first challenge with its key handle, and the
      device may answer that one too. */
  ghost predicate HandlesAgree(cfg: Config, version: string) {
    forall i: nat, j: nat :: FirstWithHandle(cfg, i, j) && !Mismatched(cfg.challenges[j], version) ==>
      && !Mismatched(cfg.challenges[i], version)
      && cfg.challenges[i].appIdHash == cfg.challenges[j].appIdHash
  }

  lemma FirstExists(cfg: Config, j: nat) returns (i: nat)
    requires j < |cfg.challenges|
    ensures FirstWithHandle(cfg, i, j)
  {
    i := 0;
    while cfg.challenges[i].keyHandle != cfg.challenges[j].keyHandle
      invariant i <= j && forall k :: 0 <= k < i ==> cfg.challenges[k].keyHandle != cfg.challenges[j].keyHandle
      decreases j - i
    {
      i := i + 1;
    }
  }

  /** The codes before `i` decide nothing yet. */
  ghost predicate Undecided(cfg: Config, code: int) {
    if cfg.forEnroll then InvalidKeyHandle(code) else code != OK
  }

  ghost predicate Harmless(cfg: Config, version: string, ans: Oracle, i: nat, cache: Cache) {
    && (forall h :: h in cache ==> InvalidKeyHandle(cache[h]))
    && (forall k :: 0 <= k < i && k < |cfg.challenges| ==> Undecided(cfg, CodeAt(cfg, version, ans, k)))
    && (forall k :: 0 <= k < |cfg.challenges| && cfg.challenges[k].keyHandle in cache ==> Undecided(cfg, CodeAt(cfg, version, ans, k)))
  }

  lemma StaysHarmless(cfg: Config, version: string, ans: Oracle, i: nat, cache: Cache)
    requires HandlesAgree(cfg, version) && i < |cfg.challenges| && Harmless(cfg, version, ans, i, cache)
    requires Undecided(cfg, CodeAt(cfg, version, ans, i))
    ensures var c := cfg.challenges[i];
            Harmless(cfg, version, ans, i + 1, Remember(cache, c, CodeSeen(c, version, ans, cache)))
  {
    var c := cfg.challenges[i];
    var after := Remember(cache, c, CodeSeen(c, version, ans, cache));
    forall k | 0 <= k < |cfg.challenges| && cfg.challenges[k].keyHandle in after
      ensures Undecided(cfg, CodeAt(cfg, version, ans, k))
    {
      if cfg.challenges[k].keyHandle !in cache && !Mismatched(cfg.challenges[k], version) && k > i {
        var i0 := FirstExists(cfg, k);
        assert CodeAt(cfg, version, ans, k) == CodeAt(cfg, version, ans, i0);
      }
    }
  }

  lemma {:induction false} OutcomeMeets(cfg: Config, version: string, ans: Oracle, i: nat, cache: Cache)
    requires HandlesAgree(cfg, version) && i < |cfg.challenges| && Harmless(cfg, version, ans, i, cache)
    ensures Meets(Outcome(cfg, version, ans, i, cache), cfg, version, ans)
    decreases |cfg.challenges| - i
  {
    hide HandlesAgree;
    var c := cfg.challenges[i];
    var code := CodeSeen(c, version, ans, cache);
    assert c.keyHandle in cache ==> Undecided(cfg, CodeAt(cfg, version, ans, i));
    assert c.keyHandle !in cache ==> code == CodeAt(cfg, version, ans, i);
    if GoesOn(cfg, i, code) {
      StaysHarmless(cfg, version, ans, i, cache);
      OutcomeMeets(cfg, version, ans, i + 1, Remember(cache, c, code));
    }
  }

  /** An oracle that knows only the challenge `j`. */
  function Only(c: Challenge): Oracle {
    (appIdHash, keyHandle) => if appIdHash == c.appIdHash && keyHandle == c.keyHandle then OK else WRONG_DATA
  }

  /** The first challenge with the key handle of `j` was refused, so that `j` and its like are never asked about. */
  ghost predicate Masked(cfg: Config, version: string, i0: nat, j: nat, i: nat, cache: Cache) {
    && FirstWithHandle(cfg, i0, j)
    && InvalidKeyHandle(Code(cfg.challenges[i0], version, Only(cfg.challenges[j])))
    && (forall h :: h in cache ==> InvalidKeyHandle(cache[h]))
    && (i > i0 ==> cfg.challenges[j].keyHandle in cache)
  }

  lemma {:induction false} MaskedOutcome(cfg: Config, version: string, i0: nat, j: nat, i: nat, cache: Cache)
    requires i < |cfg.challenges| && Masked(cfg, version, i0, j, i, cache)
    ensures Outcome(cfg, version, Only(cfg.challenges[j]), i, cache).success == cfg.forEnroll
    decreases |cfg.challenges| - i
  {
    var c, ans := cfg.challenges[i], Only(cfg.challenges[j]);
    var code := CodeSeen(c, version, ans, cache);
    assert InvalidKeyHandle(code);
    if GoesOn(cfg, i, code) {
      MaskedOutcome(cfg, version, i0, j, i + 1, Remember(cache, c, code));
    }
  }

  ghost predicate AlwaysMeets(cfg: Config, version: string) {
    forall ans: Oracle :: Meets(Whole(cfg, version, ans), cfg, version, ans)
  }

  /** The signer does what it is for, whatever the device answers, exactly if the challenges agree on their handles. */
  lemma MeetsIffHandlesAgree(cfg: Config, version: string)
    ensures AlwaysMeets(cfg, version) <==> HandlesAgree(cfg, version)
  {
    hide Outcome;
    if HandlesAgree(cfg, version) {
      forall ans: Oracle
        ensures Meets(Whole(cfg, version, ans), cfg, version, ans)
      {
        if cfg.challenges != [] {
          OutcomeMeets(cfg, version, ans, 0, map[]);
        }
      }
    } else {
      var i: nat, j: nat :| FirstWithHandle(cfg, i, j) && !Mismatched(cfg.challenges[j], version)
                  && (Mismatched(cfg.challenges[i], version) || cfg.challenges[i].appIdHash != cfg.challenges[j].appIdHash);
      var ans := Only(cfg.challenges[j]);
      MaskedOutcome(cfg, version, i, j, 0, map[]);
      assert CodeAt(cfg, version, ans, j) == OK;
      assert !Meets(Whole(cfg, version, ans), cfg, version, ans);
    }
  }

  // ----- the cache changes nothing where equal key handles mean equal challenges

  ghost predicate Consistent(cfg: Config) {
    forall i, j :: 0 <= i < |cfg.challenges| && 0 <= j < |cfg.challenges| && cfg.challenges[i].keyHandle == cfg.challenges[j].keyHandle ==>
      cfg.challenges[i].appIdHash == cfg.challenges[j].appIdHash && cfg.challenges[i].version == cfg.challenges[j].version
  }

  /** The search without a cache. */
  function Search(cfg: Config, version: string, ans: Oracle, i: nat): Result
    requires i < |cfg.challenges|
    decreases |cfg.challenges| - i
  {
    var code := CodeAt(cfg, version, ans, i);
    if GoesOn(cfg, i, code) then Search(cfg, version, ans, i + 1) else Conclusion(cfg, i, code)
  }

  lemma {:induction false} CacheIsTransparent(cfg: Config, version: string, ans: Oracle, i: nat, cache: Cache)
    requires Consistent(cfg) && i < |cfg.challenges|
    requires forall k :: 0 <= k < |cfg.challenges| && cfg.challenges[k].keyHandle in cache ==>
                           cache[cfg.challenges[k].keyHandle] == CodeAt(cfg, version, ans, k)
    ensures Outcome(cfg, version, ans, i, cache) == Search(cfg, version, ans, i)
    decreases |cfg.challenges| - i
  {
    var c := cfg.challenges[i];
    var code := CodeSeen(c, version, ans, cache);
    if GoesOn(cfg, i, code) {
      CacheIsTransparent(cfg, version, ans, i + 1, Remember(cache, c, code));
    }
  }
}

/** The signer as a state machine over the device's replies. */
module SignerStates {
  import opened Words
  import opened SignOutcome

  datatype State = INIT | OPENING | BUSY_OPEN | IDLE | SIGNING | COMPLETE | CLOSING | CLOSED

  /** A reply or timer that is still to come; `SignAt` names the challenge. */
  datatype Wait = Opened | RetryOpen | Version | VersionSync | SignAt(i: nat) | Sync | TouchDelay

  /** `waits` are the replies and timers outstanding.  `results` records the calls of the completion callback, with the
      challenge signed, `asked` counts the signatures asked for, and `threw` is a method call on no device. */
  datatype Signer = Signer(state: State, gnubby: bool, challengesSet: bool, index: nat, cache: Cache, version: string,
                           waits: seq<Wait>, results: seq<Result>, asked: nat, threw: bool)

  const INITIAL: Signer := Signer(INIT, false, false, 0, map[], "", [], [], 0, false)

  function Without(ws: seq<Wait>, w: Wait): (r: seq<Wait>)
    ensures ws == [w] ==> r == []
  {
    if ws == [] then [] else if ws[0] == w then ws[1..] else [ws[0]] + Without(ws[1..], w)
  }

  function Await(s: Signer, w: Wait): (r: Signer)
    ensures s.waits == [] ==> r.waits == [w]
  {
    s.(waits := s.waits + [w])
  }

  /** A command for the device. */
  function Ask(s: Signer, w: Wait): Signer {
    if s.gnubby then Await(s, w) else s.(threw := true)
  }

  predicate ForDevice(w: Wait) {
    w == Version || w == VersionSync || w == Sync || w.SignAt?
  }

  predicate AwaitsDevice(ws: seq<Wait>) {
    exists k :: 0 <= k < |ws| && ForDevice(ws[k])
  }

  // ----- the effect of each method

  /** With a command pending the device closes when its reply comes, otherwise at once.  There is no canceller for the
      open of a device that is not there yet. */
  function Close(s: Signer, commandPending: bool): Signer {
    if !s.gnubby then s
    else if commandPending then s.(state := CLOSING)
    else s.(state := CLOSED, gnubby := false)
  }

  /** A device that refused every challenge of a sign request stays open for the caller. */
  function GoToError(cfg: Config, s: Signer, code: int): Signer {
    var s1 := s.(state := COMPLETE);
    var s2 := if !cfg.forEnroll && code == WRONG_DATA then s1 else Close(s1, false);
    s2.(results := s2.results + [Result(false, code, -1)])
  }

  /** The device belongs to the caller after the callback, which may have closed the signer. */
  function GoToSuccess(cfg: Config, s: Signer, code: int, challenge: int): Signer {
    var s1 := s.(state := COMPLETE, results := s.results + [Result(true, code, challenge)]);
    var s2 := if cfg.closes then Close(s1, false) else s1;
    s2.(gnubby := false)
  }

  /** `expired`: whether the signer's timer has run out. */
  function DoSign(cfg: Config, s: Signer, expired: bool): Signer
    requires s.index <= |cfg.challenges| && CacheInvalid(s.cache)
    decreases |cfg.challenges| - s.index, 1
  {
    if !s.gnubby then s
    else if expired then GoToError(cfg, s, TIMEOUT)
    else if !s.challengesSet then s.(state := IDLE)
    else
      var s1 := s.(state := SIGNING);
      if s.index >= |cfg.challenges| then Decide(cfg, s1, s.index, WRONG_DATA, expired)
      else
        var c := cfg.challenges[s.index];
        if c.keyHandle in s.cache then Decide(cfg, s1, s.index, s.cache[c.keyHandle], expired)
        else if Mismatched(c, s.version) then Decide(cfg, s1, s.index, WRONG_DATA, expired)
        else Await(s1.(asked := s1.asked + 1), SignAt(s.index))
  }

  ghost predicate CacheInvalid(cache: Cache) {
    forall h :: h in cache ==> InvalidKeyHandle(cache[h])
  }

  function Remembered(cfg: Config, s: Signer, i: nat, code: int): Signer {
    if i < |cfg.challenges| then s.(cache := Remember(s.cache, cfg.challenges[i], code)) else s
  }

  /** What a final code for challenge `i` leads to. */
  function Decide(cfg: Config, s: Signer, i: nat, code: int, expired: bool): Signer
    requires s.index <= |cfg.challenges| && CacheInvalid(s.cache)
    decreases |cfg.challenges| - s.index, 0
  {
    var s1 := Remembered(cfg, s, i, code);
    if GoesOn(cfg, s.index, code) then DoSign(cfg, s1.(index := s.index + 1), expired)
    else
      var r := Conclusion(cfg, i, code);
      if r.success then GoToSuccess(cfg, s1, code, r.challenge) else GoToError(cfg, s1, code)
  }

  /** `signCallback_` for the device's reply to challenge `i`. */
  function SignCallback(cfg: Config, s: Signer, i: nat, code: int, expired: bool): Signer
    requires s.index <= |cfg.challenges| && CacheInvalid(s.cache)
  {
    if s.state != SIGNING then s
    else if code == GONE then GoToError(cfg, s, code)
    else if code == TIMEOUT then Ask(s, Sync)
    else if code == BUSY then DoSign(cfg, s, expired)
    else if code == WAIT_TOUCH then Await(s, TouchDelay)
    else Decide(cfg, s, i, code, expired)
  }

  function OpenCallback(cfg: Config, s: Signer, rc: int, gnubby: bool, expired: bool): Signer {
    if s.state != OPENING && s.state != BUSY_OPEN then s
    else if rc == OK then if gnubby then Ask(s.(gnubby := true), Version) else s
    else if rc == BUSY then
      var s1 := s.(gnubby := gnubby, state := BUSY_OPEN);
      if expired then GoToError(cfg, s1, BUSY) else Await(s1, RetryOpen)
    else GoToError(cfg, s, rc)
  }

  function VersionCallback(cfg: Config, s: Signer, rc: int, version: string, expired: bool): Signer
    requires s.index <= |cfg.challenges| && CacheInvalid(s.cache)
  {
    if rc == BUSY then if expired then GoToError(cfg, s, TIMEOUT) else Ask(s, VersionSync)
    else if rc != OK then GoToError(cfg, s, rc)
    else DoSign(cfg, s.(state := IDLE, version := version), expired)
  }

  // ----- runs

  datatype Event =
    | Begin
    | OpenDone(rc: int, gnubby: bool)
    | RetryTimer
    | VersionDone(rc: int, version: string)
    | VersionSynced(rc: int)
    | SignDone(i: nat, code: int)
    | Synced(rc: int)
    | TouchTimer
    | CloseCalled(commandPending: bool)
    | DeviceClosed

  /** The wait that an event ends. */
  function Awaited(e: Event): seq<Wait> {
    match e
    case OpenDone(_, _) => [Opened]
    case RetryTimer => [RetryOpen]
    case VersionDone(_, _) => [Version]
    case VersionSynced(_) => [VersionSync]
    case SignDone(i, _) => [SignAt(i)]
    case Synced(_) => [Sync]
    case TouchTimer => [TouchDelay]
    case _ => []
  }

  /** Only what the signer waits for can arrive; and a device that closes when it is idle tells the signer so before it
      passes on the last reply. */
  predicate Arrives(waits: seq<Wait>, state: State, e: Event) {
    Awaited(e) == [] || (Awaited(e)[0] in waits && !(ForDevice(Awaited(e)[0]) && state == CLOSING))
  }

  /** What comes of a reply or timer, which is not awaited any more. */
  function Reply(cfg: Config, t: Signer, e: Event, expired: bool): Signer
    requires t.index <= |cfg.challenges| && CacheInvalid(t.cache) && Awaited(e) != []
  {
    match e
    case OpenDone(rc, gnubby) => OpenCallback(cfg, t, rc, gnubby, expired)
    case RetryTimer => if t.gnubby then Await(t, Opened) else t
    case VersionDone(rc, version) => VersionCallback(cfg, t, rc, version, expired)
    case VersionSynced(rc) => if rc != OK then GoToError(cfg, t, rc) else Ask(t, Version)
    case SignDone(i, code) => SignCallback(cfg, t, i, code, expired)
    case Synced(rc) => if rc != OK then GoToError(cfg, t, rc) else DoSign(cfg, t, expired)
    case TouchTimer => DoSign(cfg, t, expired)
  }

  function Call(s: Signer, e: Event): Signer
    requires Awaited(e) == []
  {
    match e
    case Begin =>
      if s.challengesSet then s
      else if s.state == INIT then Await(s.(challengesSet := true, state := OPENING), Opened)
      else s.(challengesSet := true)
    case CloseCalled(commandPending) => Close(s, commandPending && AwaitsDevice(s.waits))
    case DeviceClosed => if s.state == CLOSING then s.(gnubby := false, state := CLOSED) else s
  }

  function Step(cfg: Config, s: Signer, e: Event, expired: bool): Signer
    requires s.index <= |cfg.challenges| && CacheInvalid(s.cache)
  {
    if !Arrives(s.waits, s.state, e) then s
    else if Awaited(e) == [] then Call(s, e)
    else Reply(cfg, s.(waits := Without(s.waits, Awaited(e)[0])), e, expired)
  }

  /** One reply or timer at most is outstanding, none after the result, and there is at most one result.  A signer with a
      device waits for something, unless it has reported or an open succeeded without handing out another device. */
  ghost predicate Inv(cfg: Config, s: Signer) {
    && s.index <= |cfg.challenges| && CacheInvalid(s.cache)
    && (s.index > 0 ==> s.index < |cfg.challenges|)
    && |s.results| <= 1 && |s.waits| <= 1
    && (s.results != [] ==> s.waits == [])
    && (s.results == [] && s.waits == [] && s.gnubby ==> s.state == BUSY_OPEN)
    && (s.gnubby || s.waits != [] || s.results != [] ==> s.challengesSet)
    && StateInv(cfg, s.state, s.gnubby, s.index, s.waits)
  }

  ghost predicate StateInv(cfg: Config, state: State, gnubby: bool, index: nat, waits: seq<Wait>) {
    && (state == CLOSED || state == INIT ==> !gnubby)
    && (state == SIGNING ==> gnubby)
    && (state == CLOSING ==> gnubby && waits != [] && ForDevice(waits[0]))
    && (waits != [] ==>
          match waits[0]
          case SignAt(i) => i == index < |cfg.challenges| && (gnubby ==> state == SIGNING || state == CLOSING)
          case Opened => state == OPENING || state == BUSY_OPEN || state == CLOSED
          case RetryOpen => state == BUSY_OPEN || state == CLOSED
          case _ => true)
    && (waits != [] && waits[0] == Opened && state == OPENING ==> !gnubby)
  }

  lemma {:induction false} DoSignReports(cfg: Config, s: Signer, expired: bool)
    requires s.index <= |cfg.challenges| && CacheInvalid(s.cache) && s.results == [] && s.waits == [] && s.challengesSet
    requires s.index > 0 ==> s.index < |cfg.challenges|
    requires s.state == CLOSED || s.state == INIT || s.state == CLOSING ==> !s.gnubby
    requires s.state == SIGNING || s.state == CLOSING ==> s.gnubby
    ensures Inv(cfg, DoSign(cfg, s, expired)) && DoSign(cfg, s, expired).threw == s.threw
    decreases |cfg.challenges| - s.index, 1
  {
    hide Decide;
    if s.gnubby && !expired {
      var s1 := s.(state := SIGNING);
      if s.index >= |cfg.challenges| {
        DecideReports(cfg, s1, WRONG_DATA, expired);
      } else {
        var c := cfg.challenges[s.index];
        if c.keyHandle in s.cache {
          DecideReports(cfg, s1, s.cache[c.keyHandle], expired);
        } else if Mismatched(c, s.version) {
          DecideReports(cfg, s1, WRONG_DATA, expired);
        }
      }
    }
  }

  lemma {:induction false} DecideReports(cfg: Config, s: Signer, code: int, expired: bool)
    requires s.index <= |cfg.challenges| && CacheInvalid(s.cache) && s.results == [] && s.waits == [] && s.challengesSet
    requires s.index > 0 ==> s.index < |cfg.challenges|
    requires s.state == SIGNING && s.gnubby
    ensures Inv(cfg, Decide(cfg, s, s.index, code, expired)) && Decide(cfg, s, s.index, code, expired).threw == s.threw
    decreases |cfg.challenges| - s.index, 0
  {
    hide DoSign;
    var s1 := Remembered(cfg, s, s.index, code);
    if GoesOn(cfg, s.index, code) {
      DoSignReports(cfg, s1.(index := s.index + 1), expired);
    }
  }

  lemma OpenKeepsInv(cfg: Config, s: Signer, rc: int, gnubby: bool, expired: bool)
    requires Inv(cfg, s) && s.waits == [Opened]
    ensures Inv(cfg, OpenCallback(cfg, s.(waits := []), rc, gnubby, expired))
  {
    hide CacheInvalid;
  }

  lemma SignKeepsInv(cfg: Config, s: Signer, i: nat, code: int, expired: bool)
    requires Inv(cfg, s) && s.waits == [SignAt(i)] && s.state != CLOSING
    ensures Inv(cfg, SignCallback(cfg, s.(waits := []), i, code, expired))
  {
    hide DoSign, Decide, CacheInvalid;
    var t := s.(waits := []);
    if s.state == SIGNING {
      DoSignReports(cfg, t, expired);
      DecideReports(cfg, t, code, expired);
    }
  }

  lemma VersionKeepsInv(cfg: Config, s: Signer, rc: int, version: string, expired: bool)
    requires Inv(cfg, s) && s.waits == [Version] && s.state != CLOSING
    ensures Inv(cfg, VersionCallback(cfg, s.(waits := []), rc, version, expired))
  {
    hide DoSign, CacheInvalid;
    DoSignReports(cfg, s.(waits := [], state := IDLE, version := version), expired);
  }

  lemma ErrorKeepsInv(cfg: Config, s: Signer, code: int)
    requires Inv(cfg, s) && s.waits != [] && s.state != CLOSING
    ensures Inv(cfg, GoToError(cfg, s.(waits := []), code))
  {
    hide CacheInvalid;
  }

  lemma StepKeepsInv(cfg: Config, s: Signer, e: Event, expired: bool)
    requires Inv(cfg, s)
    ensures Inv(cfg, Step(cfg, s, e, expired))
  {
    hide DoSign, OpenCallback, SignCallback, VersionCallback, GoToError, CacheInvalid;
    if Arrives(s.waits, s.state, e) && Awaited(e) != [] {
      assert s.waits == [Awaited(e)[0]];
      if e.VersionSynced? || e.Synced? {
        ErrorKeepsInv(cfg, s, e.rc);
      }
      match e
      case OpenDone(rc, gnubby) => OpenKeepsInv(cfg, s, rc, gnubby, expired);
      case VersionDone(rc, version) => VersionKeepsInv(cfg, s, rc, version, expired);
      case SignDone(i, code) => SignKeepsInv(cfg, s, i, code, expired);
      case Synced(rc) => DoSignReports(cfg, s.(waits := []), expired);
      case TouchTimer => DoSignReports(cfg, s.(waits := []), expired);
      case _ =>
    }
  }

  datatype Input = Input(event: Event, expired: bool)

  ghost function RunFrom(cfg: Config, s: Signer, es: seq<Input>): (r: Signer)
    requires Inv(cfg, s)
    ensures Inv(cfg, r)
  {
    hide Inv, Step;
    if es == [] then s
    else
      var t := RunFrom(cfg, s, es[..|es| - 1]);
      StepKeepsInv(cfg, t, es[|es| - 1].event, es[|es| - 1].expired);
      InvGivesIndex(cfg, t);
      Step(cfg, t, es[|es| - 1].event, es[|es| - 1].expired)
  }

  lemma InvGivesIndex(cfg: Config, s: Signer)
    requires Inv(cfg, s)
    ensures s.index <= |cfg.challenges| && CacheInvalid(s.cache)
  {
  }

  lemma InitialInv(cfg: Config)
    ensures Inv(cfg, INITIAL)
  {
  }

  ghost function Run(cfg: Config, es: seq<Input>): (r: Signer)
    ensures Inv(cfg, r)
  {
    InitialInv(cfg);
    RunFrom(cfg, INITIAL, es)
  }

  // ----- closing

  /** Nothing is left that could start another signature. */
  ghost predicate Ended(s: Signer) {
    && s.challengesSet
    && (Opened in s.waits ==> s.state != OPENING && s.state != BUSY_OPEN)
    && (s.gnubby ==> s.state == CLOSING)
  }

  lemma EndedStays(cfg: Config, s: Signer, x: Input)
    requires Inv(cfg, s) && Ended(s)
    ensures Ended(Step(cfg, s, x.event, x.expired)) && Step(cfg, s, x.event, x.expired).asked == s.asked
  {
    hide CacheInvalid, Decide;
  }

  /** In every run from here, no other signature is asked for. */
  ghost predicate AsksNoMore(cfg: Config, s: Signer)
    requires Inv(cfg, s)
  {
    forall es: seq<Input> :: RunFrom(cfg, s, es).asked == s.asked
  }

  lemma {:induction false} EndedAsksNoMore(cfg: Config, s: Signer, es: seq<Input>)
    requires Inv(cfg, s) && Ended(s)
    ensures Ended(RunFrom(cfg, s, es)) && RunFrom(cfg, s, es).asked == s.asked
  {
    hide Inv, Step, Ended;
    if es != [] {
      var n := |es| - 1;
      EndedAsksNoMore(cfg, s, es[..n]);
      InvGivesIndex(cfg, RunFrom(cfg, s, es[..n]));
      EndedStays(cfg, RunFrom(cfg, s, es[..n]), es[n]);
    }
  }

  /** The signer has no device yet, but is going to open one. */
  ghost predicate YetToOpen(s: Signer) {
    !s.gnubby && (!s.challengesSet || (Opened in s.waits && (s.state == OPENING || s.state == BUSY_OPEN)))
  }

  /** A signer without a device takes no notice of being closed. */
  lemma CloseWithoutDevice(cfg: Config, s: Signer, commandPending: bool)
    requires Inv(cfg, s) && !s.gnubby
    ensures Step(cfg, s, CloseCalled(commandPending), false) == s
  {
    hide CacheInvalid;
  }

  /** Closing ends a signer exactly if it has its device already, or will never have one, or has nothing to sign: before
      that the open cannot be cancelled, and a signer that was closed signs as soon as its device is there. */
  lemma CloseIsFinal(cfg: Config, es: seq<Input>, commandPending: bool)
    ensures Inv(cfg, Step(cfg, Run(cfg, es), CloseCalled(commandPending), false))
    ensures AsksNoMore(cfg, Step(cfg, Run(cfg, es), CloseCalled(commandPending), false))
       <==> !YetToOpen(Run(cfg, es)) || cfg.challenges == []
  {
    hide Inv, Step, Ended;
    var s := Run(cfg, es);
    InvGivesIndex(cfg, s);
    StepKeepsInv(cfg, s, CloseCalled(commandPending), false);
    var c := Step(cfg, s, CloseCalled(commandPending), false);
    CloseEnds(cfg, s, commandPending);
    if Ended(c) {
      forall xs: seq<Input>
        ensures RunFrom(cfg, c, xs).asked == c.asked
      {
        EndedAsksNoMore(cfg, c, xs);
      }
    } else if cfg.challenges == [] {
      forall xs: seq<Input>
        ensures RunFrom(cfg, c, xs).asked == c.asked
      {
        NothingToAsk(cfg, c, xs);
      }
    } else {
      RunIsFresh(cfg, es);
      OpensAndAsks(cfg, s);
      CloseWithoutDevice(cfg, s, commandPending);
    }
  }

  lemma {:induction false} NothingToAsk(cfg: Config, s: Signer, es: seq<Input>)
    requires Inv(cfg, s) && cfg.challenges == []
    ensures RunFrom(cfg, s, es).asked == s.asked
  {
    hide Inv, Step;
    if es != [] {
      var n := |es| - 1;
      NothingToAsk(cfg, s, es[..n]);
      InvGivesIndex(cfg, RunFrom(cfg, s, es[..n]));
      NoChallengeAsked(cfg, RunFrom(cfg, s, es[..n]), es[n]);
    }
  }

  lemma NoChallengeAsked(cfg: Config, s: Signer, x: Input)
    requires s.index <= |cfg.challenges| && CacheInvalid(s.cache) && cfg.challenges == []
    ensures Step(cfg, s, x.event, x.expired).asked == s.asked
  {
    hide CacheInvalid, DoSign, Decide, OpenCallback;
    if Arrives(s.waits, s.state, x.event) && Awaited(x.event) != [] {
      var t := s.(waits := Without(s.waits, Awaited(x.event)[0]));
      match x.event
      case OpenDone(rc, gnubby) => OpenAsksForNoSignature(cfg, t, rc, gnubby, x.expired);
      case VersionDone(_, version) => NothingAsked(cfg, t.(state := IDLE, version := version), 0, 0, x.expired);
      case SignDone(i, code) => NothingAsked(cfg, t, i, code, x.expired);
      case Synced(_) => NothingAsked(cfg, t, 0, 0, x.expired);
      case TouchTimer => NothingAsked(cfg, t, 0, 0, x.expired);
      case _ =>
    }
  }

  lemma OpenAsksForNoSignature(cfg: Config, s: Signer, rc: int, gnubby: bool, expired: bool)
    ensures OpenCallback(cfg, s, rc, gnubby, expired).asked == s.asked
  {
  }

  lemma NothingAsked(cfg: Config, s: Signer, i: nat, code: int, expired: bool)
    requires s.index <= |cfg.challenges| && CacheInvalid(s.cache) && cfg.challenges == []
    ensures DoSign(cfg, s, expired).asked == s.asked && Decide(cfg, s, i, code, expired).asked == s.asked
  {
    hide CacheInvalid;
    var s1 := s.(state := SIGNING);
    assert Decide(cfg, s1, s1.index, WRONG_DATA, expired).asked == s1.asked;
  }

  lemma CloseEnds(cfg: Config, s: Signer, commandPending: bool)
    requires Inv(cfg, s)
    ensures Ended(Step(cfg, s, CloseCalled(commandPending), false)) <==> !YetToOpen(s)
  {
    hide CacheInvalid;
  }

  /** A signer that has not opened its device has not tried any challenge. */
  ghost predicate Fresh(s: Signer) {
    && (!s.challengesSet ==> s == INITIAL)
    && (Opened in s.waits || RetryOpen in s.waits ==> s.index == 0 && s.cache == map[])
  }

  lemma {:induction false} DoSignKeepsFresh(cfg: Config, s: Signer, expired: bool)
    requires s.index <= |cfg.challenges| && CacheInvalid(s.cache) && s.challengesSet && s.waits == []
    ensures Fresh(DoSign(cfg, s, expired))
    decreases |cfg.challenges| - s.index, 1
  {
    hide CacheInvalid, Decide;
    var s1 := s.(state := SIGNING);
    if s.index >= |cfg.challenges| {
      DecideKeepsFresh(cfg, s1, WRONG_DATA, expired);
    } else {
      DecideKeepsFresh(cfg, s1, WRONG_DATA, expired);
      if cfg.challenges[s.index].keyHandle in s.cache {
        DecideKeepsFresh(cfg, s1, s.cache[cfg.challenges[s.index].keyHandle], expired);
      }
    }
  }

  lemma {:induction false} DecideKeepsFresh(cfg: Config, s: Signer, code: int, expired: bool)
    requires s.index <= |cfg.challenges| && CacheInvalid(s.cache) && s.challengesSet && s.waits == []
    ensures Fresh(Decide(cfg, s, s.index, code, expired))
    decreases |cfg.challenges| - s.index, 0
  {
    hide DoSign;
    if GoesOn(cfg, s.index, code) {
      DoSignKeepsFresh(cfg, Remembered(cfg, s, s.index, code).(index := s.index + 1), expired);
    }
  }

  lemma OpenKeepsFresh(cfg: Config, s: Signer, rc: int, gnubby: bool, expired: bool)
    requires Fresh(s) && s.challengesSet && s.waits == [Opened]
    ensures Fresh(OpenCallback(cfg, s.(waits := []), rc, gnubby, expired))
  {
  }

  lemma VersionKeepsFresh(cfg: Config, s: Signer, rc: int, version: string, expired: bool)
    requires s.index <= |cfg.challenges| && CacheInvalid(s.cache) && s.challengesSet && s.waits == []
    ensures Fresh(VersionCallback(cfg, s, rc, version, expired))
  {
    hide CacheInvalid, DoSign;
    DoSignKeepsFresh(cfg, s.(state := IDLE, version := version), expired);
  }

  lemma SignKeepsFresh(cfg: Config, s: Signer, i: nat, code: int, expired: bool)
    requires s.index <= |cfg.challenges| && CacheInvalid(s.cache) && s.challengesSet && s.waits == [] && i == s.index
    ensures Fresh(SignCallback(cfg, s, i, code, expired))
  {
    hide CacheInvalid, DoSign, Decide;
    DoSignKeepsFresh(cfg, s, expired);
    DecideKeepsFresh(cfg, s, code, expired);
  }

  lemma StepKeepsFresh(cfg: Config, s: Signer, x: Input)
    requires Inv(cfg, s) && Fresh(s)
    ensures Fresh(Step(cfg, s, x.event, x.expired))
  {
    hide CacheInvalid, DoSign, SignCallback, OpenCallback, VersionCallback;
    if Arrives(s.waits, s.state, x.event) && Awaited(x.event) != [] {
      var t := s.(waits := []);
      assert s.waits == [Awaited(x.event)[0]];
      match x.event
      case OpenDone(rc, gnubby) => OpenKeepsFresh(cfg, s, rc, gnubby, x.expired);
      case VersionDone(rc, version) => VersionKeepsFresh(cfg, t, rc, version, x.expired);
      case SignDone(i, code) => SignKeepsFresh(cfg, t, i, code, x.expired);
      case Synced(_) => DoSignKeepsFresh(cfg, t, x.expired);
      case TouchTimer => DoSignKeepsFresh(cfg, t, x.expired);
      case _ =>
    }
  }

  lemma {:induction false} RunIsFresh(cfg: Config, es: seq<Input>)
    ensures Fresh(Run(cfg, es))
  {
    if es != [] {
      hide Inv, Step, Fresh;
      var n := |es| - 1;
      RunIsFresh(cfg, es[..n]);
      InvGivesIndex(cfg, Run(cfg, es[..n]));
      StepKeepsFresh(cfg, Run(cfg, es[..n]), es[n]);
    }
  }

  lemma RunOne(cfg: Config, s: Signer, x: Input, xs: seq<Input>)
    requires Inv(cfg, s) && Inv(cfg, Step(cfg, s, x.event, x.expired))
    ensures RunFrom(cfg, s, [x] + xs) == RunFrom(cfg, Step(cfg, s, x.event, x.expired), xs)
    decreases |xs|
  {
    hide Inv, Step;
    var es := [x] + xs;
    if xs == [] {
      assert es[..0] == [] && es[0] == x;
    } else {
      var n := |xs| - 1;
      assert es[..|es| - 1] == [x] + xs[..n] && es[|es| - 1] == xs[n];
      RunOne(cfg, s, x, xs[..n]);
    }
  }

  /** The open succeeds, the device has the version of the first challenge, and is asked to sign it. */
  lemma OpensAndAsks(cfg: Config, s: Signer)
    requires Inv(cfg, s) && Fresh(s) && YetToOpen(s) && cfg.challenges != []
    ensures !AsksNoMore(cfg, s)
  {
    if s.challengesSet {
      OpenedAsks(cfg, s);
    } else {
      var begin := Input(Begin, false);
      var t := Step(cfg, INITIAL, Begin, false);
      StepKeepsInv(cfg, s, Begin, false);
      OpenedAsks(cfg, t);
      var xs: seq<Input> :| RunFrom(cfg, t, xs).asked != t.asked;
      RunOne(cfg, s, begin, xs);
      assert RunFrom(cfg, s, [begin] + xs).asked != s.asked;
    }
  }

  lemma OpenedAsks(cfg: Config, s: Signer)
    requires Inv(cfg, s) && Fresh(s) && YetToOpen(s) && s.challengesSet && cfg.challenges != []
    ensures exists xs: seq<Input> :: RunFrom(cfg, s, xs).asked != s.asked
  {
    hide Step, Inv, Fresh, YetToOpen;
    var open := Input(OpenDone(OK, true), false);
    var version := Input(VersionDone(OK, cfg.challenges[0].version), false);
    var s1 := OpenAsksForVersion(cfg, s);
    VersionAsks(cfg, s1);
    InvGivesIndex(cfg, s1);
    var s2 := Step(cfg, s1, version.event, false);
    StepKeepsInv(cfg, s1, version.event, false);
    RunOne(cfg, s, open, [version]);
    RunOne(cfg, s1, version, []);
    assert [version] + [] == [version];
    assert RunFrom(cfg, s2, []) == s2;
    assert RunFrom(cfg, s, [open] + [version]).asked != s.asked;
  }

  lemma OpenAsksForVersion(cfg: Config, s: Signer) returns (t: Signer)
    requires Inv(cfg, s) && Fresh(s) && YetToOpen(s) && s.challengesSet
    ensures t == Step(cfg, s, OpenDone(OK, true), false) && Inv(cfg, t)
    ensures t.waits == [Version] && t.gnubby && t.challengesSet && t.index == 0 && t.cache == map[] && t.asked == s.asked
    ensures t.state != CLOSING
  {
    hide CacheInvalid, DoSign;
    t := Step(cfg, s, OpenDone(OK, true), false);
    StepKeepsInv(cfg, s, OpenDone(OK, true), false);
  }

  lemma VersionAsks(cfg: Config, s: Signer)
    requires Inv(cfg, s) && cfg.challenges != []
    requires s.waits == [Version] && s.gnubby && s.challengesSet && s.index == 0 && s.cache == map[] && s.state != CLOSING
    ensures Step(cfg, s, VersionDone(OK, cfg.challenges[0].version), false).asked == s.asked + 1
  {
    hide Decide;
  }

  /** A method is called on no device exactly when a closed signer is told that the device is busy, or that it is in
      step again, after it has asked for the version. */
  lemma ThrowsWhenClosed(cfg: Config, s: Signer, e: Event, expired: bool)
    requires Inv(cfg, s) && !s.threw
    ensures Step(cfg, s, e, expired).threw
       <==> Arrives(s.waits, s.state, e) && !s.gnubby && ((e.VersionDone? && e.rc == BUSY && !expired) || e == VersionSynced(OK))
  {
    hide CacheInvalid, DoSign, Decide;
    if Arrives(s.waits, s.state, e) && Awaited(e) != [] {
      var t := s.(waits := []);
      assert s.waits == [Awaited(e)[0]];
      match e
      case VersionDone(_, version) => DoSignReports(cfg, t.(state := IDLE, version := version), expired);
      case SignDone(i, code) =>
        if s.state == SIGNING {
          DoSignReports(cfg, t, expired);
          DecideReports(cfg, t, code, expired);
        }
      case Synced(_) => DoSignReports(cfg, t, expired);
      case TouchTimer => DoSignReports(cfg, t, expired);
      case _ =>
    }
  }

  /** A run in which that happens: the signer is closed when the device has said that it is busy, but the signer has not
      been told yet. */
  lemma ClosedThenThrows(cfg: Config)
    ensures var es := [Input(Begin, false), Input(OpenDone(OK, true), false), Input(CloseCalled(false), false), Input(VersionDone(BUSY, ""), false)];
            Run(cfg, es).threw
  {
    var begin, open := Input(Begin, false), Input(OpenDone(OK, true), false);
    var close, version := Input(CloseCalled(false), false), Input(VersionDone(BUSY, ""), false);
    AsksForVersion(cfg);
    hide Inv, Step, INITIAL;
    assert [begin, open] + [close] == [begin, open, close];
    assert [begin, open, close] + [version] == [begin, open, close, version];
    RunMore(cfg, [begin, open], close);
    RunMore(cfg, [begin, open, close], version);
    BusyAfterClose(cfg, Run(cfg, [begin, open]));
  }

  lemma AsksForVersion(cfg: Config)
    ensures var s := Run(cfg, [Input(Begin, false), Input(OpenDone(OK, true), false)]);
            s.waits == [Version] && s.gnubby && s.state == OPENING
  {
    hide Inv, CacheInvalid;
    var begin, open := Input(Begin, false), Input(OpenDone(OK, true), false);
    assert [] + [begin] == [begin] && [begin] + [open] == [begin, open];
    RunMore(cfg, [], begin);
    RunMore(cfg, [begin], open);
  }

  lemma BusyAfterClose(cfg: Config, s: Signer)
    requires Inv(cfg, s) && s.waits == [Version] && s.gnubby && s.state == OPENING
    ensures var t := Step(cfg, s, CloseCalled(false), false);
            Inv(cfg, t) && Step(cfg, t, VersionDone(BUSY, ""), false).threw
  {
    hide CacheInvalid;
    StepKeepsInv(cfg, s, CloseCalled(false), false);
  }

  lemma RunMore(cfg: Config, es: seq<Input>, x: Input)
    ensures Inv(cfg, Run(cfg, es)) && Run(cfg, es + [x]) == Step(cfg, Run(cfg, es), x.event, x.expired)
  {
    hide Inv, Step;
    InvGivesIndex(cfg, Run(cfg, es));
    assert (es + [x])[..|es|] == es;
  }

  // ----- what is reported

  /** Challenge `k` needs no device from challenge `i` on: an error is known for its key handle, or will be by then, because it,
      or one before it with the same key handle, is for another version. */
  ghost predicate Settled(cfg: Config, version: string, cache: Cache, i: nat, k: nat)
    requires k < |cfg.challenges|
  {
    || cfg.challenges[k].keyHandle in cache
    || exists m :: i <= m <= k && cfg.challenges[m].keyHandle == cfg.challenges[k].keyHandle && cfg.challenges[m].version !in {"", version}
  }

  ghost predicate AllSettled(cfg: Config, version: string, cache: Cache, i: nat) {
    forall k :: i <= k < |cfg.challenges| ==> Settled(cfg, version, cache, i, k)
  }

  /** Challenge `j` is the first one that the device has to be asked about. */
  ghost predicate FirstOpen(cfg: Config, version: string, cache: Cache, i: nat, j: nat) {
    && i <= j < |cfg.challenges| && !Settled(cfg, version, cache, i, j)
    && forall k :: i <= k < j ==> Settled(cfg, version, cache, i, k)
  }

  /** The error for the last challenge, when all are settled. */
  ghost function LastError(cfg: Config, cache: Cache): int {
    if cfg.challenges == [] then WRONG_DATA
    else
      var h := cfg.challenges[|cfg.challenges| - 1].keyHandle;
      if h in cache then cache[h] else WRONG_DATA
  }

  /** What `doSign_` comes to on a signer that has its device: time is up; or the device is asked about the first challenge that
      is not settled; or all are refused, which is a success for enrolling and an error for signing. */
  ghost predicate Proceeds(cfg: Config, s: Signer, expired: bool, t: Signer) {
    if expired then t.results == s.results + [Result(false, TIMEOUT, -1)] && t.asked == s.asked && t.waits == s.waits
    else if AllSettled(cfg, s.version, s.cache, s.index) then
      t.results == s.results + [Result(cfg.forEnroll, LastError(cfg, s.cache), -1)] && t.asked == s.asked && t.waits == s.waits
    else
      && t.results == s.results && t.asked == s.asked + 1 && t.waits == s.waits + [SignAt(t.index)]
      && t.gnubby && t.state == SIGNING && FirstOpen(cfg, s.version, s.cache, s.index, t.index)
  }

  lemma {:induction false} DoSignProceeds(cfg: Config, s: Signer, expired: bool)
    requires s.index <= |cfg.challenges| && CacheInvalid(s.cache) && s.gnubby && s.challengesSet
    requires s.index > 0 ==> s.index < |cfg.challenges|
    ensures Proceeds(cfg, s, expired, DoSign(cfg, s, expired))
    decreases |cfg.challenges| - s.index
  {
    hide Settled;
    if !expired {
      if s.index < |cfg.challenges| {
        KnownNow(cfg, s);
        if Settled(cfg, s.version, s.cache, s.index, s.index) {
          SettledProceeds(cfg, s);
        }
      } else {
        hide Remember;
        assert AllSettled(cfg, s.version, s.cache, s.index);
      }
    }
  }

  lemma KnownNow(cfg: Config, s: Signer)
    requires s.index < |cfg.challenges|
    ensures Settled(cfg, s.version, s.cache, s.index, s.index)
       <==> cfg.challenges[s.index].keyHandle in s.cache || Mismatched(cfg.challenges[s.index], s.version)
  {
  }

  /** The code of a settled challenge, for which the device is not asked. */
  ghost function SettledCode(cfg: Config, s: Signer): int
    requires s.index < |cfg.challenges|
  {
    var h := cfg.challenges[s.index].keyHandle;
    if h in s.cache then s.cache[h] else WRONG_DATA
  }

  lemma {:induction false} SettledProceeds(cfg: Config, s: Signer)
    requires s.index < |cfg.challenges| && CacheInvalid(s.cache) && s.gnubby && s.challengesSet
    requires Settled(cfg, s.version, s.cache, s.index, s.index)
    ensures Proceeds(cfg, s, false, DoSign(cfg, s, false))
    decreases |cfg.challenges| - s.index, 0
  {
    hide Settled, Proceeds, FirstOpen;
    KnownNow(cfg, s);
    var code := SettledCode(cfg, s);
    var s1 := Remembered(cfg, s.(state := SIGNING), s.index, code);
    SettledDecides(cfg, s);
    if s.index + 1 < |cfg.challenges| {
      var s2 := s1.(index := s.index + 1);
      DoSignProceeds(cfg, s2, false);
      SettledNext(cfg, s, s2);
      ProceedsNext(cfg, s, s2, DoSign(cfg, s2, false));
    } else {
      LastSettled(cfg, s, DoSign(cfg, s, false));
    }
  }

  /** A settled challenge is decided by its code at once. */
  lemma SettledDecides(cfg: Config, s: Signer)
    requires s.index < |cfg.challenges| && CacheInvalid(s.cache) && s.gnubby && s.challengesSet
    requires cfg.challenges[s.index].keyHandle in s.cache || Mismatched(cfg.challenges[s.index], s.version)
    ensures var code := SettledCode(cfg, s);
            var s1 := Remembered(cfg, s.(state := SIGNING), s.index, code);
            && InvalidKeyHandle(code) && CacheInvalid(s1.cache)
            && (if s.index + 1 < |cfg.challenges| then DoSign(cfg, s, false) == DoSign(cfg, s1.(index := s.index + 1), false)
                else DoSign(cfg, s, false).results == s.results + [Result(cfg.forEnroll, code, -1)]
                     && DoSign(cfg, s, false).asked == s.asked && DoSign(cfg, s, false).waits == s.waits
                     && DoSign(cfg, s, false).cache == s1.cache && DoSign(cfg, s, false).index == s.index
                     && DoSign(cfg, s, false).version == s.version)
  {
    assert DoSign(cfg, s, false) == Decide(cfg, s.(state := SIGNING), s.index, SettledCode(cfg, s), false);
    hide DoSign;
  }

  lemma LastSettled(cfg: Config, s: Signer, t: Signer)
    requires s.index + 1 == |cfg.challenges| && Settled(cfg, s.version, s.cache, s.index, s.index)
    requires t.results == s.results + [Result(cfg.forEnroll, SettledCode(cfg, s), -1)] && t.asked == s.asked && t.waits == s.waits
    ensures Proceeds(cfg, s, false, t)
  {
    hide Settled;
    assert AllSettled(cfg, s.version, s.cache, s.index);
  }

  lemma SettledNext(cfg: Config, s: Signer, t: Signer)
    requires s.index + 1 == t.index < |cfg.challenges| && s.version == t.version
    requires Settled(cfg, s.version, s.cache, s.index, s.index)
    requires t.cache == Remembered(cfg, s, s.index, SettledCode(cfg, s)).cache && InvalidKeyHandle(SettledCode(cfg, s))
    ensures forall k :: t.index <= k < |cfg.challenges| ==>
                (Settled(cfg, t.version, t.cache, t.index, k) <==> Settled(cfg, s.version, s.cache, s.index, k))
    ensures LastError(cfg, t.cache) == LastError(cfg, s.cache)
  {
    KnownNow(cfg, s);
    forall k | t.index <= k < |cfg.challenges|
      ensures Settled(cfg, t.version, t.cache, t.index, k) <==> Settled(cfg, s.version, s.cache, s.index, k)
    {
      StillSettled(cfg, s, t, k);
    }
  }

  lemma StillSettled(cfg: Config, s: Signer, t: Signer, k: nat)
    requires s.index + 1 == t.index <= k < |cfg.challenges| && s.version == t.version
    requires cfg.challenges[s.index].keyHandle in s.cache || Mismatched(cfg.challenges[s.index], s.version)
    requires t.cache == Remembered(cfg, s, s.index, SettledCode(cfg, s)).cache && InvalidKeyHandle(SettledCode(cfg, s))
    ensures Settled(cfg, t.version, t.cache, t.index, k) <==> Settled(cfg, s.version, s.cache, s.index, k)
  {
    var cs := cfg.challenges;
    if cs[k].keyHandle !in s.cache && cs[k].keyHandle in t.cache {
      assert cs[s.index].keyHandle == cs[k].keyHandle && Mismatched(cs[s.index], s.version);
    }
    if m :| s.index <= m <= k && cs[m].keyHandle == cs[k].keyHandle && Mismatched(cs[m], s.version) {
      assert m == s.index ==> cs[k].keyHandle in t.cache;
    }
  }

  lemma ProceedsNext(cfg: Config, s: Signer, s2: Signer, t: Signer)
    requires s.index + 1 == s2.index < |cfg.challenges| && s.version == s2.version
    requires s.results == s2.results && s.asked == s2.asked && s.waits == s2.waits
    requires Settled(cfg, s.version, s.cache, s.index, s.index)
    requires forall k :: s2.index <= k < |cfg.challenges| ==>
                 (Settled(cfg, s2.version, s2.cache, s2.index, k) <==> Settled(cfg, s.version, s.cache, s.index, k))
    requires LastError(cfg, s2.cache) == LastError(cfg, s.cache)
    requires Proceeds(cfg, s2, false, t)
    ensures Proceeds(cfg, s, false, t)
  {
    hide Settled, LastError;
  }

  ghost predicate Fails(s: Signer, code: int) {
    s.results == [Result(false, code, -1)] && s.waits == []
  }

  ghost predicate Silent(s: Signer, waits: seq<Wait>) {
    s.results == [] && s.waits == waits
  }

  /** `Proceeds`, unless the device has been given up. */
  ghost predicate Resumes(cfg: Config, s: Signer, expired: bool, t: Signer) {
    if s.gnubby then Proceeds(cfg, s, expired, t) else t == s
  }

  /** What the device's final reply to challenge `i` leads to. */
  ghost predicate Decides(cfg: Config, s: Signer, i: nat, code: int, expired: bool, t: Signer)
    requires i < |cfg.challenges|
  {
    if code == OK && !cfg.forEnroll then t.results == [Result(true, OK, i)]
    else if i + 1 < |cfg.challenges| && (InvalidKeyHandle(code) || !cfg.forEnroll) then
      Proceeds(cfg, s.(index := i + 1, cache := Remember(s.cache, cfg.challenges[i], code)), expired, t)
    else t.results == [Result(cfg.forEnroll && InvalidKeyHandle(code), code, -1)]
  }

  /** What each reply and timer leads to, for a signer `s` that waits for it no more. */
  ghost predicate Leads(cfg: Config, s: Signer, e: Event, expired: bool, t: Signer)
    requires e.SignDone? && s.state == SIGNING ==> e.i < |cfg.challenges|
  {
    match e
    case OpenDone(rc, gnubby) =>
      if s.state != OPENING && s.state != BUSY_OPEN then t == s
      else if rc == OK then if gnubby then Silent(t, [Version]) && t.gnubby else t == s
      else if rc == BUSY && !expired then Silent(t, [RetryOpen]) && t.gnubby == gnubby && t.state == BUSY_OPEN
      else Fails(t, rc)
    case RetryTimer => Silent(t, if s.gnubby then [Opened] else [])
    case VersionDone(rc, version) =>
      if rc == OK then Resumes(cfg, s.(state := IDLE, version := version), expired, t)
      else if rc == BUSY then if expired then Fails(t, TIMEOUT) else Silent(t, if s.gnubby then [VersionSync] else [])
      else Fails(t, rc)
    case VersionSynced(rc) => if rc == OK then Silent(t, if s.gnubby then [Version] else []) else Fails(t, rc)
    case SignDone(i, code) =>
      if s.state != SIGNING then t == s
      else if code == GONE then Fails(t, GONE)
      else if code == TIMEOUT then Silent(t, [Sync])
      else if code == WAIT_TOUCH then Silent(t, [TouchDelay])
      else if code == BUSY then Proceeds(cfg, s, expired, t)
      else Decides(cfg, s, i, code, expired, t)
    case Synced(rc) => if rc == OK then Resumes(cfg, s, expired, t) else Fails(t, rc)
    case TouchTimer => Resumes(cfg, s, expired, t)
    case _ => true
  }

  /** In any state, disturbed or not, with time or without: what each reply leads to. */
  lemma ReplyLeads(cfg: Config, s: Signer, e: Event, expired: bool)
    requires Inv(cfg, s) && Arrives(s.waits, s.state, e) && Awaited(e) != []
    ensures e.SignDone? && s.state == SIGNING ==> e.i < |cfg.challenges|
    ensures Leads(cfg, s.(waits := []), e, expired, Step(cfg, s, e, expired))
  {
    hide DoSign, Decide, CacheInvalid, Proceeds, OpenCallback;
    var t := s.(waits := []);
    assert s.waits == [Awaited(e)[0]];
    match e
    case OpenDone(rc, gnubby) => OpenLeads(cfg, t, rc, gnubby, expired);
    case VersionDone(rc, version) => ResumesAfter(cfg, t.(state := IDLE, version := version), expired);
    case Synced(_) => ResumesAfter(cfg, t, expired);
    case TouchTimer => ResumesAfter(cfg, t, expired);
    case SignDone(i, code) =>
      if s.state == SIGNING {
        ResumesAfter(cfg, t, expired);
        DecidesAfter(cfg, t, code, expired);
      }
    case _ =>
  }

  lemma OpenLeads(cfg: Config, s: Signer, rc: int, gnubby: bool, expired: bool)
    requires s.results == [] && s.waits == []
    ensures Leads(cfg, s, OpenDone(rc, gnubby), expired, OpenCallback(cfg, s, rc, gnubby, expired))
  {
  }

  lemma ResumesAfter(cfg: Config, s: Signer, expired: bool)
    requires s.index <= |cfg.challenges| && CacheInvalid(s.cache)
    requires (s.index > 0 ==> s.index < |cfg.challenges|) && (s.gnubby ==> s.challengesSet)
    ensures Resumes(cfg, s, expired, DoSign(cfg, s, expired))
  {
    hide Proceeds, CacheInvalid;
    if s.gnubby {
      DoSignProceeds(cfg, s, expired);
    }
  }

  lemma DecidesAfter(cfg: Config, s: Signer, code: int, expired: bool)
    requires s.index < |cfg.challenges| && CacheInvalid(s.cache) && s.gnubby && s.challengesSet && s.results == []
    ensures Decides(cfg, s, s.index, code, expired, Decide(cfg, s, s.index, code, expired))
  {
    hide Proceeds, DoSign;
    if GoesOn(cfg, s.index, code) {
      DoSignProceeds(cfg, Remembered(cfg, s, s.index, code).(index := s.index + 1), expired);
    }
  }

  // ----- successes are earned

  ghost predicate HandleMismatched(cfg: Config, version: string, h: seq<byte>) {
    exists m :: 0 <= m < |cfg.challenges| && cfg.challenges[m].keyHandle == h && cfg.challenges[m].version !in {"", version}
  }

  /** The cache only grows, by handles of challenges for other versions; and it has those of all challenges passed when
      enrolling, up to the last one if none is left. */
  ghost predicate Grows(cfg: Config, s: Signer, t: Signer) {
    && t.version == s.version && s.index <= t.index
    && (forall h :: h in s.cache ==> h in t.cache)
    && (forall h :: h in t.cache ==> h in s.cache || HandleMismatched(cfg, s.version, h))
    && (cfg.forEnroll ==> forall k :: s.index <= k < t.index && k < |cfg.challenges| ==> cfg.challenges[k].keyHandle in t.cache)
    && (|t.results| > |s.results| && t.results[|t.results| - 1].success ==>
          forall k :: s.index <= k < |cfg.challenges| ==> cfg.challenges[k].keyHandle in t.cache)
  }

  lemma {:induction false} DoSignGrows(cfg: Config, s: Signer, expired: bool)
    requires s.index <= |cfg.challenges| && CacheInvalid(s.cache) && (s.gnubby ==> s.challengesSet)
    requires s.index > 0 ==> s.index < |cfg.challenges|
    ensures |DoSign(cfg, s, expired).results| >= |s.results|
    ensures Grows(cfg, s, DoSign(cfg, s, expired))
    decreases |cfg.challenges| - s.index
  {
    if s.gnubby && !expired && s.index < |cfg.challenges| {
      hide Grows, CacheInvalid, Decide;
      KnownNow(cfg, s);
      if Settled(cfg, s.version, s.cache, s.index, s.index) {
        SettledDecides(cfg, s);
        var s1 := Remembered(cfg, s.(state := SIGNING), s.index, SettledCode(cfg, s));
        var t := DoSign(cfg, s, false);
        if s.index + 1 < |cfg.challenges| {
          DoSignGrows(cfg, s1.(index := s.index + 1), false);
        }
        GrowsBy(cfg, s, s1, t);
      } else {
        GrowsNot(cfg, s, DoSign(cfg, s, expired));
      }
    }
  }

  lemma GrowsNot(cfg: Config, s: Signer, t: Signer)
    requires t.version == s.version && t.index == s.index && t.cache == s.cache && t.results == s.results
    ensures Grows(cfg, s, t)
  {
  }

  lemma GrowsBy(cfg: Config, s: Signer, s1: Signer, t: Signer)
    requires s.index < |cfg.challenges| && s1.results == s.results && s1.version == s.version
    requires cfg.challenges[s.index].keyHandle in s.cache || Mismatched(cfg.challenges[s.index], s.version)
    requires InvalidKeyHandle(SettledCode(cfg, s)) && s1.cache == Remembered(cfg, s, s.index, SettledCode(cfg, s)).cache
    requires |t.results| >= |s.results|
    requires if s.index + 1 < |cfg.challenges| then Grows(cfg, s1.(index := s.index + 1), t)
             else t.cache == s1.cache && t.index == s.index && t.version == s.version
    ensures Grows(cfg, s, t)
  {
    assert cfg.challenges[s.index].keyHandle in s1.cache;
    assert Mismatched(cfg.challenges[s.index], s.version) ==> HandleMismatched(cfg, s.version, cfg.challenges[s.index].keyHandle);
  }

  /** `handles` have been added to the cache by the device's own replies. */
  ghost predicate Learns(cfg: Config, s: Signer, t: Signer, handles: set<seq<byte>>) {
    && s.index <= t.index
    && (forall h :: h in s.cache ==> h in t.cache)
    && (forall h :: h in t.cache ==> h in s.cache || h in handles || HandleMismatched(cfg, t.version, h))
    && (cfg.forEnroll ==> forall k :: s.index <= k < t.index && k < |cfg.challenges| ==> cfg.challenges[k].keyHandle in t.cache)
    && (cfg.forEnroll && |t.results| > |s.results| && t.results[|t.results| - 1].success ==>
          forall k :: s.index <= k < |cfg.challenges| ==> cfg.challenges[k].keyHandle in t.cache)
  }

  /** The handle that the device's reply refuses. */
  ghost function RefusedBy(cfg: Config, e: Event): set<seq<byte>> {
    if e.SignDone? && e.i < |cfg.challenges| && InvalidKeyHandle(e.code) then {cfg.challenges[e.i].keyHandle} else {}
  }

  lemma DecideLearns(cfg: Config, s: Signer, code: int, expired: bool)
    requires s.index < |cfg.challenges| && CacheInvalid(s.cache) && s.gnubby && s.challengesSet && s.results == []
    ensures Learns(cfg, s, Decide(cfg, s, s.index, code, expired), RefusedBy(cfg, SignDone(s.index, code)))
    ensures Decide(cfg, s, s.index, code, expired).version == s.version
  {
    hide DoSign;
    if GoesOn(cfg, s.index, code) {
      var s1 := Remembered(cfg, s, s.index, code).(index := s.index + 1);
      DoSignGrows(cfg, s1, expired);
    }
  }

  lemma StepLearns(cfg: Config, s: Signer, e: Event, expired: bool)
    requires Inv(cfg, s)
    ensures var t := Step(cfg, s, e, expired);
            && Learns(cfg, s, t, RefusedBy(cfg, e))
            && (t.version == s.version || e == VersionDone(OK, t.version))
  {
    hide DoSign, OpenCallback, SignCallback, VersionCallback, CacheInvalid, Learns;
    if Arrives(s.waits, s.state, e) && Awaited(e) != [] {
      var u := s.(waits := []);
      assert s.waits == [Awaited(e)[0]];
      match e
      case OpenDone(rc, gnubby) => OpenLearns(cfg, s, rc, gnubby, expired);
      case VersionDone(rc, version) => VersionLearns(cfg, s, rc, version, expired);
      case SignDone(i, code) => SignLearns(cfg, s, i, code, expired);
      case Synced(_) => DoSignLearns(cfg, s, u, expired);
      case TouchTimer => DoSignLearns(cfg, s, u, expired);
      case _ =>
    }
    LearnsNot(cfg, s, Step(cfg, s, e, expired));
  }

  lemma OpenLearns(cfg: Config, s: Signer, rc: int, gnubby: bool, expired: bool)
    ensures var t := OpenCallback(cfg, s.(waits := []), rc, gnubby, expired);
            Learns(cfg, s, t, RefusedBy(cfg, OpenDone(rc, gnubby))) && t.version == s.version
  {
    hide Learns, OpenCallback;
    OpenTriesNothing(cfg, s.(waits := []), rc, gnubby, expired);
    LearnsNot(cfg, s, OpenCallback(cfg, s.(waits := []), rc, gnubby, expired));
  }

  lemma OpenTriesNothing(cfg: Config, s: Signer, rc: int, gnubby: bool, expired: bool)
    ensures var t := OpenCallback(cfg, s, rc, gnubby, expired);
            && t.index == s.index && t.cache == s.cache && t.version == s.version
            && (t.results == s.results || (|t.results| == |s.results| + 1 && t.results[|s.results|] == Result(false, rc, -1) && t.waits == s.waits))
            && (t.waits == s.waits || t.waits == s.waits + [Version] || t.waits == s.waits + [RetryOpen])
  {
    hide GoToError;
    ErrorIsReported(cfg, s, rc);
    ErrorIsReported(cfg, s.(gnubby := gnubby, state := BUSY_OPEN), rc);
  }

  lemma ErrorIsReported(cfg: Config, s: Signer, code: int)
    ensures var t := GoToError(cfg, s, code);
            && t == s.(state := t.state, gnubby := t.gnubby, results := s.results + [Result(false, code, -1)])
            && (if s.gnubby && (cfg.forEnroll || code != WRONG_DATA) then !t.gnubby && t.state == CLOSED
                else t.gnubby == s.gnubby && t.state == COMPLETE)
  {
  }

  lemma SuccessIsReported(cfg: Config, s: Signer, code: int, challenge: int)
    ensures var t := GoToSuccess(cfg, s, code, challenge);
            && t == s.(state := t.state, gnubby := false, results := s.results + [Result(true, code, challenge)])
            && t.state == if cfg.closes && s.gnubby then CLOSED else COMPLETE
  {
  }

  /** A signer that is closed gives up its device, at once if it asks nothing of it; else when the device has closed, and
      until then it learns nothing any more. */
  lemma Closes(cfg: Config, s: Signer, commandPending: bool)
    requires Inv(cfg, s)
    ensures Step(cfg, s, CloseCalled(commandPending), false)
         == if !s.gnubby then s
            else if commandPending && s.waits != [] && ForDevice(s.waits[0]) then s.(state := CLOSING)
            else s.(state := CLOSED, gnubby := false)
    ensures s.state == CLOSING ==> Step(cfg, s, DeviceClosed, false) == s.(state := CLOSED, gnubby := false)
    ensures s.state == CLOSING ==> forall e, expired :: Awaited(e) != [] ==> Step(cfg, s, e, expired) == s
  {
    hide CacheInvalid, Reply;
    if AwaitsDevice(s.waits) {
      var k :| 0 <= k < |s.waits| && ForDevice(s.waits[k]);
    }
  }

  lemma VersionLearns(cfg: Config, s: Signer, rc: int, version: string, expired: bool)
    requires Inv(cfg, s)
    ensures var t := VersionCallback(cfg, s.(waits := []), rc, version, expired);
            Learns(cfg, s, t, RefusedBy(cfg, VersionDone(rc, version))) && (t.version == s.version || (rc == OK && t.version == version))
  {
    hide DoSign, CacheInvalid, Learns;
    DoSignLearns(cfg, s, s.(waits := [], state := IDLE, version := version), expired);
    LearnsNot(cfg, s, VersionCallback(cfg, s.(waits := []), rc, version, expired));
  }

  lemma SignLearns(cfg: Config, s: Signer, i: nat, code: int, expired: bool)
    requires Inv(cfg, s) && s.waits == [SignAt(i)] && s.state != CLOSING
    ensures var t := SignCallback(cfg, s.(waits := []), i, code, expired);
            Learns(cfg, s, t, RefusedBy(cfg, SignDone(i, code))) && t.version == s.version
  {
    hide DoSign, Decide, CacheInvalid, Learns;
    var u := s.(waits := []);
    var t := SignCallback(cfg, u, i, code, expired);
    if s.state == SIGNING {
      DoSignLearns(cfg, s, u, expired);
      DecideLearns(cfg, u, code, expired);
      SameBefore(cfg, s, u, t);
    }
    LearnsNot(cfg, s, t);
  }

  lemma DoSignLearns(cfg: Config, s: Signer, u: Signer, expired: bool)
    requires u.index == s.index && u.cache == s.cache && u.results == s.results
    requires u.index <= |cfg.challenges| && CacheInvalid(u.cache) && (u.gnubby ==> u.challengesSet)
    requires u.index > 0 ==> u.index < |cfg.challenges|
    ensures forall e :: Learns(cfg, s, DoSign(cfg, u, expired), RefusedBy(cfg, e))
    ensures DoSign(cfg, u, expired).version == u.version
  {
    hide DoSign, CacheInvalid;
    DoSignGrows(cfg, u, expired);
  }

  lemma SameBefore(cfg: Config, s: Signer, u: Signer, t: Signer)
    requires u.index == s.index && u.cache == s.cache && u.results == s.results
    ensures forall e :: Learns(cfg, u, t, RefusedBy(cfg, e)) ==> Learns(cfg, s, t, RefusedBy(cfg, e))
  {
  }

  lemma LearnsNot(cfg: Config, s: Signer, t: Signer)
    ensures t.index == s.index && t.cache == s.cache && (|t.results| > |s.results| ==> !t.results[|t.results| - 1].success) ==>
                forall e :: Learns(cfg, s, t, RefusedBy(cfg, e))
  {
  }

  /** The device has refused a challenge with this key handle, or one is for another version than the device said it has. */
  ghost predicate Refused(cfg: Config, es: seq<Input>, h: seq<byte>) {
    || (exists k :: 0 <= k < |es| && h in RefusedBy(cfg, es[k].event))
    || (exists k :: 0 <= k < |es| && es[k].event.VersionDone? && es[k].event.rc == OK && HandleMismatched(cfg, es[k].event.version, h))
  }

  lemma RefusedLater(cfg: Config, es: seq<Input>, h: seq<byte>)
    requires es != [] && Refused(cfg, es[..|es| - 1], h)
    ensures Refused(cfg, es, h)
  {
    hide RefusedBy, HandleMismatched;
    var n := |es| - 1;
    if k :| 0 <= k < n && h in RefusedBy(cfg, es[..n][k].event) {
      assert es[k] == es[..n][k];
    } else {
      var k :| 0 <= k < n && es[..n][k].event.VersionDone? && es[..n][k].event.rc == OK && HandleMismatched(cfg, es[..n][k].event.version, h);
      assert es[k] == es[..n][k];
    }
  }

  /** No challenge has been tried, and none will be after a result. */
  ghost predicate Untried(s: Signer) {
    && s.index == 0 && s.cache == map[] && (s.results != [] ==> !s.results[0].success)
    && forall w :: w in s.waits ==> !w.SignAt? && w != Sync && w != TouchDelay
  }

  ghost predicate VersionTold(es: seq<Input>, version: string) {
    exists k :: 0 <= k < |es| && es[k].event == VersionDone(OK, version)
  }

  lemma UntriedStays(cfg: Config, s: Signer, e: Event, expired: bool)
    requires Inv(cfg, s) && Untried(s) && !(e.VersionDone? && e.rc == OK)
    ensures Untried(Step(cfg, s, e, expired))
  {
    hide DoSign, OpenCallback, SignCallback, VersionCallback, GoToError, CacheInvalid;
    if Arrives(s.waits, s.state, e) && Awaited(e) != [] {
      assert s.waits == [Awaited(e)[0]] && Awaited(e)[0] in s.waits;
      match e
      case OpenDone(rc, gnubby) => OpenUntried(cfg, s, rc, gnubby, expired);
      case VersionDone(rc, version) => VersionUntried(cfg, s, rc, version, expired);
      case VersionSynced(rc) => ErrorIsReported(cfg, s.(waits := []), rc);
      case _ =>
    }
  }

  lemma OpenUntried(cfg: Config, s: Signer, rc: int, gnubby: bool, expired: bool)
    requires Untried(s) && s.results == []
    ensures Untried(OpenCallback(cfg, s.(waits := []), rc, gnubby, expired))
  {
    hide OpenCallback;
    OpenTriesNothing(cfg, s.(waits := []), rc, gnubby, expired);
  }

  lemma VersionUntried(cfg: Config, s: Signer, rc: int, version: string, expired: bool)
    requires Untried(s) && s.results == [] && rc != OK && CacheInvalid(s.cache)
    ensures Untried(VersionCallback(cfg, s.(waits := []), rc, version, expired))
  {
    hide DoSign;
  }

  /** All that the signer has in its cache, it has been told; when enrolling, that is so for all challenges passed. */
  ghost predicate Backed(cfg: Config, es: seq<Input>, s: Signer) {
    && (forall h :: h in s.cache ==> Refused(cfg, es, h))
    && (VersionTold(es, s.version) || Untried(s))
    && (cfg.forEnroll ==> forall k :: 0 <= k < s.index && k < |cfg.challenges| ==> cfg.challenges[k].keyHandle in s.cache)
    && (cfg.forEnroll && s.results != [] && s.results[0].success ==>
          forall k :: 0 <= k < |cfg.challenges| ==> cfg.challenges[k].keyHandle in s.cache)
  }

  lemma {:induction false} RunBacked(cfg: Config, es: seq<Input>)
    ensures Backed(cfg, es, Run(cfg, es))
  {
    hide Inv, Step;
    if es == [] {
      InitialInv(cfg);
      assert Untried(INITIAL);
    } else {
      var n := |es| - 1;
      var s, e := Run(cfg, es[..n]), es[n].event;
      RunBacked(cfg, es[..n]);
      StepLearns(cfg, s, e, es[n].expired);
      InvGivesIndex(cfg, s);
      StaysBacked(cfg, es, s, Step(cfg, s, e, es[n].expired));
    }
  }

  lemma StaysBacked(cfg: Config, es: seq<Input>, s: Signer, t: Signer)
    requires es != [] && Inv(cfg, s) && Backed(cfg, es[..|es| - 1], s)
    requires s.index <= |cfg.challenges| && CacheInvalid(s.cache)
    requires var x := es[|es| - 1];
             t == Step(cfg, s, x.event, x.expired) && Learns(cfg, s, t, RefusedBy(cfg, x.event))
             && (t.version == s.version || x.event == VersionDone(OK, t.version))
    ensures Backed(cfg, es, t)
  {
    hide Step, Inv, Refused, RefusedBy, HandleMismatched, Untried, VersionTold;
    VersionStaysTold(cfg, es, s, t);
    forall h | h in t.cache
      ensures Refused(cfg, es, h)
    {
      if h in s.cache {
        RefusedLater(cfg, es, h);
      } else if h in RefusedBy(cfg, es[|es| - 1].event) {
        RefusedNow(cfg, es, h);
      } else {
        MismatchTold(cfg, es, t, h);
      }
    }
    OneResult(cfg, s, t, es[|es| - 1]);
  }

  lemma VersionStaysTold(cfg: Config, es: seq<Input>, s: Signer, t: Signer)
    requires es != [] && Inv(cfg, s) && s.index <= |cfg.challenges| && CacheInvalid(s.cache)
    requires VersionTold(es[..|es| - 1], s.version) || Untried(s)
    requires var x := es[|es| - 1];
             t == Step(cfg, s, x.event, x.expired) && (t.version == s.version || x.event == VersionDone(OK, t.version))
    ensures VersionTold(es, t.version) || Untried(t)
  {
    hide Step, Inv, Untried;
    var n := |es| - 1;
    if es[n].event == VersionDone(OK, t.version) {
    } else if VersionTold(es[..n], s.version) {
      var k :| 0 <= k < n && es[..n][k].event == VersionDone(OK, s.version);
      assert es[k] == es[..n][k];
    } else {
      if es[n].event.VersionDone? && es[n].event.rc == OK {
        AnotherVersion(cfg, s, es[n]);
      } else {
        UntriedStays(cfg, s, es[n].event, es[n].expired);
      }
    }
  }

  /** A version that is told is kept, if it is waited for. */
  lemma AnotherVersion(cfg: Config, s: Signer, x: Input)
    requires Inv(cfg, s) && Untried(s) && x.event.VersionDone? && x.event.rc == OK
    ensures Step(cfg, s, x.event, x.expired).version == x.event.version || Step(cfg, s, x.event, x.expired) == s
  {
    hide DoSign, CacheInvalid;
    if Version in s.waits && s.state != CLOSING {
      assert s.waits == [Version];
      DoSignLearns(cfg, s, s.(waits := [], state := IDLE, version := x.event.version), x.expired);
    }
  }

  lemma RefusedNow(cfg: Config, es: seq<Input>, h: seq<byte>)
    requires es != [] && h in RefusedBy(cfg, es[|es| - 1].event)
    ensures Refused(cfg, es, h)
  {
  }

  lemma MismatchTold(cfg: Config, es: seq<Input>, t: Signer, h: seq<byte>)
    requires HandleMismatched(cfg, t.version, h) && h in t.cache && (VersionTold(es, t.version) || Untried(t))
    ensures Refused(cfg, es, h)
  {
    hide HandleMismatched, RefusedBy;
    var k :| 0 <= k < |es| && es[k].event == VersionDone(OK, t.version);
  }

  lemma OneResult(cfg: Config, s: Signer, t: Signer, x: Input)
    requires Inv(cfg, s) && t == Step(cfg, s, x.event, x.expired)
    ensures |t.results| <= 1 && (s.results != [] ==> t.results == s.results)
  {
    hide Reply, CacheInvalid;
    StepKeepsInv(cfg, s, x.event, x.expired);
  }

  /** Enrolling succeeds only if every challenge was refused by the device, or shares its key handle with one that was, or with
      one that is for another version than the device said it has; in every run, disturbed or not, with time or without. */
  lemma EnrollSuccessIsEarned(cfg: Config, es: seq<Input>, k: nat)
    requires cfg.forEnroll && k < |cfg.challenges|
    ensures var s := Run(cfg, es);
            s.results != [] && s.results[0].success ==> Refused(cfg, es, cfg.challenges[k].keyHandle)
  {
    hide Refused, Run;
    RunBacked(cfg, es);
  }

  /** Signing succeeds only with a challenge that the device has signed; in every run, disturbed or not. */
  lemma {:induction false} SignSuccessIsEarned(cfg: Config, es: seq<Input>)
    requires !cfg.forEnroll
    ensures var s := Run(cfg, es);
            s.results != [] && s.results[0].success ==>
                && s.results[0].code == OK && 0 <= s.results[0].challenge < |cfg.challenges|
                && exists k :: 0 <= k < |es| && es[k].event == SignDone(s.results[0].challenge, OK)
  {
    hide Inv, Step;
    if es != [] {
      var n := |es| - 1;
      var s := Run(cfg, es[..n]);
      InvGivesIndex(cfg, s);
      SignSuccessIsEarned(cfg, es[..n]);
      OneResult(cfg, s, Run(cfg, es), es[n]);
      if s.results != [] && s.results[0].success {
        var k :| 0 <= k < n && es[..n][k].event == SignDone(s.results[0].challenge, OK);
        assert es[k] == es[..n][k];
      } else if s.results == [] {
        SuccessIsSigned(cfg, s, es[n].event, es[n].expired);
      }
    }
  }

  lemma SuccessIsSigned(cfg: Config, s: Signer, e: Event, expired: bool)
    requires Inv(cfg, s) && !cfg.forEnroll && s.results == []
    ensures var t := Step(cfg, s, e, expired);
            t.results != [] && t.results[0].success ==>
                0 <= t.results[0].challenge < |cfg.challenges| && e == SignDone(t.results[0].challenge, OK) && t.results[0].code == OK
  {
    hide Reply, CacheInvalid, AllSettled;
    if Arrives(s.waits, s.state, e) && Awaited(e) != [] {
      ReplyLeads(cfg, s, e, expired);
    }
  }

  // ----- undisturbed runs

  predicate Transient(code: int) { code == BUSY || code == TIMEOUT || code == WAIT_TOUCH }

  /** The device's final answers are final, and it is there to give them. */
  ghost predicate Final(ans: Oracle) {
    forall a, k :: !Transient(ans(a, k)) && ans(a, k) != GONE
  }

  /** The device may be busy, want to be touched or time out as often as it likes, but it has version `version`, does
      not go away, gives the answers of the oracle in the end, and nobody closes the signer or lets its time run out. */
  ghost predicate Undisturbed(cfg: Config, version: string, ans: Oracle, s: Signer, x: Input)
    requires Inv(cfg, s)
  {
    !x.expired &&
    match x.event
    case Begin => true
    case OpenDone(rc, gnubby) => (rc == OK || rc == BUSY) && gnubby
    case RetryTimer => true
    case VersionDone(rc, v) => rc == BUSY || (rc == OK && v == version)
    case VersionSynced(rc) => rc == OK
    case SignDone(i, code) =>
      SignAt(i) in s.waits ==> Transient(code) || code == ans(cfg.challenges[s.index].appIdHash, cfg.challenges[s.index].keyHandle)
    case Synced(rc) => rc == OK
    case TouchTimer => true
    case CloseCalled(_) => false
    case DeviceClosed => true
  }

  /** Opening the device. */
  ghost predicate Opening(s: Signer) {
    && s.index == 0 && s.cache == map[] && s.results == []
    && if s.waits == [] then s == INITIAL
       else
         && s.challengesSet && |s.waits| == 1 && (s.state == OPENING || s.state == BUSY_OPEN)
         && match s.waits[0]
            case Opened => true
            case RetryOpen => s.state == BUSY_OPEN && s.gnubby
            case Version => s.gnubby
            case VersionSync => s.gnubby
            case _ => false
  }

  /** About to try the current challenge, with the outcome of the whole search still ahead. */
  ghost predicate Ahead(cfg: Config, version: string, ans: Oracle, s: Signer) {
    && s.gnubby && s.challengesSet && s.version == version && s.results == [] && CacheInvalid(s.cache)
    && if s.index < |cfg.challenges| then Outcome(cfg, version, ans, s.index, s.cache) == Whole(cfg, version, ans)
       else s.index == 0 && cfg.challenges == []
  }

  /** Waiting for the device to deal with the current challenge. */
  ghost predicate Signing(cfg: Config, version: string, ans: Oracle, s: Signer) {
    && Ahead(cfg, version, ans, s) && s.state == SIGNING && s.index < |cfg.challenges|
    && cfg.challenges[s.index].keyHandle !in s.cache && !Mismatched(cfg.challenges[s.index], version)
    && (s.waits == [SignAt(s.index)] || s.waits == [Sync] || s.waits == [TouchDelay])
  }

  ghost predicate OnTrack(cfg: Config, version: string, ans: Oracle, s: Signer) {
    Opening(s) || Signing(cfg, version, ans, s) || (s.results == [Whole(cfg, version, ans)] && s.waits == [] && s.challengesSet)
  }

  lemma {:induction false} DoSignOnTrack(cfg: Config, version: string, ans: Oracle, s: Signer)
    requires Ahead(cfg, version, ans, s) && s.waits == []
    ensures OnTrack(cfg, version, ans, DoSign(cfg, s, false))
    decreases |cfg.challenges| - s.index, 1
  {
    hide Decide, Whole, Outcome;
    var s1 := s.(state := SIGNING);
    if s.index >= |cfg.challenges| {
      NoChallenges(cfg, version, ans, s1);
    } else {
      var c := cfg.challenges[s.index];
      if c.keyHandle in s.cache || Mismatched(c, s.version) {
        DecideOnTrack(cfg, version, ans, s1);
      }
    }
  }

  lemma NoChallenges(cfg: Config, version: string, ans: Oracle, s: Signer)
    requires Ahead(cfg, version, ans, s) && s.waits == [] && cfg.challenges == []
    ensures Decide(cfg, s, s.index, WRONG_DATA, false).results == [Whole(cfg, version, ans)]
    ensures Decide(cfg, s, s.index, WRONG_DATA, false).waits == [] && Decide(cfg, s, s.index, WRONG_DATA, false).challengesSet
  {
  }

  lemma {:induction false} DecideOnTrack(cfg: Config, version: string, ans: Oracle, s: Signer)
    requires Ahead(cfg, version, ans, s) && s.waits == [] && s.index < |cfg.challenges|
    ensures OnTrack(cfg, version, ans, Decide(cfg, s, s.index, CodeSeen(cfg.challenges[s.index], version, ans, s.cache), false))
    decreases |cfg.challenges| - s.index, 0
  {
    hide DoSign, Whole, Opening, Signing;
    var code := CodeSeen(cfg.challenges[s.index], version, ans, s.cache);
    if GoesOn(cfg, s.index, code) {
      var next := Remembered(cfg, s, s.index, code).(index := s.index + 1);
      assert Ahead(cfg, version, ans, next);
      DoSignOnTrack(cfg, version, ans, next);
    }
  }

  lemma OpenOnTrack(cfg: Config, version: string, ans: Oracle, s: Signer, rc: int)
    requires Opening(s) && s.waits == [Opened] && (rc == OK || rc == BUSY)
    ensures Opening(OpenCallback(cfg, s.(waits := []), rc, true, false))
  {
  }

  lemma VersionOnTrack(cfg: Config, version: string, ans: Oracle, s: Signer, rc: int, v: string)
    requires Inv(cfg, s) && Opening(s) && s.waits == [Version] && (rc == BUSY || (rc == OK && v == version))
    ensures OnTrack(cfg, version, ans, VersionCallback(cfg, s.(waits := []), rc, v, false))
  {
    hide DoSign, Outcome, Whole, Signing;
    var t := s.(waits := [], state := IDLE, version := version);
    if rc == OK {
      StartsAhead(cfg, version, ans, t);
      DoSignOnTrack(cfg, version, ans, t);
    }
  }

  lemma SignOnTrack(cfg: Config, version: string, ans: Oracle, s: Signer, code: int)
    requires Inv(cfg, s) && Signing(cfg, version, ans, s) && s.waits == [SignAt(s.index)] && Final(ans)
    requires Transient(code) || code == ans(cfg.challenges[s.index].appIdHash, cfg.challenges[s.index].keyHandle)
    ensures OnTrack(cfg, version, ans, SignCallback(cfg, s.(waits := []), s.index, code, false))
  {
    hide DoSign, Decide, Outcome, Whole, CacheInvalid;
    var t := s.(waits := []);
    if Transient(code) {
      DoSignOnTrack(cfg, version, ans, t);
    } else {
      DecideOnTrack(cfg, version, ans, t);
    }
  }

  lemma StepOnTrack(cfg: Config, version: string, ans: Oracle, s: Signer, x: Input)
    requires Inv(cfg, s) && OnTrack(cfg, version, ans, s) && Undisturbed(cfg, version, ans, s, x) && Final(ans)
    ensures OnTrack(cfg, version, ans, Step(cfg, s, x.event, x.expired))
  {
    hide DoSign, SignCallback, OpenCallback, VersionCallback, Outcome, Whole, CacheInvalid;
    if Arrives(s.waits, s.state, x.event) && Awaited(x.event) != [] {
      var t := s.(waits := []);
      assert s.waits == [Awaited(x.event)[0]];
      match x.event
      case OpenDone(rc, _) => OpenOnTrack(cfg, version, ans, s, rc);
      case VersionDone(rc, v) => VersionOnTrack(cfg, version, ans, s, rc, v);
      case SignDone(i, code) => SignOnTrack(cfg, version, ans, s, code);
      case Synced(rc) => DoSignOnTrack(cfg, version, ans, t);
      case TouchTimer => DoSignOnTrack(cfg, version, ans, t);
      case _ =>
    }
  }

  lemma StartsAhead(cfg: Config, version: string, ans: Oracle, s: Signer)
    requires s.index == 0 && s.cache == map[] && s.gnubby && s.challengesSet && s.version == version && s.results == []
    ensures Ahead(cfg, version, ans, s)
  {
  }

  ghost predicate AllUndisturbed(cfg: Config, version: string, ans: Oracle, es: seq<Input>) {
    es == [] || (AllUndisturbed(cfg, version, ans, es[..|es| - 1])
                 && Undisturbed(cfg, version, ans, Run(cfg, es[..|es| - 1]), es[|es| - 1]))
  }

  /** In every undisturbed run, whatever retries, waits and cache hits it takes, the signer reports the outcome of
      its search or still waits for the device; if the challenges agree on their key handles, the outcome is what
      signing and enrolling are for. */
  lemma {:induction false} RunOutcome(cfg: Config, version: string, ans: Oracle, es: seq<Input>)
    requires Final(ans) && AllUndisturbed(cfg, version, ans, es)
    ensures var s := Run(cfg, es);
            && OnTrack(cfg, version, ans, s)
            && (s.results != [] ==> s.results == [Whole(cfg, version, ans)])
            && (s.challengesSet && s.waits == [] ==> s.results != [])
            && (s.results != [] && HandlesAgree(cfg, version) ==> Meets(s.results[0], cfg, version, ans))
  {
    hide Step, Inv, Undisturbed, Whole, HandlesAgree, Meets, Final;
    if es != [] {
      var n := |es| - 1;
      RunOutcome(cfg, version, ans, es[..n]);
      StepOnTrack(cfg, version, ans, Run(cfg, es[..n]), es[n]);
    }
    MeetsIffHandlesAgree(cfg, version);
  }
}

/** The signer as an object. */
module SingleSigner {
  import opened Words
  import opened SignOutcome
  import opened SignerStates

  class SingleGnubbySigner {
    const challenges: seq<Challenge>
    const forEnroll: bool
    const closes: bool
    var state: State
    var gnubby: bool
    var challengesSet: bool
    var challengeIndex: nat
    var cachedError: Cache
    var version: string
    var waits: seq<Wait>
    ghost var results: seq<Result>
    ghost var asked: nat
    var threw: bool

    ghost function Value(): Signer
      reads this
    {
      Signer(state, gnubby, challengesSet, challengeIndex, cachedError, version, waits, results, asked, threw)
    }

    function Setup(): Config {
      Config(challenges, forEnroll, closes)
    }

    ghost predicate Valid()
      reads this
    {
      challengeIndex <= |challenges| && CacheInvalid(cachedError)
    }

    /** The challenges are those that `doSign` will add. */
    constructor (challenges: seq<Challenge>, forEnroll: bool, closes: bool)
      ensures Valid() && Value() == INITIAL && Setup() == Config(challenges, forEnroll, closes)
    {
      this.challenges, this.forEnroll, this.closes := challenges, forEnroll, closes;
      state, gnubby, challengesSet, challengeIndex, cachedError := INIT, false, false, 0, map[];
      version, waits, results, asked, threw := "", [], [], 0, false;
    }

    /** With a command pending, the device calls `closed_` when it is idle. */
    method Close(commandPending: bool)
      modifies `state, `gnubby
      ensures Value() == SignerStates.Close(old(Value()), commandPending)
    {
      if !gnubby {
        return;
      }
      state := CLOSING;
      if !commandPending {
        Closed();
      }
    }

    method Closed()
      modifies `state, `gnubby
      ensures Value() == old(Value()).(state := CLOSED, gnubby := false)
    {
      gnubby := false;
      state := CLOSED;
    }

    /** Calls a method of the device. */
    method Ask(w: Wait)
      modifies `waits, `threw
      ensures Value() == SignerStates.Ask(old(Value()), w)
    {
      if gnubby {
        waits := waits + [w];
      } else {
        threw := true;
      }
    }

    method GoToError(code: int)
      modifies `state, `results, `gnubby
      ensures Value() == SignerStates.GoToError(Setup(), old(Value()), code)
    {
      state := COMPLETE;
      if forEnroll || code != WRONG_DATA {
        Close(false);
      }
      results := results + [Result(false, code, -1)];
    }

    method GoToSuccess(code: int, ghost challenge: int)
      modifies `state, `results, `gnubby
      ensures Value() == SignerStates.GoToSuccess(Setup(), old(Value()), code, challenge)
    {
      state := COMPLETE;
      results := results + [Result(true, code, challenge)];
      if closes {
        Close(false);
      }
      gnubby := false;
    }

    /** `doSign_`: codes that need no device are decided at once, which may try the next challenge. */
    method DoSign(expired: bool)
      requires Valid()
      modifies this
      ensures Valid() && Value() == SignerStates.DoSign(Setup(), old(Value()), expired)
      decreases |challenges| - challengeIndex, 1
    {
      hide SignerStates.Decide;
      if !gnubby {
        return;
      }
      if expired {
        GoToError(TIMEOUT);
        return;
      }
      if !challengesSet {
        state := IDLE;
        return;
      }
      state := SIGNING;
      if challengeIndex >= |challenges| {
        Decide(challengeIndex, WRONG_DATA, expired);
        return;
      }
      var challenge := challenges[challengeIndex];
      if challenge.keyHandle in cachedError {
        Decide(challengeIndex, cachedError[challenge.keyHandle], expired);
      } else if challenge.version != "" && challenge.version != version {
        Decide(challengeIndex, WRONG_DATA, expired);
      } else {
        asked := asked + 1;
        waits := waits + [SignAt(challengeIndex)];
      }
    }

    method CacheError(i: nat, code: int)
      requires Valid()
      modifies `cachedError
      ensures Valid() && Value() == Remembered(Setup(), old(Value()), i, code)
    {
      if InvalidKeyHandle(code) {
        if i < |challenges| {
          var challenge := challenges[i];
          if challenge.keyHandle !in cachedError {
            cachedError := cachedError[challenge.keyHandle := code];
          }
        }
      }
    }

    /** `signCallback_` for the codes that do not make it wait. */
    method Decide(i: nat, code: int, expired: bool)
      requires Valid()
      modifies this
      ensures Valid() && Value() == SignerStates.Decide(Setup(), old(Value()), i, code, expired)
      decreases |challenges| - challengeIndex, 0
    {
      hide SignerStates.DoSign, Remember, CacheInvalid;
      CacheError(i, code);
      if code == OK {
        if forEnroll {
          GoToError(code);
        } else {
          GoToSuccess(code, i);
        }
      } else if InvalidKeyHandle(code) {
        if challengeIndex + 1 < |challenges| {
          challengeIndex := challengeIndex + 1;
          DoSign(expired);
        } else if forEnroll {
          GoToSuccess(code, -1);
        } else {
          GoToError(code);
        }
      } else if forEnroll {
        GoToError(code);
      } else if challengeIndex + 1 < |challenges| {
        challengeIndex := challengeIndex + 1;
        DoSign(expired);
      } else {
        GoToError(code);
      }
    }

    method SignCallback(i: nat, code: int, expired: bool)
      requires Valid()
      modifies this
      ensures Valid() && Value() == SignerStates.SignCallback(Setup(), old(Value()), i, code, expired)
    {
      hide SignerStates.DoSign, SignerStates.Decide, CacheInvalid;
      if state != SIGNING {
        return;
      }
      if code == GONE {
        GoToError(code);
      } else if code == TIMEOUT {
        Ask(Sync);
      } else if code == BUSY {
        DoSign(expired);
      } else if code == WAIT_TOUCH {
        waits := waits + [TouchDelay];
      } else {
        Decide(i, code, expired);
      }
    }

    method OpenCallback(rc: int, hasGnubby: bool, expired: bool)
      requires Valid()
      modifies this
      ensures Valid() && Value() == SignerStates.OpenCallback(Setup(), old(Value()), rc, hasGnubby, expired)
    {
      hide CacheInvalid;
      if state != OPENING && state != BUSY_OPEN {
        return;
      }
      if rc == OK {
        if hasGnubby {
          gnubby := true;
          Ask(Version);
        }
      } else if rc == BUSY {
        gnubby, state := hasGnubby, BUSY_OPEN;
        if !expired {
          waits := waits + [RetryOpen];
        } else {
          GoToError(BUSY);
        }
      } else {
        GoToError(rc);
      }
    }

    method VersionCallback(rc: int, data: string, expired: bool)
      requires Valid()
      modifies this
      ensures Valid() && Value() == SignerStates.VersionCallback(Setup(), old(Value()), rc, data, expired)
    {
      hide SignerStates.DoSign, CacheInvalid;
      if rc == BUSY {
        if expired {
          GoToError(TIMEOUT);
          return;
        }
        Ask(VersionSync);
        return;
      }
      if rc != OK {
        GoToError(rc);
        return;
      }
      state, version := IDLE, data;
      DoSign(expired);
    }

    /** What the signer waits for has come, or its owner does something; `x` is ignored otherwise. */
    method Handle(x: Input)
      requires Valid()
      modifies this
      ensures Valid() && Value() == Step(Setup(), old(Value()), x.event, x.expired)
    {
      hide SignerStates.DoSign, SignerStates.SignCallback, SignerStates.OpenCallback, SignerStates.VersionCallback, CacheInvalid;
      if !Arrives(waits, state, x.event) {
        return;
      }
      if |Awaited(x.event)| != 0 {
        waits := Without(waits, Awaited(x.event)[0]);
        HandleReply(x);
      } else {
        HandleCall(x.event);
      }
    }

    method HandleReply(x: Input)
      requires Valid() && Awaited(x.event) != []
      modifies this
      ensures Valid() && Value() == Reply(Setup(), old(Value()), x.event, x.expired)
    {
      hide SignerStates.DoSign, SignerStates.SignCallback, SignerStates.OpenCallback, SignerStates.VersionCallback, CacheInvalid;
      match x.event
      case OpenDone(rc, g) => OpenCallback(rc, g, x.expired);
      case RetryTimer =>
        if gnubby {
          waits := waits + [Opened];
        }
      case VersionDone(rc, v) => VersionCallback(rc, v, x.expired);
      case VersionSynced(rc) =>
        if rc != OK {
          GoToError(rc);
        } else {
          Ask(Version);
        }
      case SignDone(i, code) => SignCallback(i, code, x.expired);
      case Synced(rc) =>
        if rc != OK {
          GoToError(rc);
        } else {
          DoSign(x.expired);
        }
      case TouchTimer => DoSign(x.expired);
    }

    method HandleCall(e: Event)
      requires Valid() && Awaited(e) == []
      modifies this
      ensures Valid() && Value() == Call(old(Value()), e)
    {
      hide CacheInvalid;
      match e
      case Begin =>
        if !challengesSet {
          challengesSet := true;
          if state == INIT {
            state := OPENING;
            waits := waits + [Opened];
          }
        }
      case CloseCalled(commandPending) => Close(commandPending && AwaitsDevice(waits));
      case DeviceClosed =>
        if state == CLOSING {
          Closed();
        }
    }
  }
}
