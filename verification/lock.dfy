/** The channel lock that both low-level drivers keep for the device. */
module ChannelLock {
  import opened Words
  import opened Framing

  /** `cid` is 0 when no channel holds the lock.  `live` are the system timers that will free it. */
  datatype Lock = Lock(cid: int32, millis: nat, timer: Option<nat>, live: set<nat>, next: nat)

  const UNLOCKED: Lock := Lock(0, 0, None, {}, 1)

  /** Another channel may only send SYNC and INIT while the lock is held. */
  predicate CheckLock(lock: Lock, cid: int32, cmd: byte) {
    lock.cid == 0 || lock.cid == cid || cmd == CMD_SYNC || cmd == CMD_INIT
  }

  function BusyPacket(cid: int32): Packet { CidBytes(cid) + [CMD_ERROR, 0, 1, 6] }
  function GonePacket(): Packet { [0, 0, 0, 0, CMD_ERROR, 0, 1, 8] }

  function ClearTimer(lock: Lock): Lock {
    if lock.timer.Some? then lock.(timer := None, live := lock.live - {lock.timer.value}) else lock
  }

  function SetTimer(lock: Lock): Lock {
    lock.(timer := Some(lock.next), live := lock.live + {lock.next}, next := lock.next + 1)
  }

  /** `cmd` is the number the driver passes along with a packet: the command for the first one, the sequence
      number, which no byte truncates here, for the others. */
  function UpdateLock(lock: Lock, cid: int32, cmd: nat, arg: byte): Lock {
    if lock.cid != 0 && lock.cid != cid then lock
    else
      var l1 := ClearTimer(lock);
      var l2 := if cmd != CMD_LOCK then l1
                else if arg != 0 then l1.(cid := cid, millis := 1000 * (arg as int) + 100)
                else l1.(cid := 0);
      if l2.cid != 0 then SetTimer(l2) else l2
  }

  /** A system timer of the lock fires. */
  function Expire(lock: Lock, t: nat): Lock {
    if t in lock.live then lock.(timer := None, cid := 0, live := lock.live - {t}) else lock
  }

  /** Exactly one timer is live while the lock is held, none otherwise, so no stale timer can free it. */
  ghost predicate LockInv(lock: Lock) {
    && (lock.cid != 0 <==> lock.timer.Some?)
    && lock.live == (if lock.timer.Some? then {lock.timer.value} else {})
    && forall t :: t in lock.live ==> t < lock.next
  }

  lemma UpdateLockKeepsInv(lock: Lock, cid: int32, cmd: nat, arg: byte)
    requires LockInv(lock)
    ensures LockInv(UpdateLock(lock, cid, cmd, arg))
    ensures lock.cid != 0 ==> UpdateLock(lock, cid, cmd, arg).cid in {0, lock.cid}
  {
  }

  /** A packet of another channel than the holder's changes nothing.  Of the others, only LOCK changes who holds the lock, and
      for how long; and each of them that leaves the lock held gives it a new timer in place of the old one. */
  lemma PacketRenewsLock(lock: Lock, cid: int32, cmd: nat, arg: byte)
    requires LockInv(lock)
    ensures var l := UpdateLock(lock, cid, cmd, arg);
            if lock.cid !in {0, cid} then l == lock
            else
              && l.cid == (if cmd != CMD_LOCK then lock.cid else if arg == 0 then 0 else cid)
              && l.millis == (if cmd == CMD_LOCK && arg != 0 then 1000 * (arg as int) + 100 else lock.millis)
              && (l.cid != 0 ==> l.timer.Some? && l.timer.value !in lock.live && l.live == {l.timer.value})
  {
  }

  /** The lock is freed by its own timer, and by no other. */
  lemma TimerFrees(lock: Lock, t: nat)
    requires LockInv(lock)
    ensures Expire(lock, t).cid == if lock.timer == Some(t) then 0 else lock.cid
  {
  }

  // ----- the packets that drivers make themselves

  /** The answer to a refused command is for its channel alone, and ends any read of it. */
  lemma BusyEndsRead(cid: int32, ph: Phase, cmd: byte)
    requires Running(ph) && !ph.Done?
    ensures Feed(ph, cmd, BusyPacket(cid)) == Done(Reply(-BUSY, None))
    ensures forall c: int32 :: ForChannel(c, BusyPacket(cid)) <==> cid in {0, c}
  {
    hide CidBytes, CidOf;
    CidRoundTrip(cid, BusyPacket(cid));
  }

  /** The last packet of a device is for every channel, and ends any read. */
  lemma GoneEndsRead(ph: Phase, cmd: byte)
    requires Running(ph) && !ph.Done?
    ensures Feed(ph, cmd, GonePacket()) == Done(Reply(-GONE, None))
    ensures forall c: int32 :: ForChannel(c, GonePacket())
  {
  }

  // ----- the packets of one message

  /** How many continuation packets `n` bytes need. */
  function ContCount(n: nat): nat {
    (n + CONT_DATA - 1) / CONT_DATA
  }

  lemma {:induction false} ContCountIsLength(cid: int32, k: nat, data: seq<byte>, pad: byte)
    ensures |ContPackets(cid, k, data, pad)| == ContCount(|data|)
    decreases |data|
  {
    if data != [] {
      ContCountIsLength(cid, k + 1, Rest(data, CONT_DATA), pad);
    }
  }

  /** The lock after `n` continuation packets numbered from `k`. */
  function LockConts(lock: Lock, cid: int32, k: nat, n: nat, arg: byte): Lock
    decreases n
  {
    if n == 0 then lock else LockConts(UpdateLock(lock, cid, k, arg), cid, k + 1, n - 1, arg)
  }

  function LockArg(data: seq<byte>): byte { if data == [] then 0 else data[0] }

  function LockMessage(lock: Lock, cid: int32, cmd: byte, data: seq<byte>): Lock {
    LockConts(UpdateLock(lock, cid, cmd, LockArg(data)), cid, 0, ContCount(|Rest(data, INIT_DATA)|), LockArg(data))
  }

  /** What packet number 132, which is the number of the LOCK command, does to the holder. */
  function HolderAfterConts(holder: int32, cid: int32, k: nat, n: nat, arg: byte): int32 {
    if k <= CMD_LOCK < k + n && (holder == 0 || holder == cid) then if arg != 0 then cid else 0 else holder
  }

  lemma {:induction false} LockContsHolder(lock: Lock, cid: int32, k: nat, n: nat, arg: byte)
    requires LockInv(lock)
    ensures LockInv(LockConts(lock, cid, k, n, arg))
    ensures LockConts(lock, cid, k, n, arg).cid == HolderAfterConts(lock.cid, cid, k, n, arg)
    decreases n
  {
    if n > 0 {
      UpdateLockKeepsInv(lock, cid, k, arg);
      LockContsHolder(UpdateLock(lock, cid, k, arg), cid, k + 1, n - 1, arg);
    }
  }

  /** One message leaves the lock to whom its first packet gave it, exactly if it is not so long that its
      packet number 132 is taken for a LOCK command that would decide otherwise. */
  lemma MessageLocksByItsCommand(lock: Lock, cid: int32, cmd: byte, data: seq<byte>)
    requires LockInv(lock)
    ensures LockInv(LockMessage(lock, cid, cmd, data))
    ensures var first := UpdateLock(lock, cid, cmd, LockArg(data)).cid;
            LockMessage(lock, cid, cmd, data).cid == first
            <==> |data| <= 7845 || first !in {0, cid} || first == if LockArg(data) != 0 then cid else 0
  {
    var l1 := UpdateLock(lock, cid, cmd, LockArg(data));
    UpdateLockKeepsInv(lock, cid, cmd, LockArg(data));
    LockContsHolder(l1, cid, 0, ContCount(|Rest(data, INIT_DATA)|), LockArg(data));
  }

  lemma HolderChangesThroughFree(lock: Lock, cid: int32, cmd: byte, data: seq<byte>)
    requires LockInv(lock) && lock.cid != 0
    ensures LockMessage(lock, cid, cmd, data).cid in {0, lock.cid}
  {
    UpdateLockKeepsInv(lock, cid, cmd, LockArg(data));
    LockContsHolder(UpdateLock(lock, cid, cmd, LockArg(data)), cid, 0, ContCount(|Rest(data, INIT_DATA)|), LockArg(data));
  }

  /** A message too long for the protocol takes a free lock without being a LOCK command. */
  lemma LongMessageTakesLock(lock: Lock, cid: int32, cmd: byte, data: seq<byte>)
    requires LockInv(lock) && lock.cid == 0
    requires cid != 0 && cmd != CMD_LOCK && |data| > 7845 && data[0] != 0
    ensures UpdateLock(lock, cid, cmd, LockArg(data)).cid == 0
    ensures LockMessage(lock, cid, cmd, data).cid == cid
  {
    var first := UpdateLock(lock, cid, cmd, LockArg(data));
    UpdateLockKeepsInv(lock, cid, cmd, LockArg(data));
    LockContsHolder(first, cid, 0, ContCount(|Rest(data, INIT_DATA)|), LockArg(data));
  }
}
