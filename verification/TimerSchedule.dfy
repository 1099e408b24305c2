/**
 The timer queue of TimerQueue.cpp as a state machine over values: the ordered set of timers, the
 expired batch being run, the inserts still waiting in the loop's queue, and the one-shot timerfd.
*/
module TimerSchedule {
  import opened TimerArithmetic

  /** addr is the address of the Timer object, by which the set orders timers that expire together. */
  datatype Timer = Timer(id: nat, addr: nat, interval: int) {
    predicate Repeats() {
      interval > 0
    }
  }

  datatype Entry = Entry(when: int, timer: Timer)

  datatype TimerFd = Disarmed | Armed(alarm: Alarm) | Fired(alarm: Alarm)

  /** A callback that was run: in a batch taken at time at, with the entry's key due. */
  datatype Firing = Firing(timer: Timer, due: int, at: int)

  datatype Phase = Idle | Batch(now: int, expired: seq<Entry>, done: nat)

  datatype Schedule = Schedule(
    timers: seq<Entry>,              // timers_, in the order of the set
    expiration: map<nat, int>,       // expiration_ of every timer ever made
    made: map<nat, Timer>,
    created: nat,                    // s_numCreated_
    inserts: set<Timer>,             // queued by addTimer, insert not yet run
    phase: Phase,
    fd: TimerFd,
    clock: int,
    firings: seq<Firing>
  ) {
    function Expired(): seq<Entry> {
      if phase.Idle? then [] else phase.expired
    }

    function Done(): nat {
      if phase.Idle? then 0 else phase.done
    }
  }

  function Start(): Schedule {
    Schedule([], map[], map[], 0, {}, Idle, Disarmed, 0, [])
  }

  /** The order of the set: by time, then by address. */
  predicate Before(a: Entry, b: Entry) {
    a.when < b.when || (a.when == b.when && a.timer.addr < b.timer.addr)
  }

  function Place(ts: seq<Entry>, e: Entry): (k: nat)
    ensures k <= |ts|
    ensures forall i :: 0 <= i < k ==> !Before(e, ts[i])
    ensures k < |ts| ==> Before(e, ts[k])
  {
    if ts == [] || Before(e, ts[0]) then 0
    else
      var k := Place(ts[1..], e);
      assert forall i :: 0 < i < k + 1 ==> ts[i] == ts[1..][i - 1];
      k + 1
  }

  function Inserted(ts: seq<Entry>, e: Entry): seq<Entry> {
    ts[..Place(ts, e)] + [e] + ts[Place(ts, e)..]
  }

  /** lower_bound of (now, nullptr): how many entries at the front have a key strictly below now. */
  function ExpiredCount(ts: seq<Entry>, now: int): (n: nat)
    ensures n <= |ts|
    ensures forall i :: 0 <= i < n ==> ts[i].when < now
    ensures n < |ts| ==> now <= ts[n].when
  {
    if ts == [] || now <= ts[0].when then 0
    else
      var n := ExpiredCount(ts[1..], now);
      assert forall i :: 0 < i < n + 1 ==> ts[i] == ts[1..][i - 1];
      n + 1
  }

  /** Where cancel's scan stops: at the first entry with that sequence number, or at the end. */
  function Find(ts: seq<Entry>, id: nat): (k: nat)
    ensures k <= |ts|
    ensures forall i :: 0 <= i < k ==> ts[i].timer.id != id
    ensures k < |ts| ==> ts[k].timer.id == id
  {
    if ts == [] || ts[0].timer.id == id then 0
    else
      var k := Find(ts[1..], id);
      assert forall i :: 0 < i < k + 1 ==> ts[i] == ts[1..][i - 1];
      k + 1
  }

  function Cancelled(ts: seq<Entry>, id: nat): seq<Entry> {
    var k := Find(ts, id);
    if k < |ts| then ts[..k] + ts[k + 1..] else ts
  }

  /** insert(): earliest or not decides whether the timerfd is set again. */
  function InsertTimer(s: Schedule, t: Timer, readAt: int, setAt: int): Schedule
    requires t.id in s.expiration
  {
    var e := Entry(s.expiration[t.id], t);
    var earliest := s.timers == [] || e.when < s.timers[0].when;
    var d := s.(timers := Inserted(s.timers, e));
    if earliest then d.(fd := Armed(Alarm(e.when, readAt, setAt)), clock := setAt) else d
  }

  /** One round of the loop of reset(): a repeating timer of the batch is restarted and put back. */
  function BackIn(ts: seq<Entry>, e: Entry, now: int): seq<Entry> {
    if e.timer.Repeats() then Inserted(ts, Entry(now + e.timer.interval, e.timer)) else ts
  }

  function BackOn(expiration: map<nat, int>, e: Entry, now: int): map<nat, int> {
    if e.timer.Repeats() then expiration[e.timer.id := now + e.timer.interval] else expiration
  }

  function Reinserted(ts: seq<Entry>, expired: seq<Entry>, now: int): seq<Entry>
    decreases |expired|
  {
    if expired == [] then ts else Reinserted(BackIn(ts, expired[0], now), expired[1..], now)
  }

  function Restarted(expiration: map<nat, int>, expired: seq<Entry>, now: int): map<nat, int>
    decreases |expired|
  {
    if expired == [] then expiration else Restarted(BackOn(expiration, expired[0], now), expired[1..], now)
  }

  /** reset(): settings made by single inserts are overwritten by the one at the end. */
  function Reset(s: Schedule, readAt: int, setAt: int): Schedule
    requires s.phase.Batch?
  {
    var timers := Reinserted(s.timers, s.phase.expired, s.phase.now);
    var d := s.(timers := timers, expiration := Restarted(s.expiration, s.phase.expired, s.phase.now), phase := Idle);
    if timers == [] then d else d.(fd := Armed(Alarm(timers[0].when, readAt, setAt)), clock := setAt)
  }

  datatype Event =
    | Add(addr: nat, when: int, interval: int)     // addTimer, from any thread
    | Insert(t: Timer, readAt: int, setAt: int)    // its queued functor
    | Cancel(id: nat)                              // cancel's functor, or a call on the loop thread
    | Expire(at: int)                              // the timerfd reaches its deadline
    | HandleRead(now: int)                         // handleRead up to its loop, on a timerfd that has fired
    | RunNext                                      // the next callback of the batch
    | Finish(readAt: int, setAt: int)              // reset, after the last

  /** Every Timer object that still exists has its own address. */
  function Live(s: Schedule): set<Timer> {
    s.inserts + (set e | e in s.timers :: e.timer) + (set e | e in s.Expired() :: e.timer)
  }

  predicate Enabled(s: Schedule, e: Event) {
    match e
    case Add(addr, _, _) => forall t :: t in Live(s) ==> t.addr != addr
    case Insert(t, readAt, setAt) =>
      s.phase.Idle? && t in s.inserts && t.id in s.expiration && s.clock <= readAt <= setAt
    case Cancel(_) => true
    case Expire(at) => s.fd.Armed? && s.clock <= at && s.fd.alarm.Deadline() <= at
    case HandleRead(now) => s.phase.Idle? && s.fd.Fired? && s.clock <= now
    case RunNext => s.phase.Batch? && s.phase.done < |s.phase.expired|
    case Finish(readAt, setAt) => s.phase.Batch? && s.phase.done == |s.phase.expired| && s.clock <= readAt <= setAt
  }

  function Apply(s: Schedule, e: Event): Schedule
    requires Enabled(s, e)
  {
    match e
    case Add(addr, when, interval) =>
      var id := s.created + 1;
      var t := Timer(id, addr, interval);
      s.(created := id, made := s.made[id := t], expiration := s.expiration[id := when], inserts := s.inserts + {t})
    case Insert(t, readAt, setAt) => InsertTimer(s.(inserts := s.inserts - {t}), t, readAt, setAt)
    case Cancel(id) => s.(timers := Cancelled(s.timers, id))
    case Expire(at) => s.(fd := Fired(s.fd.alarm), clock := at)
    case HandleRead(now) =>
      var n := ExpiredCount(s.timers, now);
      s.(timers := s.timers[n..], phase := Batch(now, s.timers[..n], 0),
         fd := Disarmed, clock := now)
    case RunNext =>
      var e := s.phase.expired[s.phase.done];
      s.(phase := s.phase.(done := s.phase.done + 1), firings := s.firings + [Firing(e.timer, e.when, s.phase.now)])
    case Finish(readAt, setAt) => Reset(s, readAt, setAt)
  }

  ghost predicate IsRun(ss: seq<Schedule>, es: seq<Event>) {
    && |ss| == |es| + 1
    && ss[0] == Start()
    && forall i :: 0 <= i < |es| ==> Enabled(ss[i], es[i]) && ss[i + 1] == Apply(ss[i], es[i])
  }
}
