/** The timer of Timer.h and Timer.cpp and the queue of TimerQueue.cpp, over objects that change in place. */
module TimerQueues {
  import opened TimerArithmetic
  import opened TimerSchedule
  import opened TimerInvariant
  import opened TimerRuns

  /** The steady clock: reading it never goes back. */
  class Clock {
    var now: int

    constructor ()
      ensures now == 0
    {
      now := 0;
    }

    method Read() returns (t: int)
      modifies this
      ensures old(now) <= now == t
    {
      var passed :| 0 <= passed;
      now := now + passed;
      t := now;
    }
  }

  class Timer {
    const id: nat
    const addr: nat
    const interval: int
    const repeat: bool
    var expiration: int

    constructor (id: nat, addr: nat, when: int, interval: int)
      ensures this.id == id && this.addr == addr && this.interval == interval && this.repeat == (interval > 0)
      ensures expiration == when
    {
      this.id, this.addr, this.interval, this.repeat := id, addr, interval, interval > 0;
      expiration := when;
    }

    function Info(): TimerSchedule.Timer {
      TimerSchedule.Timer(id, addr, interval)
    }

    method Restart(now: int)
      modifies this`expiration
      ensures expiration == if repeat then now + interval else 0
    {
      if repeat {
        expiration := now + interval;
      } else {
        expiration := 0;
      }
    }
  }

  datatype Slot = Slot(when: int, timer: Timer)

  function Entries(slots: seq<Slot>): (es: seq<Entry>)
    ensures |es| == |slots|
    ensures forall i :: 0 <= i < |es| ==> es[i] == Entry(slots[i].when, slots[i].timer.Info())
  {
    seq(|slots|, i requires 0 <= i < |slots| => Entry(slots[i].when, slots[i].timer.Info()))
  }

  class TimerQueue {
    const clock: Clock
    var timers: seq<Slot>
    var fd: TimerFd
    var created: nat
    var inserts: set<Timer>          // in functors of the loop's queue
    var ran: seq<Firing>
    ghost var all: set<Timer>
    ghost var model: Schedule

    /** The objects are the model's values, and every timer's expiration is the model's. */
    ghost predicate Valid()
      reads this, clock, all
    {
      Linked() && model.clock == clock.now
    }

    /** ... but for the time, which goes on by itself. */
    ghost predicate Linked()
      reads this, all
    {
      && Reachable(model)
      && model.timers == Entries(timers) && model.fd == fd
      && model.created == created && model.firings == ran
      && model.inserts == Infos(inserts)
      && inserts <= all && Holds(timers)
      && Tied(all, model)
    }

    ghost predicate Holds(slots: seq<Slot>)
      reads this
    {
      forall s :: s in slots ==> s.timer in all
    }

    constructor (clock: Clock)
      requires clock.now == 0
      ensures Valid() && this.clock == clock && model == Start()
    {
      this.clock := clock;
      timers, fd, created, inserts, ran := [], Disarmed, 0, {}, [];
      all, model := {}, Start();
      new;
      assert Reaches(Start(), [], Start());
    }

    /** addTimer: a new timer, whose insertion is left to a queued functor. */
    method AddTimer(addr: nat, when: int, interval: int) returns (t: Timer)
      requires Valid() && Enabled(model, Add(addr, when, interval))
      modifies this`created, this`inserts, this`all, this`model
      ensures Valid() && fresh(t) && t in inserts && t.id == created == old(created) + 1 && all == old(all) + {t}
      ensures t.addr == addr && t.expiration == when && t.interval == interval && t.repeat == (interval > 0)
      ensures model == Apply(old(model), Add(addr, when, interval))
    {
      ReachableStep(model, Add(addr, when, interval));
      created := created + 1;
      t := new Timer(created, addr, when, interval);
      InfosWith(inserts, t);
      inserts := inserts + {t};
      TiedWith(all, t, model, addr, when, interval);
      all := all + {t};
      model := Apply(model, Add(addr, when, interval));
    }

    /** cancel: a scan of the set for the sequence number. */
    method Cancel(id: nat)
      requires Valid()
      modifies this`timers, this`model
      ensures Valid() && model == Apply(old(model), TimerSchedule.Cancel(id))
    {
      ReachableStep(model, TimerSchedule.Cancel(id));
      EraseFirst(id);
      model := Apply(model, TimerSchedule.Cancel(id));
    }

    /** The scan, and the one erase. */
    method EraseFirst(id: nat)
      modifies this`timers
      ensures Entries(timers) == Cancelled(old(Entries(timers)), id)
      ensures forall s :: s in timers ==> s in old(timers)
    {
      var i := 0;
      while i < |timers| && timers[i].timer.id != id
        invariant i <= |timers| && forall k :: 0 <= k < i ==> timers[k].timer.id != id
      {
        i := i + 1;
      }
      FindIs(Entries(timers), id, i);
      if i < |timers| {
        EntriesCut(timers, i);
        EntriesCut(timers, i + 1);
        EntriesJoin(timers[..i], timers[i + 1..]);
        timers := timers[..i] + timers[i + 1..];
      }
    }

    method ResetTimerfd(target: int)
      modifies this`fd, clock
      ensures fd.Armed? && fd.alarm.target == target
      ensures old(clock.now) <= fd.alarm.readAt <= fd.alarm.setAt == clock.now
    {
      var readAt := clock.Read();
      var setAt := clock.Read();
      fd := Armed(Alarm(target, readAt, setAt));
    }

    /** insert into the ordered set; a new front sets the timerfd. */
    method InsertSlot(t: Timer) returns (earliestChanged: bool)
      modifies this`timers, this`fd, clock
      ensures Entries(timers) == Inserted(old(Entries(timers)), Entry(t.expiration, t.Info()))
      ensures forall s :: s in timers <==> s in old(timers) || s == Slot(t.expiration, t)
      ensures earliestChanged <==> old(timers) == [] || t.expiration < old(timers)[0].when
      ensures !earliestChanged ==> fd == old(fd) && clock.now == old(clock.now)
      ensures earliestChanged ==> fd.Armed? && fd.alarm.target == t.expiration
      ensures earliestChanged ==> old(clock.now) <= fd.alarm.readAt <= fd.alarm.setAt == clock.now
      ensures old(clock.now) <= clock.now
    {
      var when := t.expiration;
      earliestChanged := timers == [] || when < timers[0].when;
      var k := Place(Entries(timers), Entry(when, t.Info()));
      ghost var before := timers;
      timers := timers[..k] + [Slot(when, t)] + timers[k..];
      SlotInserted(before, k, Slot(when, t));
      if earliestChanged {
        ResetTimerfd(when);
      }
    }

    /** The functor queued by addTimer. */
    method Insert(t: Timer) returns (ghost readAt: int, ghost setAt: int)
      requires Valid() && t in inserts && model.phase.Idle?
      modifies this`timers, this`fd, this`inserts, this`model, clock
      ensures Valid() && Enabled(old(model), TimerSchedule.Insert(t.Info(), readAt, setAt))
      ensures model == Apply(old(model), TimerSchedule.Insert(t.Info(), readAt, setAt))
    {
      ghost var before := Entries(timers);
      InfosWithout(inserts, t, all, model);
      inserts := inserts - {t};
      var changed := InsertSlot(t);
      readAt := if changed then fd.alarm.readAt else clock.now;
      setAt := clock.now;
      ghost var step := TimerSchedule.Insert(t.Info(), readAt, setAt);
      assert Enabled(model, step);
      assert changed <==> before == [] || t.expiration < before[0].when;
      ReachableStep(model, step);
      model := Apply(model, step);
    }

    /** Takes the entries below (now, nullptr) out of the set, in order. */
    method GetExpired(now: int) returns (expired: seq<Slot>)
      modifies this`timers
      ensures var n := ExpiredCount(old(Entries(timers)), now);
              expired == old(timers)[..n] && timers == old(timers)[n..]
    {
      var n := ExpiredCount(Entries(timers), now);
      expired := timers[..n];
      timers := timers[n..];
    }

    /** Restarts the repeating timers of the batch and puts them back; then arms for the earliest timer. */
    method Reset(expired: seq<Slot>, now: int)
      requires Valid() && model.phase == Batch(now, Entries(expired), |expired|) && Holds(expired)
      modifies this`timers, this`fd, this`model, clock, all
      ensures Valid() && model.phase.Idle? && model.firings == old(model.firings)
      ensures exists readAt, setAt :: Enabled(old(model), Finish(readAt, setAt)) && model == Apply(old(model), Finish(readAt, setAt))
      ensures if timers == [] then fd == old(fd) else fd.Armed? && fd.alarm.target == timers[0].when
    {
      ghost var es := Entries(expired);
      PutBackAll(expired, now);
      if timers != [] {
        ResetTimerfd(timers[0].when);
      }
      ghost var readAt, setAt := if timers == [] then clock.now else fd.alarm.readAt, clock.now;
      ReachableStep(model, Finish(readAt, setAt));
      model := Apply(model, Finish(readAt, setAt));
    }

    /** The loop of reset. */
    method PutBackAll(expired: seq<Slot>, now: int)
      requires Valid() && model.phase == Batch(now, Entries(expired), |expired|) && Holds(expired)
      modifies this`timers, this`fd, clock, all
      ensures Entries(timers) == Reinserted(old(Entries(timers)), Entries(expired), now)
      ensures Tied(all, model.(expiration := Restarted(model.expiration, Entries(expired), now)))
      ensures Holds(timers) && old(clock.now) <= clock.now
      ensures timers == [] ==> fd == old(fd) && clock.now == old(clock.now)
    {
      ghost var es := Entries(expired);
      ghost var current: map<nat, int> := model.expiration;
      ghost var allBack, allRestarted := Reinserted(Entries(timers), es, now), Restarted(current, es, now);
      assert es[0..] == es;
      for i := 0 to |expired|
        invariant Reinserted(Entries(timers), es[i..], now) == allBack
        invariant Restarted(current, es[i..], now) == allRestarted
        invariant Tied(all, model.(expiration := current)) && Holds(timers)
        invariant timers == [] ==> fd == old(fd) && clock.now == old(clock.now)
        invariant old(clock.now) <= clock.now
      {
        assert expired[i] in expired;
        ResetOne(Entries(timers), current, es, i, now);
        current := PutBack(expired[i].timer, es[i], now, current);
      }
      ResetNone(Entries(timers), current, es, now);
    }

    /** One round of the loop of reset; e is t's entry in the batch. */
    method PutBack(t: Timer, ghost e: Entry, now: int, ghost current: map<nat, int>) returns (ghost next: map<nat, int>)
      requires t in all && e.timer == t.Info() && Tied(all, model.(expiration := current)) && Holds(timers)
      modifies this`timers, this`fd, clock, t
      ensures Entries(timers) == BackIn(old(Entries(timers)), e, now) && next == BackOn(current, e, now)
      ensures Tied(all, model.(expiration := next)) && Holds(timers)
      ensures timers == [] ==> fd == old(fd) && clock.now == old(clock.now)
      ensures old(clock.now) <= clock.now
    {
      next := BackOn(current, e, now);
      if t.repeat {
        t.Restart(now);
        var _ := InsertSlot(t);
      }
    }

    /**
     Reads the timerfd, runs what has expired, and resets. The i-th callback does deeds(i): it cancels
     timers, among others those of the batch, which changes the set only, and adds others.
    */
    method HandleRead(deeds: int -> seq<Deed>) returns (now: int)
      requires Valid() && model.phase.Idle? && fd.Fired?
      modifies this`timers, this`fd, this`ran, this`created, this`inserts, this`all, this`model, clock, all
      ensures Valid() && model.phase.Idle? && Follows(old(model), model)
      ensures old(clock.now) <= now
      ensures if timers == [] then fd == Disarmed else fd.Armed? && fd.alarm.target == timers[0].when
      ensures ran == old(ran) + Runs(Entries(old(timers))[..ExpiredCount(Entries(old(timers)), now)], now)
    {
      now := clock.Read();
      ghost var start := model;
      var expired := StartBatch(now);
      RunBatch(expired, now, deeds, start);
      ghost var batch := model;
      Reset(expired, now);
      ghost var readAt, setAt :| Enabled(batch, Finish(readAt, setAt)) && model == Apply(batch, Finish(readAt, setAt));
      FollowsStep(start, batch, Finish(readAt, setAt));
    }

    /** The loop of handleRead. */
    method RunBatch(expired: seq<Slot>, now: int, deeds: int -> seq<Deed>, ghost start: Schedule)
      requires Valid() && Follows(start, model) && model.phase == Batch(now, Entries(expired), 0) && Holds(expired)
      modifies this`timers, this`ran, this`created, this`inserts, this`all, this`model
      ensures Valid() && Follows(start, model) && model.phase == Batch(now, Entries(expired), |expired|)
      ensures Holds(expired) && fresh(all - old(all))
      ensures ran == old(ran) + Runs(Entries(expired), now)
    {
      for i := 0 to |expired|
        invariant Valid() && Follows(start, model)
        invariant model.phase == Batch(now, Entries(expired), i)
        invariant Holds(expired) && fresh(all - old(all))
        invariant ran == old(ran) + Runs(Entries(expired)[..i], now)
      {
        RunNth(expired, i, now, deeds(i), start);
        RunsSnoc(Entries(expired), i, now);
      }
      assert Entries(expired)[..|expired|] == Entries(expired);
    }

    method RunNth(expired: seq<Slot>, i: nat, now: int, deeds: seq<Deed>, ghost start: Schedule)
      requires i < |expired| && Valid() && Follows(start, model) && model.phase == Batch(now, Entries(expired), i) && Holds(expired)
      modifies this`timers, this`ran, this`created, this`inserts, this`all, this`model
      ensures Valid() && Follows(start, model) && model.phase == Batch(now, Entries(expired), i + 1)
      ensures Holds(expired) && fresh(all - old(all))
      ensures ran == old(ran) + [Firing(expired[i].timer.Info(), expired[i].when, now)]
    {
      RunOne(expired[i], now, start);
      CallBack(deeds, expired, start);
    }

    /** The kernel's part: time passes up to the deadline or beyond, and the timerfd becomes readable. */
    method Fire(at: int)
      requires Valid() && Enabled(model, Expire(at))
      modifies this`fd, this`model, clock
      ensures Valid() && model == Apply(old(model), Expire(at)) && fd == Fired(old(fd).alarm)
    {
      ReachableStep(model, Expire(at));
      fd := Fired(fd.alarm);
      clock.now := at;
      model := Apply(model, Expire(at));
    }

    /** readTimerfd, which empties the fired timerfd, and getExpired. */
    method StartBatch(now: int) returns (expired: seq<Slot>)
      requires Linked() && model.phase.Idle? && fd.Fired? && model.clock <= now == clock.now
      modifies this`timers, this`fd, this`model
      ensures Valid() && Holds(expired) && model == Apply(old(model), TimerSchedule.HandleRead(now))
      ensures model.phase == Batch(now, Entries(expired), 0) && Follows(old(model), model) && fd == Disarmed
      ensures Entries(expired) == Entries(old(timers))[..ExpiredCount(Entries(old(timers)), now)]
    {
      FollowsSelf(model);
      FollowsStep(model, model, TimerSchedule.HandleRead(now));
      ReachableStep(model, TimerSchedule.HandleRead(now));
      EntriesCut(timers, ExpiredCount(Entries(timers), now));
      fd := Disarmed;
      expired := GetExpired(now);
      model := Apply(model, TimerSchedule.HandleRead(now));
    }

    method RunOne(slot: Slot, now: int, ghost start: Schedule)
      requires Valid() && Follows(start, model) && Enabled(model, RunNext) && model.phase.now == now
      requires model.phase.expired[model.phase.done] == Entry(slot.when, slot.timer.Info())
      modifies this`ran, this`model
      ensures Valid() && Follows(start, model) && model == Apply(old(model), RunNext)
      ensures ran == old(ran) + [Firing(slot.timer.Info(), slot.when, now)]
    {
      FollowsStep(start, model, RunNext);
      ReachableStep(model, RunNext);
      ran := ran + [Firing(slot.timer.Info(), slot.when, now)];
      model := Apply(model, RunNext);
    }

    /** What one callback does to the queue. */
    method CallBack(deeds: seq<Deed>, expired: seq<Slot>, ghost start: Schedule)
      requires Valid() && Follows(start, model) && model.Expired() == Entries(expired) && Holds(expired)
      modifies this`timers, this`created, this`inserts, this`all, this`model
      ensures Valid() && Follows(start, model) && model.phase == old(model.phase)
      ensures Holds(expired) && fresh(all - old(all))
    {
      for i := 0 to |deeds|
        invariant Valid() && Follows(start, model) && model.phase == old(model.phase)
        invariant Holds(expired) && fresh(all - old(all))
      {
        match deeds[i]
        case Cancels(id) =>
          FollowsStep(start, model, TimerSchedule.Cancel(id));
          Cancel(id);
        case Adds(when, interval) =>
          AddDuringBatch(when, interval, expired, start);
      }
    }

    method AddDuringBatch(when: int, interval: int, expired: seq<Slot>, ghost start: Schedule)
      requires Valid() && Follows(start, model) && model.Expired() == Entries(expired)
      modifies this`created, this`inserts, this`all, this`model
      ensures Valid() && Follows(start, model) && model.phase == old(model.phase)
      ensures old(all) <= all && fresh(all - old(all))
    {
      var addr := NewAddress(expired);
      FollowsStep(start, model, Add(addr, when, interval));
      var _ := AddTimer(addr, when, interval);
    }

    /** The allocator's part: an address that no existing timer has. */
    method NewAddress(expired: seq<Slot>) returns (addr: nat)
      requires Valid() && model.Expired() == Entries(expired)
      ensures forall t :: t in Live(model) ==> t.addr != addr
    {
      var used := (set t | t in inserts :: t.addr)
        + (set s | s in timers :: s.timer.addr) + (set s | s in expired :: s.timer.addr);
      SomeNumberIsFree(used);
      addr :| addr !in used;
      forall t | t in Live(model)
        ensures t.addr in used
      {
        LiveIsHere(t, expired);
      }
    }

    lemma LiveIsHere(t: TimerSchedule.Timer, expired: seq<Slot>)
      requires Valid() && model.Expired() == Entries(expired) && t in Live(model)
      ensures || (exists x :: x in inserts && x.addr == t.addr)
              || (exists s :: s in timers && s.timer.addr == t.addr)
              || (exists s :: s in expired && s.timer.addr == t.addr)
    {
      if e :| e in model.timers && e.timer == t {
        var i :| 0 <= i < |timers| && Entries(timers)[i] == e;
        assert timers[i] in timers;
      } else if e :| e in model.Expired() && e.timer == t {
        var i :| 0 <= i < |expired| && Entries(expired)[i] == e;
        assert expired[i] in expired;
      }
    }
  }

  /** Something a timer's callback may do. */
  datatype Deed = Cancels(id: nat) | Adds(when: int, interval: int)

  lemma {:induction false} SomeNumberIsFree(used: set<nat>)
    ensures exists n: nat :: n !in used
  {
    var bound := Above(used);
    assert bound !in used;
  }

  ghost function Above(used: set<nat>): (n: nat)
    ensures forall u :: u in used ==> u < n
  {
    if used == {} then 0
    else
      var u :| u in used;
      var n := Above(used - {u});
      assert forall v :: v in used ==> v == u || v in used - {u};
      if u < n then n else u + 1
  }

  lemma ResetOne(ts: seq<Entry>, expiration: map<nat, int>, es: seq<Entry>, i: nat, now: int)
    requires i < |es|
    ensures Reinserted(ts, es[i..], now) == Reinserted(BackIn(ts, es[i], now), es[i + 1..], now)
    ensures Restarted(expiration, es[i..], now) == Restarted(BackOn(expiration, es[i], now), es[i + 1..], now)
  {
    assert es[i..][0] == es[i] && es[i..][1..] == es[i + 1..];
  }

  lemma ResetNone(ts: seq<Entry>, expiration: map<nat, int>, es: seq<Entry>, now: int)
    ensures Reinserted(ts, es[|es|..], now) == ts && Restarted(expiration, es[|es|..], now) == expiration
  {
  }

  lemma SlotInserted(slots: seq<Slot>, k: nat, x: Slot)
    requires k <= |slots| && k == Place(Entries(slots), Entry(x.when, x.timer.Info()))
    ensures var r := slots[..k] + [x] + slots[k..];
            && Entries(r) == Inserted(Entries(slots), Entry(x.when, x.timer.Info()))
            && (forall s :: s in r <==> s in slots || s == x)
  {
    EntriesCut(slots, k);
    EntriesJoin(slots[..k], [x]);
    EntriesJoin(slots[..k] + [x], slots[k..]);
    assert Entries([x]) == [Entry(x.when, x.timer.Info())];
    SlotAmong(slots, k, x);
  }

  lemma SlotAmong(slots: seq<Slot>, k: nat, x: Slot)
    requires k <= |slots|
    ensures forall s :: s in slots[..k] + [x] + slots[k..] <==> s in slots || s == x
  {
    assert slots == slots[..k] + slots[k..];
  }

  lemma EntriesJoin(a: seq<Slot>, b: seq<Slot>)
    ensures Entries(a + b) == Entries(a) + Entries(b)
  {
  }

  lemma EntriesCut(slots: seq<Slot>, n: nat)
    requires n <= |slots|
    ensures Entries(slots[..n]) == Entries(slots)[..n] && Entries(slots[n..]) == Entries(slots)[n..]
  {
  }

  /** What running these entries in a batch taken at now adds to the history. */
  function Runs(es: seq<Entry>, now: int): seq<Firing> {
    seq(|es|, i requires 0 <= i < |es| => Firing(es[i].timer, es[i].when, now))
  }

  lemma RunsSnoc(es: seq<Entry>, i: nat, now: int)
    requires i < |es|
    ensures Runs(es[..i + 1], now) == Runs(es[..i], now) + [Firing(es[i].timer, es[i].when, now)]
  {
  }

  /** Some sequence of steps leads from s to d. */
  ghost predicate Follows(s: Schedule, d: Schedule) {
    exists es :: Reaches(s, es, d)
  }

  lemma FollowsSelf(s: Schedule)
    ensures Follows(s, s)
  {
    assert Reaches(s, [], s);
  }

  lemma FollowsStep(s: Schedule, d: Schedule, e: Event)
    requires Follows(s, d) && Enabled(d, e)
    ensures Follows(s, Apply(d, e))
  {
    var es :| Reaches(s, es, d);
    ReachesOneMore(s, es, d, e);
  }

  /** Different objects are different timers, known to the model, and their expirations are current. */
  ghost predicate Tied(all: set<Timer>, model: Schedule)
    reads all
  {
    && (forall t :: t in all ==> t.id in model.made && model.made[t.id] == t.Info() && t.repeat == (t.interval > 0))
    && (forall t :: t in all ==> t.id in model.expiration && model.expiration[t.id] == t.expiration)
    && (forall t, u :: t in all && u in all && t.id == u.id ==> t == u)
  }

  lemma {:induction false} FindIs(ts: seq<Entry>, id: nat, k: nat)
    requires k <= |ts| && (forall i :: 0 <= i < k ==> ts[i].timer.id != id)
    requires k < |ts| ==> ts[k].timer.id == id
    ensures Find(ts, id) == k
  {
  }

  ghost function Infos(ts: set<Timer>): set<TimerSchedule.Timer> {
    set t | t in ts :: t.Info()
  }

  lemma InfosWith(ts: set<Timer>, t: Timer)
    ensures Infos(ts + {t}) == Infos(ts) + {t.Info()}
  {
  }

  lemma InfosWithout(ts: set<Timer>, t: Timer, all: set<Timer>, model: Schedule)
    requires t in ts && ts <= all && Tied(all, model)
    ensures Infos(ts - {t}) == Infos(ts) - {t.Info()} && t.Info() in Infos(ts)
  {
    assert forall x :: x in ts && x.Info() == t.Info() ==> x == t;
  }

  lemma TiedWith(all: set<Timer>, t: Timer, model: Schedule, addr: nat, when: int, interval: int)
    requires Tied(all, model) && Reachable(model) && Enabled(model, Add(addr, when, interval))
    requires t.Info() == TimerSchedule.Timer(model.created + 1, addr, interval) && t.expiration == when
    requires t.repeat == (interval > 0)
    ensures Tied(all + {t}, Apply(model, Add(addr, when, interval)))
  {
    ReachableInv(model);
  }

  ghost predicate Reachable(s: Schedule) {
    exists es :: Reaches(Start(), es, s)
  }

  lemma ReachableInv(s: Schedule)
    requires Reachable(s)
    ensures Inv(s)
  {
    var es :| Reaches(Start(), es, s);
    assert Inv(Start());
    ReachesInv(Start(), es, s);
  }

  lemma {:induction false} ReachesInv(s: Schedule, es: seq<Event>, d: Schedule)
    requires Inv(s) && Reaches(s, es, d)
    ensures Inv(d)
    decreases |es|
  {
    if es != [] {
      ApplyInv(s, es[0]);
      ReachesInv(Apply(s, es[0]), es[1..], d);
    }
  }

  lemma {:induction false} ReachesOneMore(s: Schedule, es: seq<Event>, d: Schedule, e: Event)
    requires Reaches(s, es, d) && Enabled(d, e)
    ensures Reaches(s, es + [e], Apply(d, e))
    decreases |es|
  {
    if es == [] {
      assert ([] + [e])[1..] == [];
      assert Reaches(Apply(s, e), [], Apply(d, e));
    } else {
      ReachesOneMore(Apply(s, es[0]), es[1..], d, e);
      assert (es + [e])[1..] == es[1..] + [e];
    }
  }

  lemma ReachableStep(s: Schedule, e: Event)
    requires Reachable(s) && Enabled(s, e)
    ensures Reachable(Apply(s, e))
  {
    var es :| Reaches(Start(), es, s);
    ReachesOneMore(Start(), es, s, e);
  }
}
