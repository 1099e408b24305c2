/** What every step of the timer queue keeps. */
module TimerInvariant {
  import opened TimerArithmetic
  import opened TimerSchedule

  ghost predicate Sorted(ts: seq<Entry>) {
    forall i, j :: 0 <= i < j < |ts| ==> Before(ts[i], ts[j])
  }

  ghost predicate DistinctIds(ts: seq<Entry>) {
    forall i, j :: 0 <= i < j < |ts| ==> ts[i].timer.id != ts[j].timer.id
  }

  ghost predicate Apart(ts: seq<Entry>, t: Timer) {
    forall e :: e in ts ==> e.timer.id != t.id && e.timer.addr != t.addr
  }

  /** Every number stands for one timer, and the ones in use are known. */
  ghost predicate KnownInv(s: Schedule) {
    && (forall id :: id in s.made ==> 1 <= id <= s.created && s.made[id].id == id)
    && s.expiration.Keys == s.made.Keys
    && (forall t :: t in s.inserts ==> t.id in s.made && s.made[t.id] == t)
    && (forall e :: e in s.timers ==> e.timer.id in s.made && s.made[e.timer.id] == e.timer)
    && (forall e :: e in s.Expired() ==> e.timer.id in s.made && s.made[e.timer.id] == e.timer)
    && (forall f :: f in s.firings ==> f.timer.id in s.made && s.made[f.timer.id] == f.timer)
  }

  /** A timer is in at most one of the set, the batch and the queued inserts, and there only once. */
  ghost predicate PlacesInv(s: Schedule) {
    && Sorted(s.timers) && DistinctIds(s.timers) && DistinctIds(s.Expired())
    && (forall e :: e in s.timers ==> Apart(s.Expired(), e.timer) && e.timer !in s.inserts)
    && (forall e :: e in s.Expired() ==> e.timer !in s.inserts)
    && (forall a, b :: a in Live(s) && b in Live(s) && a.addr == b.addr ==> a == b)
    && s.Done() <= |s.Expired()|
  }

  /** Every stored key is its timer's current expiration. */
  ghost predicate KeysInv(s: Schedule)
    requires KnownInv(s)
  {
    && (forall e :: e in s.timers ==> s.expiration[e.timer.id] == e.when)
    && (forall e :: e in s.Expired() ==> s.expiration[e.timer.id] == e.when && e.when < s.phase.now <= s.clock)
  }

  /**
   In the loop, a non-empty set has a timerfd armed, or fired and not yet read, for its front or earlier.
   While a batch runs the timerfd has been read, and is not set again before its end.
  */
  ghost predicate AlarmInv(s: Schedule) {
    && (s.phase.Batch? ==> s.fd.Disarmed?)
    && (s.phase.Idle? && s.timers != [] ==> !s.fd.Disarmed? && s.fd.alarm.target <= s.timers[0].when)
    && (!s.fd.Disarmed? ==> s.fd.alarm.readAt <= s.fd.alarm.setAt <= s.clock)
    && (s.fd.Fired? ==> s.fd.alarm.Deadline() <= s.clock)
  }

  ghost predicate Spaced(earlier: Firing, later: Firing) {
    earlier.timer == later.timer ==>
      earlier.timer.Repeats() && earlier.at + earlier.timer.interval < later.at
  }

  /** f has run, e is to run: only a repeating timer, and an interval after. */
  ghost predicate Renewed(f: Firing, e: Entry) {
    e.timer == f.timer ==> f.timer.Repeats() && f.at + f.timer.interval <= e.when
  }

  ghost predicate HistoryInv(s: Schedule) {
    && (forall f :: f in s.firings ==> f.due < f.at <= s.clock && f.timer !in s.inserts)
    && (forall i, j :: 0 <= i < j < |s.firings| ==> Spaced(s.firings[i], s.firings[j]))
    && (forall f, e :: f in s.firings && e in s.timers ==> Renewed(f, e))
    && (s.phase.Batch? ==>
          && (forall f :: f in s.firings ==> f.at <= s.phase.now)
          && (forall f, i :: f in s.firings && s.Done() <= i < |s.Expired()| ==> Renewed(f, s.Expired()[i])))
  }

  ghost predicate Inv(s: Schedule) {
    KnownInv(s) && PlacesInv(s) && KeysInv(s) && AlarmInv(s) && HistoryInv(s)
  }

  // ----- Inserting -----

  lemma InsertedMembers(ts: seq<Entry>, e: Entry)
    ensures forall x :: x in Inserted(ts, e) <==> x == e || x in ts
    ensures Inserted(ts, e)[0] == if ts == [] || Before(e, ts[0]) then e else ts[0]
  {
    var k := Place(ts, e);
    assert ts == ts[..k] + ts[k..];
    assert Inserted(ts, e)[k] == e;
  }

  /** The new entry stands between those before it and those after it. */
  lemma PlaceSeparates(ts: seq<Entry>, e: Entry, i: nat)
    requires Sorted(ts) && Apart(ts, e.timer) && i < |ts|
    ensures if i < Place(ts, e) then Before(ts[i], e) else Before(e, ts[i])
  {
    var k := Place(ts, e);
    assert ts[i] in ts;
    if k < i {
      assert Before(ts[k], ts[i]);
    }
  }

  lemma InsertedSorted(ts: seq<Entry>, e: Entry)
    requires Sorted(ts) && DistinctIds(ts) && Apart(ts, e.timer)
    ensures Sorted(Inserted(ts, e)) && DistinctIds(Inserted(ts, e))
  {
    var k := Place(ts, e);
    var r := Inserted(ts, e);
    forall i, j | 0 <= i < j < |r|
      ensures Before(r[i], r[j]) && r[i].timer.id != r[j].timer.id
    {
      if i == k {
        PlaceSeparates(ts, e, j - 1);
        assert ts[j - 1] in ts;
      } else if j == k {
        PlaceSeparates(ts, e, i);
        assert ts[i] in ts;
      } else {
        var i', j' := if i < k then i else i - 1, if j < k then j else j - 1;
        assert r[i] == ts[i'] && r[j] == ts[j'];
      }
    }
  }

  /** x is a repeating timer of the batch, put back for its next time. */
  ghost predicate PutBack(x: Entry, expired: seq<Entry>, now: int) {
    x.timer.Repeats() && x.when == now + x.timer.interval && exists e :: e in expired && e.timer == x.timer
  }

  ghost predicate Reinsertable(ts: seq<Entry>, expired: seq<Entry>) {
    && Sorted(ts) && DistinctIds(ts) && DistinctIds(expired)
    && (forall e :: e in expired ==> Apart(ts, e.timer))
    && (forall i, j :: 0 <= i < j < |expired| ==> expired[i].timer.addr != expired[j].timer.addr)
  }

  lemma RestIsApart(expired: seq<Entry>, x: Entry)
    requires expired != [] && DistinctIds(expired) && x in expired[1..]
    requires forall i, j :: 0 <= i < j < |expired| ==> expired[i].timer.addr != expired[j].timer.addr
    ensures x in expired && x.timer.id != expired[0].timer.id && x.timer.addr != expired[0].timer.addr
  {
    var i :| 0 <= i < |expired[1..]| && expired[1..][i] == x;
    assert expired[i + 1] == x;
  }

  lemma ReinsertStep(ts: seq<Entry>, expired: seq<Entry>, now: int)
    requires Reinsertable(ts, expired) && expired != []
    ensures Reinsertable(BackIn(ts, expired[0], now), expired[1..])
    ensures forall x :: x in BackIn(ts, expired[0], now) <==>
                        x in ts || (expired[0].timer.Repeats() && x == Entry(now + expired[0].timer.interval, expired[0].timer))
  {
    var t := expired[0].timer;
    var e := Entry(now + t.interval, t);
    assert expired[0] in expired;
    InsertedSorted(ts, e);
    InsertedMembers(ts, e);
    forall x | x in expired[1..]
      ensures Apart(BackIn(ts, expired[0], now), x.timer)
    {
      RestIsApart(expired, x);
    }
  }

  lemma PutBackSplit(x: Entry, expired: seq<Entry>, now: int)
    requires expired != []
    ensures var t := expired[0].timer;
            PutBack(x, expired, now) <==>
            PutBack(x, expired[1..], now) || (t.Repeats() && x == Entry(now + t.interval, t))
  {
    assert expired == [expired[0]] + expired[1..];
  }

  lemma {:induction false} ReinsertedFacts(ts: seq<Entry>, expired: seq<Entry>, now: int)
    requires Reinsertable(ts, expired)
    ensures var r := Reinserted(ts, expired, now);
            && Sorted(r) && DistinctIds(r)
            && (forall x :: x in r <==> x in ts || PutBack(x, expired, now))
    decreases |expired|
  {
    if expired != [] {
      ReinsertStep(ts, expired, now);
      ReinsertedFacts(BackIn(ts, expired[0], now), expired[1..], now);
      forall x
        ensures x in Reinserted(ts, expired, now) <==> x in ts || PutBack(x, expired, now)
      {
        PutBackSplit(x, expired, now);
      }
    }
  }

  lemma {:induction false} RestartedFacts(expiration: map<nat, int>, expired: seq<Entry>, now: int)
    requires DistinctIds(expired) && forall e :: e in expired ==> e.timer.id in expiration
    ensures var r := Restarted(expiration, expired, now);
            && r.Keys == expiration.Keys
            && (forall id :: id in expiration && (forall e :: e in expired ==> e.timer.id != id) ==> r[id] == expiration[id])
            && (forall e :: e in expired && e.timer.Repeats() ==> r[e.timer.id] == now + e.timer.interval)
    decreases |expired|
  {
    if expired != [] {
      var t, rest := expired[0].timer, expired[1..];
      assert expired[0] in expired;
      assert forall x :: x in expired <==> x == expired[0] || x in rest;
      var next := if t.Repeats() then expiration[t.id := now + t.interval] else expiration;
      assert next.Keys == expiration.Keys;
      RestartedFacts(next, rest, now);
      forall x | x in rest
        ensures x.timer.id != t.id
      {
        var i :| 0 <= i < |rest| && rest[i] == x;
        assert expired[i + 1] == x;
      }
    }
  }

  // ----- What each step does to the places a timer can be in -----

  lemma CancelledOrder(ts: seq<Entry>, id: nat)
    requires Sorted(ts) && DistinctIds(ts)
    ensures var r := Cancelled(ts, id);
            Sorted(r) && DistinctIds(r) && (r != [] ==> ts[0].when <= r[0].when)
  {
    var r := Cancelled(ts, id);
    var k := Find(ts, id);
    if k < |ts| {
      assert forall i :: 0 <= i < |r| ==> r[i] == ts[if i < k then i else i + 1];
      assert r != [] && k == 0 ==> Before(ts[0], ts[1]);
    }
  }

  lemma CancelledFacts(ts: seq<Entry>, id: nat)
    requires Sorted(ts) && DistinctIds(ts)
    ensures var r := Cancelled(ts, id);
            && Sorted(r) && DistinctIds(r)
            && (forall x :: x in r <==> x in ts && x.timer.id != id)
            && (r != [] ==> ts[0].when <= r[0].when)
  {
    CancelledOrder(ts, id);
    CancelledMembers(ts, id);
  }

  lemma CancelledMembers(ts: seq<Entry>, id: nat)
    requires DistinctIds(ts)
    ensures forall x :: x in Cancelled(ts, id) <==> x in ts && x.timer.id != id
  {
    var k := Find(ts, id);
    if k < |ts| {
      var front, back := ts[..k], ts[k + 1..];
      assert ts == front + [ts[k]] + back;
      assert forall x :: x in front ==> x.timer.id != id;
      assert forall x :: x in back ==> x.timer.id != id;
    }
  }

  lemma SplitFacts(ts: seq<Entry>, now: int)
    requires Sorted(ts) && DistinctIds(ts)
    ensures var n := ExpiredCount(ts, now);
            && Sorted(ts[n..]) && DistinctIds(ts[n..]) && DistinctIds(ts[..n])
            && (forall x :: x in ts <==> x in ts[..n] || x in ts[n..])
            && (forall x, y :: x in ts[..n] && y in ts[n..] ==> x.timer.id != y.timer.id)
            && (forall x :: x in ts[..n] ==> x.when < now)
            && (forall x :: x in ts[n..] ==> now <= x.when)
  {
    var n := ExpiredCount(ts, now);
    assert ts == ts[..n] + ts[n..];
    forall i | n <= i < |ts|
      ensures now <= ts[i].when
    {
      assert i > n ==> Before(ts[n], ts[i]);
    }
  }

  lemma InsertFacts(s: Schedule, t: Timer)
    requires KnownInv(s) && PlacesInv(s) && s.phase.Idle? && t in s.inserts
    ensures var e := Entry(s.expiration[t.id], t);
            var r := Inserted(s.timers, e);
            && Sorted(r) && DistinctIds(r)
            && (forall x :: x in r <==> x == e || x in s.timers)
            && r[0] == if s.timers == [] || Before(e, s.timers[0]) then e else s.timers[0]
  {
    var e := Entry(s.expiration[t.id], t);
    assert t in Live(s);
    forall x | x in s.timers
      ensures x.timer.id != t.id && x.timer.addr != t.addr
    {
      assert x.timer in Live(s);
    }
    InsertedSorted(s.timers, e);
    InsertedMembers(s.timers, e);
  }

  lemma FinishFacts(s: Schedule)
    requires KnownInv(s) && PlacesInv(s) && s.phase.Batch?
    ensures var r := Reinserted(s.timers, s.phase.expired, s.phase.now);
            && Sorted(r) && DistinctIds(r)
            && (forall x :: x in r <==> x in s.timers || PutBack(x, s.phase.expired, s.phase.now))
    ensures var r := Restarted(s.expiration, s.phase.expired, s.phase.now);
            && r.Keys == s.expiration.Keys
            && (forall x :: x in s.timers ==> r[x.timer.id] == s.expiration[x.timer.id])
            && (forall x :: x in s.phase.expired && x.timer.Repeats() ==> r[x.timer.id] == s.phase.now + x.timer.interval)
  {
    var expired := s.phase.expired;
    forall i, j | 0 <= i < j < |expired|
      ensures expired[i].timer.addr != expired[j].timer.addr
    {
      assert expired[i] in expired && expired[j] in expired;
      assert expired[i].timer in Live(s) && expired[j].timer in Live(s);
    }
    forall e | e in expired
      ensures Apart(s.timers, e.timer)
    {
      assert forall x :: x in s.timers ==> Apart(s.Expired(), x.timer);
    }
    ReinsertedFacts(s.timers, expired, s.phase.now);
    RestartedFacts(s.expiration, expired, s.phase.now);
    forall x | x in s.timers
      ensures forall e :: e in expired ==> e.timer.id != x.timer.id
    {
      assert Apart(s.Expired(), x.timer);
    }
  }

  // ----- Each part of the invariant, over each step -----

  lemma SameLive(s: Schedule, d: Schedule)
    requires forall t :: t in d.inserts ==> t in Live(s)
    requires forall x :: x in d.timers ==> x.timer in Live(s)
    requires forall x :: x in d.Expired() ==> x.timer in Live(s)
    ensures Live(d) <= Live(s)
  {
  }

  lemma SplitAddresses(s: Schedule, now: int)
    requires KnownInv(s) && PlacesInv(s) && Enabled(s, HandleRead(now))
    ensures var n := ExpiredCount(s.timers, now);
            forall x :: x in s.timers[n..] ==> Apart(s.timers[..n], x.timer)
    ensures Live(Apply(s, HandleRead(now))) <= Live(s)
  {
    SplitFacts(s.timers, now);
    var n := ExpiredCount(s.timers, now);
    forall x, y | x in s.timers[n..] && y in s.timers[..n]
      ensures y.timer.id != x.timer.id && y.timer.addr != x.timer.addr
    {
      assert x.timer in Live(s) && y.timer in Live(s);
    }
  }

  /** The next of the batch is due a whole interval after any earlier run of the same timer. */
  lemma RunNextSpaced(s: Schedule)
    requires Inv(s) && Enabled(s, RunNext)
    ensures var e := s.phase.expired[s.phase.done];
            forall f :: f in s.firings ==> Spaced(f, Firing(e.timer, e.when, s.phase.now))
    ensures forall i :: s.phase.done < i < |s.phase.expired| ==> s.phase.expired[i].timer != s.phase.expired[s.phase.done].timer
    ensures forall x :: x in s.timers ==> x.timer != s.phase.expired[s.phase.done].timer
  {
    var e := s.phase.expired[s.phase.done];
    assert e in s.Expired();
    forall f | f in s.firings
      ensures Spaced(f, Firing(e.timer, e.when, s.phase.now))
    {
      assert Renewed(f, s.Expired()[s.Done()]);
    }
    assert forall x :: x in s.timers ==> Apart(s.Expired(), x.timer);
  }

  lemma AddPlaces(s: Schedule, addr: nat, when: int, interval: int)
    requires Inv(s) && Enabled(s, Add(addr, when, interval))
    ensures PlacesInv(Apply(s, Add(addr, when, interval)))
  {
    var d := Apply(s, Add(addr, when, interval));
    assert Live(d) == Live(s) + {d.made[d.created]};
  }

  lemma AddKeys(s: Schedule, addr: nat, when: int, interval: int)
    requires Inv(s) && Enabled(s, Add(addr, when, interval))
    ensures var d := Apply(s, Add(addr, when, interval));
            KnownInv(d) && KeysInv(d) && AlarmInv(d)
  {
    AddKnown(s, addr, when, interval);
  }

  lemma AddKnown(s: Schedule, addr: nat, when: int, interval: int)
    requires KnownInv(s) && Enabled(s, Add(addr, when, interval))
    ensures KnownInv(Apply(s, Add(addr, when, interval)))
  {
  }

  lemma AddHistory(s: Schedule, addr: nat, when: int, interval: int)
    requires Inv(s) && Enabled(s, Add(addr, when, interval))
    ensures HistoryInv(Apply(s, Add(addr, when, interval)))
  {
  }

  lemma InsertPlaces(s: Schedule, t: Timer, readAt: int, setAt: int)
    requires Inv(s) && Enabled(s, Insert(t, readAt, setAt))
    ensures PlacesInv(Apply(s, Insert(t, readAt, setAt)))
  {
    var d := Apply(s, Insert(t, readAt, setAt));
    InsertFacts(s, t);
    SameLive(s, d);
  }

  lemma InsertKeys(s: Schedule, t: Timer, readAt: int, setAt: int)
    requires Inv(s) && Enabled(s, Insert(t, readAt, setAt))
    ensures var d := Apply(s, Insert(t, readAt, setAt));
            KnownInv(d) && KeysInv(d) && AlarmInv(d)
  {
    InsertStored(s, t, readAt, setAt);
    InsertAlarm(s, t, readAt, setAt);
  }

  lemma InsertStored(s: Schedule, t: Timer, readAt: int, setAt: int)
    requires KnownInv(s) && PlacesInv(s) && KeysInv(s) && Enabled(s, Insert(t, readAt, setAt))
    ensures KnownInv(Apply(s, Insert(t, readAt, setAt))) && KeysInv(Apply(s, Insert(t, readAt, setAt)))
  {
    InsertFacts(s, t);
  }

  lemma InsertAlarm(s: Schedule, t: Timer, readAt: int, setAt: int)
    requires AlarmInv(s) && Enabled(s, Insert(t, readAt, setAt)) && KnownInv(s) && PlacesInv(s)
    ensures AlarmInv(Apply(s, Insert(t, readAt, setAt)))
  {
    InsertFacts(s, t);
    DeadlineIsEarlyEnough(Alarm(s.expiration[t.id], readAt, setAt));
  }

  lemma InsertHistory(s: Schedule, t: Timer, readAt: int, setAt: int)
    requires Inv(s) && Enabled(s, Insert(t, readAt, setAt))
    ensures HistoryInv(Apply(s, Insert(t, readAt, setAt)))
  {
    InsertFacts(s, t);
  }

  lemma CancelPlaces(s: Schedule, id: nat)
    requires Inv(s) && Enabled(s, Cancel(id))
    ensures PlacesInv(Apply(s, Cancel(id)))
  {
    var d := Apply(s, Cancel(id));
    CancelledFacts(s.timers, id);
    assert Live(d) <= Live(s);
  }

  lemma CancelKeys(s: Schedule, id: nat)
    requires Inv(s) && Enabled(s, Cancel(id))
    ensures var d := Apply(s, Cancel(id));
            KnownInv(d) && KeysInv(d) && AlarmInv(d)
  {
    CancelledFacts(s.timers, id);
  }

  lemma CancelHistory(s: Schedule, id: nat)
    requires Inv(s) && Enabled(s, Cancel(id))
    ensures HistoryInv(Apply(s, Cancel(id)))
  {
    CancelledFacts(s.timers, id);
  }

  lemma HandleReadPlaces(s: Schedule, now: int)
    requires Inv(s) && Enabled(s, HandleRead(now))
    ensures PlacesInv(Apply(s, HandleRead(now)))
  {
    var d := Apply(s, HandleRead(now));
    SplitFacts(s.timers, now);
    SplitAddresses(s, now);
  }

  lemma HandleReadKeys(s: Schedule, now: int)
    requires Inv(s) && Enabled(s, HandleRead(now))
    ensures var d := Apply(s, HandleRead(now));
            KnownInv(d) && KeysInv(d) && AlarmInv(d)
  {
    SplitFacts(s.timers, now);
  }

  lemma HandleReadHistory(s: Schedule, now: int)
    requires Inv(s) && Enabled(s, HandleRead(now))
    ensures HistoryInv(Apply(s, HandleRead(now)))
  {
    SplitFacts(s.timers, now);
  }

  lemma RunNextPlaces(s: Schedule)
    requires Inv(s) && Enabled(s, RunNext)
    ensures PlacesInv(Apply(s, RunNext))
  {
    var d := Apply(s, RunNext);
    assert s.phase.expired[s.phase.done] in s.phase.expired;
    assert Live(d) == Live(s);
  }

  lemma RunNextKeys(s: Schedule)
    requires Inv(s) && Enabled(s, RunNext)
    ensures var d := Apply(s, RunNext);
            KnownInv(d) && KeysInv(d) && AlarmInv(d)
  {
    assert s.phase.expired[s.phase.done] in s.phase.expired;
  }

  lemma RunNextHistory(s: Schedule)
    requires Inv(s) && Enabled(s, RunNext)
    ensures HistoryInv(Apply(s, RunNext))
  {
    assert s.phase.expired[s.phase.done] in s.phase.expired;
    RunNextSpaced(s);
    RunNextRenewed(s);
  }

  lemma RunNextRenewed(s: Schedule)
    requires Inv(s) && Enabled(s, RunNext)
    ensures var d := Apply(s, RunNext);
            && (forall f, e :: f in d.firings && e in d.timers ==> Renewed(f, e))
            && (forall f, i :: f in d.firings && d.Done() <= i < |d.Expired()| ==> Renewed(f, d.Expired()[i]))
  {
    RunNextSpaced(s);
  }

  lemma FinishPlaces(s: Schedule, readAt: int, setAt: int)
    requires Inv(s) && Enabled(s, Finish(readAt, setAt))
    ensures PlacesInv(Apply(s, Finish(readAt, setAt)))
  {
    var d := Apply(s, Finish(readAt, setAt));
    FinishFacts(s);
    assert Live(d) <= Live(s);
  }

  lemma FinishKeys(s: Schedule, readAt: int, setAt: int)
    requires Inv(s) && Enabled(s, Finish(readAt, setAt))
    ensures var d := Apply(s, Finish(readAt, setAt));
            KnownInv(d) && KeysInv(d) && AlarmInv(d)
  {
    FinishFacts(s);
  }

  lemma FinishHistory(s: Schedule, readAt: int, setAt: int)
    requires Inv(s) && Enabled(s, Finish(readAt, setAt))
    ensures HistoryInv(Apply(s, Finish(readAt, setAt)))
  {
    var back := Reinserted(s.timers, s.phase.expired, s.phase.now);
    FinishFacts(s);
    forall f, x | f in s.firings && x in back
      ensures Renewed(f, x)
    {
      if x !in s.timers {
        assert PutBack(x, s.phase.expired, s.phase.now);
      }
    }
  }

  lemma BatchInv(s: Schedule, e: Event)
    requires Inv(s) && Enabled(s, e) && (e.HandleRead? || e.RunNext? || e.Finish?)
    ensures Inv(Apply(s, e))
  {
    match e
    case HandleRead(now) =>
      HandleReadPlaces(s, now);
      HandleReadKeys(s, now);
      HandleReadHistory(s, now);
    case RunNext =>
      RunNextPlaces(s);
      RunNextKeys(s);
      RunNextHistory(s);
    case Finish(readAt, setAt) =>
      FinishPlaces(s, readAt, setAt);
      FinishKeys(s, readAt, setAt);
      FinishHistory(s, readAt, setAt);
  }

  lemma AddInv(s: Schedule, addr: nat, when: int, interval: int)
    requires Inv(s) && Enabled(s, Add(addr, when, interval))
    ensures Inv(Apply(s, Add(addr, when, interval)))
  {
    AddPlaces(s, addr, when, interval);
    AddKeys(s, addr, when, interval);
    AddHistory(s, addr, when, interval);
  }

  lemma InsertInv(s: Schedule, t: Timer, readAt: int, setAt: int)
    requires Inv(s) && Enabled(s, Insert(t, readAt, setAt))
    ensures Inv(Apply(s, Insert(t, readAt, setAt)))
  {
    InsertPlaces(s, t, readAt, setAt);
    InsertKeys(s, t, readAt, setAt);
    InsertHistory(s, t, readAt, setAt);
  }

  lemma CancelInv(s: Schedule, id: nat)
    requires Inv(s)
    ensures Inv(Apply(s, Cancel(id)))
  {
    CancelPlaces(s, id);
    CancelKeys(s, id);
    CancelHistory(s, id);
  }

  lemma ExpireInv(s: Schedule, at: int)
    requires Inv(s) && Enabled(s, Expire(at))
    ensures Inv(Apply(s, Expire(at)))
  {
  }

  lemma ApplyInv(s: Schedule, e: Event)
    requires Inv(s) && Enabled(s, e)
    ensures Inv(Apply(s, e))
  {
    match e
    case Add(addr, when, interval) => AddInv(s, addr, when, interval);
    case Insert(t, readAt, setAt) => InsertInv(s, t, readAt, setAt);
    case Cancel(id) => CancelInv(s, id);
    case Expire(at) => ExpireInv(s, at);
    case _ => BatchInv(s, e);
  }

  lemma {:induction false} RunInv(ss: seq<Schedule>, es: seq<Event>, i: nat)
    requires IsRun(ss, es) && i <= |es|
    ensures Inv(ss[i])
  {
    if i > 0 {
      RunInv(ss, es, i - 1);
      ApplyInv(ss[i - 1], es[i - 1]);
    }
  }
}
