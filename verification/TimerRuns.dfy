/** The promises of the timer queue over whole runs. */
module TimerRuns {
  import opened TimerArithmetic
  import opened TimerSchedule
  import opened TimerInvariant

  // ----- The timerfd -----

  /**
   Whenever control is back in the loop and a timer is set, the timerfd is armed, or has fired and is
   still unread, and its deadline is no later than the earliest expiration (but for the time that passed
   between reading the clock and setting it), or the shortest delay after it was set.
  */
  lemma AlwaysArmed(ss: seq<Schedule>, es: seq<Event>, i: nat)
    requires IsRun(ss, es) && i <= |es| && ss[i].phase.Idle? && ss[i].timers != []
    ensures !ss[i].fd.Disarmed?
    ensures var a := ss[i].fd.alarm;
            || a.Deadline() <= ss[i].timers[0].when + (a.setAt - a.readAt)
            || a.Deadline() == a.setAt + SHORTEST_US * NS_PER_US
  {
    RunInv(ss, es, i);
    DeadlineIsEarlyEnough(ss[i].fd.alarm);
  }

  /**
   handleRead empties the timerfd: it is readable only if it has reached its deadline since it was last
   read, it is not readable while the batch runs, and afterwards it is set if and only if a timer is, for
   the earliest one.
  */
  lemma ReadOnce(ss: seq<Schedule>, es: seq<Event>, i: nat)
    requires IsRun(ss, es) && i <= |es|
    ensures ss[i].phase.Batch? ==> ss[i].fd.Disarmed?
    ensures i < |es| && es[i].Finish? && ss[i + 1].timers == [] ==> ss[i + 1].fd.Disarmed?
    ensures i < |es| && es[i].Finish? && ss[i + 1].timers != [] ==>
              ss[i + 1].fd == Armed(Alarm(ss[i + 1].timers[0].when, es[i].readAt, es[i].setAt))
    ensures ss[i].fd.Fired? ==> FiredSince(es, i)
  {
    RunInv(ss, es, i);
    if ss[i].fd.Fired? {
      FiredWhen(ss, es, i);
    }
  }

  ghost predicate FiredSince(es: seq<Event>, i: nat)
    requires i <= |es|
  {
    exists k :: 0 <= k < i && es[k].Expire? && forall m :: k < m < i ==> !es[m].HandleRead?
  }

  lemma {:induction false} FiredWhen(ss: seq<Schedule>, es: seq<Event>, i: nat)
    requires IsRun(ss, es) && i <= |es| && ss[i].fd.Fired?
    ensures FiredSince(es, i)
  {
    if !es[i - 1].Expire? {
      assert Enabled(ss[i - 1], es[i - 1]) && ss[i] == Apply(ss[i - 1], es[i - 1]);
      FiredWhen(ss, es, i - 1);
      var k :| 0 <= k < i - 1 && es[k].Expire? && forall m :: k < m < i - 1 ==> !es[m].HandleRead?;
      assert es[k].Expire? && forall m :: k < m < i ==> !es[m].HandleRead?;
    }
  }

  /**
   Cutting to microseconds costs at most one wake-up: if the timerfd set for the earliest timer fires
   and that timer is not yet expired, nothing runs, and the deadline set next is after its expiration.
  */
  lemma EarlyFireCostsOneWakeup(s: Schedule, now: int, readAt: int, setAt: int)
    requires Inv(s) && s.timers != [] && s.fd.Fired? && s.fd.alarm.target == s.timers[0].when
    requires Enabled(s, HandleRead(now)) && now <= s.timers[0].when
    requires now <= readAt <= setAt
    ensures var b := Apply(s, HandleRead(now));
            && b.Expired() == [] && Enabled(b, Finish(readAt, setAt))
            && var d := Apply(b, Finish(readAt, setAt));
               && d.timers == s.timers && d.firings == s.firings
               && d.fd.Armed? && d.timers[0].when < d.fd.alarm.Deadline()
  {
    var b := Apply(s, HandleRead(now));
    assert ExpiredCount(s.timers, now) == 0;
    assert b.timers == s.timers;
    SecondDeadlineSuffices(s.fd.alarm, Alarm(s.timers[0].when, readAt, setAt));
  }

  /** Reading the timerfd expires the earliest timer, unless it fired early. */
  lemma DueTimerExpires(s: Schedule, now: int)
    requires Inv(s) && s.timers != [] && Enabled(s, HandleRead(now))
    ensures s.timers[0].when < now <==> s.timers[0] in Apply(s, HandleRead(now)).Expired()
  {
    SplitFacts(s.timers, now);
    var n := ExpiredCount(s.timers, now);
    if n > 0 {
      assert s.timers[..n][0] == s.timers[0];
    }
  }

  /** The batch and what stays are the old set cut in two, exactly at expiration < now. */
  lemma ExpiryPartition(s: Schedule, now: int)
    requires Inv(s) && Enabled(s, HandleRead(now))
    ensures var d := Apply(s, HandleRead(now));
            && s.timers == d.Expired() + d.timers
            && (forall e :: e in s.timers ==>
                  (e in d.Expired() <==> s.expiration[e.timer.id] < now) && (e in d.timers <==> now <= s.expiration[e.timer.id]))
  {
    var d := Apply(s, HandleRead(now));
    forall e | e in s.timers
      ensures (e in d.Expired() <==> s.expiration[e.timer.id] < now) && (e in d.timers <==> now <= s.expiration[e.timer.id])
    {
      SplitExactly(s.timers, now, e);
      assert s.expiration[e.timer.id] == e.when;
    }
  }

  lemma SplitExactly(ts: seq<Entry>, now: int, e: Entry)
    requires Sorted(ts) && DistinctIds(ts) && e in ts
    ensures var n := ExpiredCount(ts, now); (e in ts[..n] <==> e.when < now) && (e in ts[n..] <==> now <= e.when)
  {
    SplitFacts(ts, now);
  }

  // ----- What runs, and when -----

  /**
   No timer runs at or before its expiration; a one-shot timer runs at most once; two batches that run
   the same repeating timer are more than its interval apart.
  */
  lemma FiringGuarantee(ss: seq<Schedule>, es: seq<Event>, i: nat)
    requires IsRun(ss, es) && i <= |es|
    ensures forall f :: f in ss[i].firings ==> f.due < f.at
    ensures forall j, k :: 0 <= j < k < |ss[i].firings| && ss[i].firings[j].timer.id == ss[i].firings[k].timer.id ==>
              var f, g := ss[i].firings[j], ss[i].firings[k];
              f.timer == g.timer && f.timer.Repeats() && f.at + f.timer.interval < g.at
  {
    RunInv(ss, es, i);
    var fs := ss[i].firings;
    forall j, k | 0 <= j < k < |fs| && fs[j].timer.id == fs[k].timer.id
      ensures fs[j].timer == fs[k].timer && Spaced(fs[j], fs[k])
    {
      assert fs[j] in fs && fs[k] in fs;
    }
  }

  // ----- Cancelling -----

  ghost predicate InSet(s: Schedule, id: nat) {
    exists e :: e in s.timers && e.timer.id == id
  }

  ghost predicate InQueue(s: Schedule, id: nat) {
    exists t :: t in s.inserts && t.id == id
  }

  ghost predicate ToRun(s: Schedule, id: nat) {
    exists i :: s.Done() <= i < |s.Expired()| && s.Expired()[i].timer.id == id
  }

  ghost predicate ToRenew(s: Schedule, id: nat) {
    exists e :: e in s.Expired() && e.timer.id == id && e.timer.Repeats()
  }

  /** Set, about to be set, in the batch and not yet run, or in the batch and repeating. */
  ghost predicate MayRun(s: Schedule, id: nat) {
    InSet(s, id) || InQueue(s, id) || ToRun(s, id) || ToRenew(s, id)
  }

  predicate HasRunSince(s: Schedule, d: Schedule, id: nat) {
    exists k :: |s.firings| <= k < |d.firings| && d.firings[k].timer.id == id
  }

  lemma BatchStaysSilent(s: Schedule, e: Event, id: nat)
    requires KnownInv(s) && PlacesInv(s) && Enabled(s, e) && !MayRun(s, id) && (e.HandleRead? || e.RunNext? || e.Finish?)
    ensures var d := Apply(s, e);
            !MayRun(d, id) && s.firings <= d.firings && !HasRunSince(s, d, id)
  {
    match e
    case HandleRead(now) => SplitFacts(s.timers, now);
    case RunNext => assert s.Expired()[s.Done()].timer.id != id;
    case Finish(_, _) => FinishFacts(s);
  }

  lemma StaysSilent(s: Schedule, e: Event, id: nat)
    requires KnownInv(s) && PlacesInv(s) && Enabled(s, e) && id in s.made && !MayRun(s, id)
    ensures var d := Apply(s, e);
            !MayRun(d, id) && id in d.made && s.firings <= d.firings && !HasRunSince(s, d, id)
  {
    match e
    case Add(_, _, _) => AddStaysSilent(s, e, id);
    case Insert(t, _, _) => InsertStaysSilent(s, e, id);
    case Cancel(other) => CancelledFacts(s.timers, other);
    case Expire(_) =>
    case _ => BatchStaysSilent(s, e, id);
  }

  lemma AddStaysSilent(s: Schedule, e: Event, id: nat)
    requires KnownInv(s) && Enabled(s, e) && e.Add? && id in s.made && !MayRun(s, id)
    ensures !MayRun(Apply(s, e), id)
  {
    var d := Apply(s, e);
    assert d.timers == s.timers && d.Expired() == s.Expired() && d.Done() == s.Done();
  }

  lemma InsertStaysSilent(s: Schedule, e: Event, id: nat)
    requires KnownInv(s) && PlacesInv(s) && Enabled(s, e) && e.Insert? && !MayRun(s, id)
    ensures !MayRun(Apply(s, e), id)
  {
    InsertFacts(s, e.t);
    assert e.t.id != id;
  }

  ghost predicate Reaches(s: Schedule, es: seq<Event>, d: Schedule)
    decreases |es|
  {
    if es == [] then s == d else Enabled(s, es[0]) && Reaches(Apply(s, es[0]), es[1..], d)
  }

  /** The next step on the way to a run of this timer. */
  ghost function StepTowards(s: Schedule, id: nat): (e: Event)
    requires Inv(s) && MayRun(s, id)
    ensures Enabled(s, e)
  {
    if s.phase.Batch? then
      if s.Done() < |s.Expired()| then RunNext else Finish(s.clock, s.clock)
    else if InSet(s, id) then
      if s.fd.Fired? then
        var x :| x in s.timers && x.timer.id == id;
        HandleRead(if s.clock <= x.when then x.when + 1 else s.clock)
      else
        Expire(if s.clock <= s.fd.alarm.Deadline() then s.fd.alarm.Deadline() else s.clock)
    else
      var t :| t in s.inserts && t.id == id;
      Insert(t, s.clock, s.clock)
  }

  /** How many kinds of steps are still to come ... */
  ghost function Stage(s: Schedule, id: nat): nat {
    if ToRun(s, id) then 0
    else if s.phase.Batch? then 4
    else if InSet(s, id) then if s.fd.Fired? then 1 else 2
    else 3
  }

  /** ... and how many callbacks of the batch. */
  ghost function Left(s: Schedule): nat
    requires PlacesInv(s)
  {
    |s.Expired()| - s.Done()
  }

  lemma RunNextIsCloser(s: Schedule, id: nat)
    requires Inv(s) && MayRun(s, id) && Enabled(s, RunNext)
    ensures var d := Apply(s, RunNext);
            && Inv(d) && s.firings <= d.firings
            && (HasRunSince(s, d, id) || (MayRun(d, id) && Stage(d, id) == Stage(s, id) && Left(d) < Left(s)))
  {
    var d := Apply(s, RunNext);
    ApplyInv(s, RunNext);
    if s.Expired()[s.Done()].timer.id == id {
      assert d.firings[|s.firings|].timer.id == id;
    } else {
      RunNextKeepsOthers(s, id);
    }
  }

  lemma RunNextKeepsOthers(s: Schedule, id: nat)
    requires Enabled(s, RunNext) && s.Expired()[s.Done()].timer.id != id
    ensures var d := Apply(s, RunNext);
            && (InSet(d, id) <==> InSet(s, id)) && (InQueue(d, id) <==> InQueue(s, id))
            && (ToRun(d, id) <==> ToRun(s, id)) && (ToRenew(d, id) <==> ToRenew(s, id))
  {
    var d := Apply(s, RunNext);
    assert d.Expired() == s.Expired() && d.Done() == s.Done() + 1;
  }

  lemma FinishIsCloser(s: Schedule, id: nat)
    requires Inv(s) && MayRun(s, id) && !ToRun(s, id) && s.phase.Batch? && Enabled(s, Finish(s.clock, s.clock))
    ensures var d := Apply(s, Finish(s.clock, s.clock));
            MayRun(d, id) && d.phase.Idle? && d.firings == s.firings
  {
    var d := Apply(s, Finish(s.clock, s.clock));
    FinishFacts(s);
    if InSet(s, id) {
      assert InSet(d, id);
    } else if ToRenew(s, id) {
      var x :| x in s.Expired() && x.timer.id == id && x.timer.Repeats();
      assert PutBack(Entry(s.phase.now + x.timer.interval, x.timer), s.phase.expired, s.phase.now);
      assert InSet(d, id);
    } else {
      assert InQueue(d, id);
    }
  }

  lemma ReadIsCloser(s: Schedule, id: nat, x: Entry, now: int)
    requires Inv(s) && Enabled(s, HandleRead(now)) && x in s.timers && x.timer.id == id && x.when < now
    ensures var d := Apply(s, HandleRead(now)); ToRun(d, id) && d.firings == s.firings
  {
    var d := Apply(s, HandleRead(now));
    SplitFacts(s.timers, now);
    assert x in d.Expired();
  }

  lemma InsertIsCloser(s: Schedule, id: nat, t: Timer)
    requires Inv(s) && Enabled(s, Insert(t, s.clock, s.clock)) && t.id == id
    ensures var d := Apply(s, Insert(t, s.clock, s.clock)); InSet(d, id) && d.phase.Idle? && d.firings == s.firings
  {
    InsertFacts(s, t);
    assert Entry(s.expiration[t.id], t) in Apply(s, Insert(t, s.clock, s.clock)).timers;
  }

  lemma OtherStepIsCloser(s: Schedule, id: nat)
    requires Inv(s) && MayRun(s, id) && StepTowards(s, id) != RunNext
    ensures var d := Apply(s, StepTowards(s, id));
            Inv(d) && s.firings <= d.firings && MayRun(d, id) && Stage(d, id) < Stage(s, id)
  {
    var e := StepTowards(s, id);
    ApplyInv(s, e);
    match e
    case Finish(_, _) => FinishIsCloser(s, id);
    case HandleRead(now) =>
      var x :| x in s.timers && x.timer.id == id && x.when < now;
      ReadIsCloser(s, id, x, now);
    case Expire(_) => assert InSet(Apply(s, e), id);
    case Insert(t, _, _) => InsertIsCloser(s, id, t);
  }

  /** A timer that may still run does run, if time goes on, the timerfd fires when it is due, and the loop goes on. */
  lemma {:induction false} MayRunCanRun(s: Schedule, id: nat) returns (es: seq<Event>, d: Schedule)
    requires Inv(s) && MayRun(s, id)
    ensures Reaches(s, es, d) && s.firings <= d.firings && HasRunSince(s, d, id)
    decreases Stage(s, id), Left(s)
  {
    var e := StepTowards(s, id);
    var next := Apply(s, e);
    if e == RunNext { RunNextIsCloser(s, id); } else { OtherStepIsCloser(s, id); }
    if HasRunSince(s, next, id) {
      es, d := [e], next;
      assert Reaches(next, es[1..], d);
    } else {
      var rest;
      rest, d := MayRunCanRun(next, id);
      es := [e] + rest;
    }
  }

  /** cancel sees the set only: what it leaves able to run is in the loop's queue or in the batch. */
  lemma CancelRemovesFromSet(s: Schedule, id: nat)
    requires Inv(s)
    ensures var d := Apply(s, Cancel(id));
            && !InSet(d, id)
            && (forall e :: e in d.timers <==> e in s.timers && e.timer.id != id)
            && (MayRun(d, id) <==> InQueue(s, id) || ToRun(s, id) || ToRenew(s, id))
            && (InSet(s, id) ==> !MayRun(d, id))
  {
    CancelledFacts(s.timers, id);
    var d := Apply(s, Cancel(id));
    assert d.Expired() == s.Expired() && d.Done() == s.Done() && d.inserts == s.inserts;
    if InSet(s, id) {
      OnlyInSet(s, id);
    }
  }

  lemma OnlyInSet(s: Schedule, id: nat)
    requires KnownInv(s) && PlacesInv(s) && InSet(s, id)
    ensures !InQueue(s, id) && !ToRun(s, id) && !ToRenew(s, id)
  {
    var e :| e in s.timers && e.timer.id == id;
    assert Apart(s.Expired(), e.timer);
    assert forall t :: t in s.inserts && t.id == id ==> t == e.timer;
  }

  /** On no continuation whatever does this timer run. */
  ghost predicate NeverRuns(s: Schedule, id: nat) {
    forall es, d :: Reaches(s, es, d) ==> !HasRunSince(s, d, id)
  }

  lemma NeverRunsExactly(s: Schedule, id: nat)
    requires Inv(s) && id in s.made
    ensures NeverRuns(s, id) <==> !MayRun(s, id)
  {
    if MayRun(s, id) {
      var es, d := MayRunCanRun(s, id);
    } else {
      forall es, d | Reaches(s, es, d)
        ensures !HasRunSince(s, d, id)
      {
        SilentOnEveryPath(s, es, d, id);
      }
    }
  }

  /**
   A cancelled timer never runs again, on any continuation, if and only if it was neither waiting to be
   inserted nor in the batch with a run or a renewal to come. In particular, if it was set.
  */
  lemma CancelIsEffective(ss: seq<Schedule>, es: seq<Event>, i: nat, id: nat)
    requires IsRun(ss, es) && i <= |es| && id in ss[i].made
    ensures NeverRuns(Apply(ss[i], Cancel(id)), id)
            <==> !InQueue(ss[i], id) && !ToRun(ss[i], id) && !ToRenew(ss[i], id)
    ensures InSet(ss[i], id) ==> NeverRuns(Apply(ss[i], Cancel(id)), id)
  {
    RunInv(ss, es, i);
    ApplyInv(ss[i], Cancel(id));
    CancelRemovesFromSet(ss[i], id);
    NeverRunsExactly(Apply(ss[i], Cancel(id)), id);
  }

  lemma {:induction false} SilentOnEveryPath(s: Schedule, es: seq<Event>, d: Schedule, id: nat)
    requires Inv(s) && id in s.made && !MayRun(s, id) && Reaches(s, es, d)
    ensures s.firings <= d.firings && !HasRunSince(s, d, id)
    decreases |es|
  {
    if es != [] {
      ApplyInv(s, es[0]);
      StaysSilent(s, es[0], id);
      SilentOnEveryPath(Apply(s, es[0]), es[1..], d, id);
    }
  }
}
