/** When a timer is due, from the moment it was added and the batches that have run it. */
module TimerHistory {
  import opened TimerSchedule
  import opened TimerInvariant

  /** The time asked for, as long as it has not run; then an interval after the last batch that ran it. */
  function NextDue(fs: seq<Firing>, id: nat, when: int): int {
    if fs == [] then when
    else
      var f := fs[|fs| - 1];
      if f.timer.id == id then f.at + f.timer.interval else NextDue(fs[..|fs| - 1], id, when)
  }

  /** Wherever the timer is, it is there with its next due time; and every run of it was due so. */
  ghost predicate DueInv(s: Schedule, id: nat, when: int)
    requires KnownInv(s)
  {
    && (forall j :: 0 <= j < |s.firings| ==> DueAt(s.firings, j, id, when))
    && (forall e :: e in s.timers && e.timer.id == id ==> e.when == NextDue(s.firings, id, when))
    && (forall t :: t in s.inserts && t.id == id ==> s.expiration[id] == NextDue(s.firings, id, when))
    && (forall i :: 0 <= i < |s.Expired()| && s.Expired()[i].timer.id == id ==>
          NextDue(s.firings, id, when) == if i < s.Done() then s.phase.now + s.Expired()[i].timer.interval else s.Expired()[i].when)
  }

  ghost predicate DueAt(fs: seq<Firing>, j: nat, id: nat, when: int)
    requires j < |fs|
  {
    fs[j].timer.id == id ==> fs[j].due == NextDue(fs[..j], id, when)
  }

  lemma NextDueSnoc(fs: seq<Firing>, f: Firing, id: nat, when: int)
    ensures NextDue(fs + [f], id, when) == if f.timer.id == id then f.at + f.timer.interval else NextDue(fs, id, when)
  {
    assert (fs + [f])[..|fs|] == fs;
  }

  lemma {:induction false} NeverRun(fs: seq<Firing>, id: nat, when: int)
    requires forall f :: f in fs ==> f.timer.id != id
    ensures NextDue(fs, id, when) == when
  {
    if fs != [] {
      NeverRun(fs[..|fs| - 1], id, when);
    }
  }

  /** A new timer is due when it was asked for. */
  lemma AddedDue(s: Schedule, e: Event)
    requires Inv(s) && e.Add? && Enabled(s, e)
    ensures var d := Apply(s, e);
            && Inv(d) && s.created + 1 in d.made && DueInv(d, s.created + 1, e.when)
            && d.made[s.created + 1] == Timer(s.created + 1, e.addr, e.interval)
  {
    ApplyInv(s, e);
    NeverRun(s.firings, s.created + 1, e.when);
    NewDue(s, e);
  }

  lemma NewDue(s: Schedule, e: Event)
    requires KnownInv(s) && e.Add? && Enabled(s, e) && KnownInv(Apply(s, e))
    requires NextDue(s.firings, s.created + 1, e.when) == e.when
    ensures DueInv(Apply(s, e), s.created + 1, e.when)
  {
    assert s.created + 1 !in s.made;
  }

  lemma AddDue(s: Schedule, e: Event, id: nat, when: int)
    requires Inv(s) && e.Add? && Enabled(s, e) && id in s.made && DueInv(s, id, when)
    ensures KnownInv(Apply(s, e)) && DueInv(Apply(s, e), id, when)
  {
    AddKnown(s, e.addr, e.when, e.interval);
    assert Apply(s, e).Expired() == s.Expired() && Apply(s, e).Done() == s.Done();
  }

  lemma InsertDue(s: Schedule, e: Event, id: nat, when: int)
    requires Inv(s) && e.Insert? && Enabled(s, e) && id in s.made && DueInv(s, id, when)
    ensures KnownInv(Apply(s, e)) && DueInv(Apply(s, e), id, when)
  {
    InsertKeys(s, e.t, e.readAt, e.setAt);
    InsertFacts(s, e.t);
  }

  lemma CancelDue(s: Schedule, e: Event, id: nat, when: int)
    requires Inv(s) && e.Cancel? && id in s.made && DueInv(s, id, when)
    ensures KnownInv(Apply(s, e)) && DueInv(Apply(s, e), id, when)
  {
    CancelKeys(s, e.id);
    CancelledFacts(s.timers, e.id);
    assert Apply(s, e).Expired() == s.Expired() && Apply(s, e).Done() == s.Done();
  }

  lemma HandleReadDue(s: Schedule, e: Event, id: nat, when: int)
    requires Inv(s) && e.HandleRead? && Enabled(s, e) && id in s.made && DueInv(s, id, when)
    ensures KnownInv(Apply(s, e)) && DueInv(Apply(s, e), id, when)
  {
    HandleReadKeys(s, e.now);
    SplitFacts(s.timers, e.now);
  }

  lemma RunNextDue(s: Schedule, id: nat, when: int)
    requires Inv(s) && Enabled(s, RunNext) && id in s.made && DueInv(s, id, when)
    ensures KnownInv(Apply(s, RunNext)) && DueInv(Apply(s, RunNext), id, when)
  {
    var x := s.phase.expired[s.phase.done];
    var f := Firing(x.timer, x.when, s.phase.now);
    assert x in s.Expired();
    RunNextKeys(s);
    NextDueSnoc(s.firings, f, id, when);
    RunDue(s.firings, f, id, when);
    PlacesDue(s, x, f, id, when);
  }

  /** A timer that has just run is nowhere but in the batch, behind the mark. */
  lemma PlacesDue(s: Schedule, x: Entry, f: Firing, id: nat, when: int)
    requires Inv(s) && Enabled(s, RunNext) && id in s.made && DueInv(s, id, when)
    requires x == s.phase.expired[s.phase.done] && x in s.Expired() && f == Firing(x.timer, x.when, s.phase.now)
    requires NextDue(s.firings + [f], id, when) == if f.timer.id == id then f.at + f.timer.interval else NextDue(s.firings, id, when)
    ensures var d, due := Apply(s, RunNext), NextDue(s.firings + [f], id, when);
            && (forall e :: e in d.timers && e.timer.id == id ==> e.when == due)
            && (forall t :: t in d.inserts && t.id == id ==> d.expiration[id] == due)
            && (forall i :: 0 <= i < |d.Expired()| && d.Expired()[i].timer.id == id ==>
                  due == if i < d.Done() then d.phase.now + d.Expired()[i].timer.interval else d.Expired()[i].when)
  {
    RunNextSpaced(s);
    assert id == x.timer.id ==> forall t :: t in s.inserts && t.id == id ==> t == x.timer;
  }

  lemma RunDue(fs: seq<Firing>, f: Firing, id: nat, when: int)
    requires forall j :: 0 <= j < |fs| ==> DueAt(fs, j, id, when)
    requires f.timer.id == id ==> f.due == NextDue(fs, id, when)
    ensures forall j :: 0 <= j < |fs + [f]| ==> DueAt(fs + [f], j, id, when)
  {
    forall j | 0 <= j < |fs + [f]|
      ensures DueAt(fs + [f], j, id, when)
    {
      if j < |fs| {
        assert DueAt(fs, j, id, when) && (fs + [f])[..j] == fs[..j];
      } else {
        assert (fs + [f])[..j] == fs;
      }
    }
  }

  lemma FinishDue(s: Schedule, e: Event, id: nat, when: int)
    requires Inv(s) && e.Finish? && Enabled(s, e) && id in s.made && DueInv(s, id, when)
    ensures KnownInv(Apply(s, e)) && DueInv(Apply(s, e), id, when)
  {
    var d := Apply(s, e);
    FinishKeys(s, e.readAt, e.setAt);
    FinishFacts(s);
    RestartedFacts(s.expiration, s.phase.expired, s.phase.now);
    forall x | x in d.timers && x.timer.id == id
      ensures x.when == NextDue(s.firings, id, when)
    {
      if x !in s.timers {
        RenewedDue(s, x, id, when);
      }
    }
    forall t | t in s.inserts && t.id == id
      ensures d.expiration[id] == s.expiration[id]
    {
      assert forall y :: y in s.Expired() ==> y.timer.id != id;
    }
  }

  lemma RenewedDue(s: Schedule, x: Entry, id: nat, when: int)
    requires KnownInv(s) && DueInv(s, id, when) && s.phase.Batch? && s.phase.done == |s.phase.expired|
    requires x.timer.id == id && PutBack(x, s.phase.expired, s.phase.now)
    ensures x.when == NextDue(s.firings, id, when)
  {
    var y :| y in s.phase.expired && y.timer == x.timer;
    var i :| 0 <= i < |s.phase.expired| && s.phase.expired[i] == y;
    assert s.Expired()[i].timer.id == id && i < s.Done();
  }

  lemma StepDue(s: Schedule, e: Event, id: nat, when: int)
    requires Inv(s) && Enabled(s, e) && id in s.made && DueInv(s, id, when)
    ensures Inv(Apply(s, e)) && id in Apply(s, e).made && Apply(s, e).made[id] == s.made[id] && DueInv(Apply(s, e), id, when)
  {
    ApplyInv(s, e);
    match e
    case Add(_, _, _) => AddDue(s, e, id, when);
    case Insert(_, _, _) => InsertDue(s, e, id, when);
    case Cancel(_) => CancelDue(s, e, id, when);
    case Expire(_) =>
    case HandleRead(_) => HandleReadDue(s, e, id, when);
    case RunNext => RunNextDue(s, id, when);
    case Finish(_, _) => FinishDue(s, e, id, when);
  }

  lemma {:induction false} DueSince(ss: seq<Schedule>, es: seq<Event>, k: nat, i: nat)
    requires IsRun(ss, es) && k < i <= |es| && es[k].Add?
    ensures var s, id := ss[i], ss[k].created + 1;
            && Inv(s) && id in s.made && s.made[id] == Timer(id, es[k].addr, es[k].interval) && DueInv(s, id, es[k].when)
    decreases i
  {
    RunInv(ss, es, i - 1);
    if k == i - 1 {
      AddedDue(ss[k], es[k]);
    } else {
      DueSince(ss, es, k, i - 1);
      StepDue(ss[i - 1], es[i - 1], ss[k].created + 1, es[k].when);
    }
  }

  /**
   On every run, of every timer ever added: its first run is due when it was asked for, and each later one
   an interval after the batch that ran it before; it is the timer that was asked for that runs.
  */
  lemma DueTimes(ss: seq<Schedule>, es: seq<Event>, k: nat, i: nat)
    requires IsRun(ss, es) && k < i <= |es| && es[k].Add?
    ensures var id, fs := ss[k].created + 1, ss[i].firings;
            forall j :: 0 <= j < |fs| && fs[j].timer.id == id ==>
              fs[j].timer == Timer(id, es[k].addr, es[k].interval) && fs[j].due == NextDue(fs[..j], id, es[k].when)
  {
    DueSince(ss, es, k, i);
    var id, fs := ss[k].created + 1, ss[i].firings;
    forall j | 0 <= j < |fs| && fs[j].timer.id == id
      ensures fs[j].timer == Timer(id, es[k].addr, es[k].interval) && fs[j].due == NextDue(fs[..j], id, es[k].when)
    {
      assert fs[j] in fs && DueAt(fs, j, id, es[k].when);
    }
  }
}
