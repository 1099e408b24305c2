/**
 The server, its connections and the pollers of their loops as one machine: every step of the server
 makes, on the poller of the connection's loop, exactly the channel calls that its code makes.
*/
module Watching {
  import opened Bytes
  import opened ChannelStates
  import C = Connections
  import I = ConnectionTheorems
  import T = ConnectionRuns
  import L = ConnectionLaws
  import R = EpollRegistry
  import O = Ownership
  import Teardown

  type Poller = R.Registry<O.Id>
  type Pollers = map<O.LoopId, Poller>
  type Channels = map<O.Id, ChannelState>

  // ----- The calls -----

  datatype Call = EnableReading | DisableReading | EnableWriting | DisableWriting | DisableAll | Remove

  function NewMask(events: Mask, call: Call): Mask {
    match call
    case EnableReading => events + READ_EVENT
    case DisableReading => events - READ_EVENT
    case EnableWriting => events + WRITE_EVENT
    case DisableWriting => events - WRITE_EVENT
    case DisableAll => NONE_EVENT
    case Remove => events
  }

  /** sendInLoop: enableWriting when something has to wait and nothing asked for it yet. */
  function SendCalls(c: C.Conn, data: seq<Byte>, r: WriteResult): seq<Call>
    requires C.Fits(r, |data|)
  {
    if c.state == C.Disconnected then []
    else if L.Clear(c) && r.Faulted? then [DisableAll]
    else if data != [] && !c.Writing() && !(L.Clear(c) && r == Wrote(|data|)) then [EnableWriting]
    else []
  }

  /** The calls a step of a connection makes on its channel. */
  function CallsOf(c: C.Conn, e: C.Event): seq<Call>
    requires C.Enabled(c, e)
  {
    match e
    case Establish => [EnableReading]
    case Send(_, data, r) => if c.state == C.Connected then SendCalls(c, data, r) else []
    case RunSend(_, data, r) => SendCalls(c, data, r)
    case Readable(r) => if r == ReadBytes([]) then [DisableAll] else []
    case Writable(r) =>
      if c.Writing() && r.Wrote? && 0 < r.n == |c.output| then
        [if c.opts.drain == C.AsWritten then DisableReading else DisableWriting]
      else []
    case HangUp => [DisableAll]
    case Destroy => DestroyCalls(c)
    case _ => []
  }

  function DestroyCalls(c: C.Conn): seq<Call> {
    if c.state == C.Connected then [DisableAll, Remove] else [Remove]
  }

  /** A step of the poller; one that it does not allow counts as refused. */
  ghost function Attempt(r: Poller, e: R.Event<O.Id>): Poller {
    if R.Enabled(r, e) then R.Apply(r, e) else r.(refused := r.refused + 1)
  }

  ghost function Issued(r: Poller, id: O.Id, call: Call): Poller {
    if call == Remove then Attempt(r, R.Remove(id))
    else Attempt(r, R.Change(id, if id in r.live then NewMask(r.live[id].events, call) else {}))
  }

  ghost function IssuedAll(r: Poller, id: O.Id, calls: seq<Call>): Poller
    decreases |calls|
  {
    if calls == [] then r else IssuedAll(Issued(r, id, calls[0]), id, calls[1..])
  }

  // ----- The machine -----

  datatype Reactor = Reactor(server: O.Server, pollers: Pollers)

  ghost function At(ps: Pollers, l: O.LoopId): Poller {
    if l in ps then ps[l] else R.Registry(map[], map[], map[], 0)
  }

  /** The channel goes, and its fd is closed, when the last reference to the connection is dropped. */
  ghost function Reaped(d: O.Server, r: Poller, id: O.Id): Poller {
    if O.Held(d, id) then r else Attempt(r, R.Close(id))
  }

  ghost function Reaping(s: O.Server, d: O.Server, id: O.Id, ps: Pollers): Pollers
    requires id in s.loopOf
  {
    var io := s.loopOf[id];
    ps[io := Reaped(d, At(ps, io), id)]
  }

  ghost function LetGo(x: Reactor, id: O.Id, here: bool): Reactor
    requires O.Knows(x.server, id)
  {
    var d := O.LetGo(x.server, id, here);
    if x.server.loopOf[id] == O.BASE && here then
      var r := IssuedAll(At(x.pollers, O.BASE), id, DestroyCalls(x.server.conns[id]));
      Reactor(d, x.pollers[O.BASE := Reaped(d, r, id)])
    else Reactor(d, x.pollers)
  }

  ghost function LetGoAll(x: Reactor, order: seq<O.Id>, here: bool): Reactor
    requires forall id :: id in order ==> O.Knows(x.server, id)
    decreases |order|
  {
    if order == [] then x
    else
      assert forall id :: id in order[1..] ==> O.Knows(x.server, id);
      LetGoAll(LetGo(x, order[0], here), order[1..], here)
  }

  ghost function Apply(x: Reactor, e: O.Event): Reactor
    requires O.MapInv(x.server) && O.Enabled(x.server, e)
  {
    var s, ps, d := x.server, x.pollers, O.Apply(x.server, e);
    match e
    case Accept(io, fd, opts) =>
      var made := Attempt(At(ps, io), R.Open(s.nextConnId, fd));
      Reactor(d, ps[io := if io == O.BASE then Issued(made, s.nextConnId, EnableReading) else made])
    case Happen(id, ce) =>
      var l := s.loopOf[id];
      Reactor(d, ps[l := IssuedAll(At(ps, l), id, CallsOf(s.conns[id], ce))])
    case RunHead(l) =>
      var t := s.Queue(l)[0];
      var io := s.loopOf[t.id];
      Reactor(d, ps[io := IssuedAll(At(ps, io), t.id, TaskCalls(s, t))])
    case Release(_, id) => Reactor(d, Reaping(s, d, id, ps))
    case Drop(id) => Reactor(d, Reaping(s, d, id, ps))
    case CallBack(_) => Reactor(d, ps)
    case Report(_) => Reactor(d, ps)
    case Keep(_) => Reactor(d, ps)
    case Destruct(order, here) => LetGoAll(Reactor(s.(open := false), ps), order, here)
  }

  function TaskCalls(s: O.Server, t: O.Task): seq<Call>
    requires O.Knows(s, t.id)
  {
    match t
    case Establish(_) => [EnableReading]
    case Remove(_) => []
    case Destroy(id) => DestroyCalls(s.conns[id])
  }

  ghost predicate StepAt(xs: seq<Reactor>, es: seq<O.Event>, i: nat)
    requires i < |es| && |xs| == |es| + 1
  {
    O.MapInv(xs[i].server) && O.Enabled(xs[i].server, es[i]) && xs[i + 1] == Apply(xs[i], es[i])
  }

  ghost predicate IsRun(xs: seq<Reactor>, es: seq<O.Event>) {
    && |xs| == |es| + 1
    && xs[0] == Reactor(O.Start(), map[])
    && forall i :: 0 <= i < |es| ==> StepAt(xs, es, i)
  }

  // ----- The invariant -----

  /** The channels of the connections that exist on a loop. */
  ghost function LiveOn(s: O.Server, l: O.LoopId): Channels {
    map id | id in s.conns && id in s.loopOf && s.loopOf[id] == l && O.Held(s, id) :: s.conns[id].channel
  }

  /** A loop's poller knows just these channels, in just their states, and agrees with the kernel. */
  ghost predicate Follows(s: O.Server, ps: Pollers, l: O.LoopId) {
    R.Agrees(At(ps, l)) && At(ps, l).live == LiveOn(s, l)
  }

  ghost predicate AllFollow(s: O.Server, ps: Pollers) {
    forall l {:trigger Follows(s, ps, l)} :: Follows(s, ps, l)
  }

  // The calls, on the side of the poller

  function Called(c: ChannelState, call: Call): ChannelState {
    if call == Remove then c.(index := New) else I.Changed(c, NewMask(c.events, call))
  }

  function CalledAll(c: ChannelState, calls: seq<Call>): ChannelState
    decreases |calls|
  {
    if calls == [] then c else CalledAll(Called(c, calls[0]), calls[1..])
  }

  lemma IssuedAgrees(r: Poller, id: O.Id, call: Call)
    requires R.Agrees(r) && id in r.live
    ensures var d := Issued(r, id, call);
            R.Agrees(d) && d.live == r.live[id := Called(r.live[id], call)]
  {
    if call == Remove {
      R.RemoveChannelAgrees(r, id);
    } else {
      R.SetEventsAgrees(r, id, NewMask(r.live[id].events, call));
    }
  }

  lemma {:induction false} IssuedAllAgrees(r: Poller, id: O.Id, calls: seq<Call>)
    requires R.Agrees(r) && id in r.live
    ensures var d := IssuedAll(r, id, calls);
            R.Agrees(d) && d.live == r.live[id := CalledAll(r.live[id], calls)]
    decreases |calls|
  {
    if calls != [] {
      IssuedAgrees(r, id, calls[0]);
      IssuedAllAgrees(Issued(r, id, calls[0]), id, calls[1..]);
    } else {
      assert r.live[id := r.live[id]] == r.live;
    }
  }

  // The calls, on the side of the connection

  lemma SendCallsRight(c: C.Conn, before: Byte, data: seq<Byte>, r: WriteResult)
    requires C.Fits(r, |data|)
    ensures C.SendInLoop(c, before, data, r).channel == CalledAll(c.channel, SendCalls(c, data, r))
  {
    if I.Accepts(c, r) {
      I.SendInLoopEffect(c, before, data, r);
      L.SendInLoopExactly(c, before, data, r);
    }
  }

  lemma DestroyCallsRight(c: C.Conn)
    ensures C.ConnectDestroyed(c).channel == CalledAll(c.channel, DestroyCalls(c))
  {
    assert [DisableAll, Remove][1..] == [Remove];
  }

  /** A connection's own record of its channel is what its calls make of it. */
  lemma CallsRight(c: C.Conn, e: C.Event)
    requires C.Enabled(c, e)
    ensures C.Apply(c, e).channel == CalledAll(c.channel, CallsOf(c, e))
  {
    I.StepShape(c, e);
    ShapedCallsRight(c, e, C.Apply(c, e));
  }

  lemma ShapedCallsRight(c: C.Conn, e: C.Event, d: C.Conn)
    requires C.Enabled(c, e) && I.Shaped(c, e, d)
    ensures d.channel == CalledAll(c.channel, CallsOf(c, e))
  {
    if C.Closes(c, e) {
      assert CallsOf(c, e) == [DisableAll];
    } else if I.Sends(c, e) {
      SendCallsRight(C.Taken(c, e), e.before, e.data, e.result);
    } else {
      match e
      case Writable(r) => I.HandleWriteEffect(c, r);
      case Destroy => DestroyCallsRight(c);
      case _ =>
    }
  }

  // ----- One step -----

  lemma HeldTheSame(s: O.Server, d: O.Server, id: O.Id)
    requires O.MapInv(s) && O.MapInv(d) && id in s.conns && id in d.conns && O.Unmoved(s, d, id)
    ensures O.Held(d, id) <==> O.Held(s, id)
  {
    O.HeldBySeat(s, id);
    O.HeldBySeat(d, id);
  }

  /** What a step near one connection does to the channels of a loop. */
  lemma LiveNear(s: O.Server, d: O.Server, id: O.Id, l: O.LoopId)
    requires O.MapInv(s) && O.MapInv(d) && O.Near(s, d, id) && id in d.conns
    requires id in s.conns ==> s.loopOf[id] == d.loopOf[id]
    ensures LiveOn(d, l) == NearLive(s, d, id, l)
  {
    var live, want := LiveOn(s, l), NearLive(s, d, id, l);
    forall other
      ensures other in LiveOn(d, l) <==> other in want
      ensures other in want ==> LiveOn(d, l)[other] == want[other]
    {
      if other != id {
        LiveOther(s, d, id, l, other);
      }
    }
  }

  ghost function NearLive(s: O.Server, d: O.Server, id: O.Id, l: O.LoopId): Channels
    requires O.Knows(d, id)
  {
    if d.loopOf[id] != l then LiveOn(s, l)
    else if O.Held(d, id) then LiveOn(s, l)[id := d.conns[id].channel]
    else LiveOn(s, l) - {id}
  }

  lemma LiveOther(s: O.Server, d: O.Server, id: O.Id, l: O.LoopId, other: O.Id)
    requires O.MapInv(s) && O.MapInv(d) && O.Near(s, d, id) && other != id
    ensures other in LiveOn(d, l) <==> other in LiveOn(s, l)
    ensures other in LiveOn(s, l) ==> LiveOn(d, l)[other] == LiveOn(s, l)[other]
  {
    if other in s.conns {
      assert O.Unmoved(s, d, other);
      HeldTheSame(s, d, other);
      assert O.SeatOf(d, other).io == O.SeatOf(s, other).io;
    }
  }

  lemma FollowsNear(s: O.Server, d: O.Server, id: O.Id, ps: Pollers, r: Poller)
    requires O.MapInv(s) && O.MapInv(d) && O.Near(s, d, id) && id in d.conns
    requires id in s.conns ==> s.loopOf[id] == d.loopOf[id]
    requires AllFollow(s, ps) && R.Agrees(r)
    requires var live := LiveOn(s, d.loopOf[id]);
             r.live == if O.Held(d, id) then live[id := d.conns[id].channel] else live - {id}
    ensures AllFollow(d, ps[d.loopOf[id] := r])
  {
    var qs := ps[d.loopOf[id] := r];
    forall l
      ensures Follows(d, qs, l)
    {
      assert Follows(s, ps, l);
      LiveNear(s, d, id, l);
    }
  }

  /** The calls of a step of a connection that exists and goes on existing. */
  lemma CallsFollow(s: O.Server, d: O.Server, id: O.Id, ps: Pollers, calls: seq<Call>)
    requires O.MapInv(s) && O.MapInv(d) && O.Near(s, d, id) && id in s.conns && id in d.conns && s.loopOf[id] == d.loopOf[id]
    requires AllFollow(s, ps) && O.Held(s, id) && O.Held(d, id)
    requires d.conns[id].channel == CalledAll(s.conns[id].channel, calls)
    ensures var l := s.loopOf[id]; AllFollow(d, ps[l := IssuedAll(At(ps, l), id, calls)])
  {
    var l := s.loopOf[id];
    assert Follows(s, ps, l);
    IssuedAllAgrees(At(ps, l), id, calls);
    FollowsNear(s, d, id, ps, IssuedAll(At(ps, l), id, calls));
  }

  /** ... and of one that nobody holds afterwards, whose channel is out of the poller by then. */
  lemma LastCallsFollow(s: O.Server, d: O.Server, id: O.Id, ps: Pollers, calls: seq<Call>)
    requires O.MapInv(s) && O.MapInv(d) && O.Near(s, d, id) && id in s.conns && id in d.conns && s.loopOf[id] == d.loopOf[id]
    requires AllFollow(s, ps) && O.Held(s, id) && !O.Held(d, id)
    requires d.conns[id].channel == CalledAll(s.conns[id].channel, calls) && d.conns[id].channel.index == New
    ensures var l := s.loopOf[id];
            AllFollow(d, ps[l := Attempt(IssuedAll(At(ps, l), id, calls), R.Close(id))])
  {
    var l := s.loopOf[id];
    assert Follows(s, ps, l);
    IssuedAllAgrees(At(ps, l), id, calls);
    var r := IssuedAll(At(ps, l), id, calls);
    CloseAgrees(r, id);
    FollowsNear(s, d, id, ps, Attempt(r, R.Close(id)));
  }

  lemma CloseAgrees(r: Poller, id: O.Id)
    requires R.Agrees(r) && id in r.live && r.live[id].index == New
    ensures R.Agrees(Attempt(r, R.Close(id))) && Attempt(r, R.Close(id)).live == r.live - {id}
  {
    R.ApplyAgrees(r, R.Close(id));
  }

  lemma OpenAgrees(r: Poller, id: O.Id, fd: int)
    requires R.Agrees(r) && id !in r.live && forall other :: other in r.live ==> r.live[other].fd != fd
    ensures R.Agrees(Attempt(r, R.Open(id, fd)))
    ensures Attempt(r, R.Open(id, fd)).live == r.live[id := ChannelState(fd, NONE_EVENT, New)]
  {
    R.ApplyAgrees(r, R.Open(id, fd));
  }

  lemma OpenedFollow(s: O.Server, io: O.LoopId, fd: int, opts: C.Options, ps: Pollers)
    requires O.Inv(s) && O.Enabled(s, O.Accept(io, fd, opts)) && AllFollow(s, ps)
    ensures var r := Attempt(At(ps, io), R.Open(s.nextConnId, fd));
            R.Agrees(r) && r.live == LiveOn(s, io)[s.nextConnId := ChannelState(fd, NONE_EVENT, New)]
  {
    assert Follows(s, ps, io);
    OpenAgrees(At(ps, io), s.nextConnId, fd);
  }

  lemma AcceptFollow(s: O.Server, io: O.LoopId, fd: int, opts: C.Options, ps: Pollers)
    requires O.Inv(s) && O.Enabled(s, O.Accept(io, fd, opts)) && AllFollow(s, ps)
    ensures var x := Apply(Reactor(s, ps), O.Accept(io, fd, opts)); AllFollow(x.server, x.pollers)
  {
    if io == O.BASE { AcceptHereFollow(s, fd, opts, ps); } else { AcceptElsewhereFollow(s, io, fd, opts, ps); }
  }

  lemma AcceptHereFollow(s: O.Server, fd: int, opts: C.Options, ps: Pollers)
    requires O.Inv(s) && O.Enabled(s, O.Accept(O.BASE, fd, opts)) && AllFollow(s, ps)
    ensures var r := Issued(Attempt(At(ps, O.BASE), R.Open(s.nextConnId, fd)), s.nextConnId, EnableReading);
            AllFollow(O.NewConnection(s, O.BASE, fd, opts), ps[O.BASE := r])
  {
    var id, d := s.nextConnId, O.NewConnection(s, O.BASE, fd, opts);
    O.AcceptHere(s, fd, opts);
    EstablishedFollow(s, fd, opts, ps);
    assert d.conns[id] == C.ConnectEstablished(C.Fresh(fd, opts)) && d.loopOf[id] == O.BASE;
    NamedFollow(s, d, id, ps, Issued(Attempt(At(ps, O.BASE), R.Open(id, fd)), id, EnableReading));
  }

  lemma EstablishedFollow(s: O.Server, fd: int, opts: C.Options, ps: Pollers)
    requires O.Inv(s) && O.Enabled(s, O.Accept(O.BASE, fd, opts)) && AllFollow(s, ps)
    ensures var id := s.nextConnId;
            var r := Issued(Attempt(At(ps, O.BASE), R.Open(id, fd)), id, EnableReading);
            R.Agrees(r) && r.live == LiveOn(s, O.BASE)[id := C.ConnectEstablished(C.Fresh(fd, opts)).channel]
  {
    OpenedFollow(s, O.BASE, fd, opts, ps);
    IssuedAgrees(Attempt(At(ps, O.BASE), R.Open(s.nextConnId, fd)), s.nextConnId, EnableReading);
  }

  lemma AcceptElsewhereFollow(s: O.Server, io: O.LoopId, fd: int, opts: C.Options, ps: Pollers)
    requires O.Inv(s) && O.Enabled(s, O.Accept(io, fd, opts)) && AllFollow(s, ps) && io != O.BASE
    ensures AllFollow(O.NewConnection(s, io, fd, opts), ps[io := Attempt(At(ps, io), R.Open(s.nextConnId, fd))])
  {
    OpenedFollow(s, io, fd, opts, ps);
    O.AcceptElsewhere(s, io, fd, opts);
    NamedFollow(s, O.NewConnection(s, io, fd, opts), s.nextConnId, ps, Attempt(At(ps, io), R.Open(s.nextConnId, fd)));
  }

  lemma NamedFollow(s: O.Server, d: O.Server, id: O.Id, ps: Pollers, r: Poller)
    requires O.MapInv(s) && O.MapInv(d) && O.Near(s, d, id) && id !in s.conns && id in d.connections
    requires AllFollow(s, ps) && R.Agrees(r) && r.live == LiveOn(s, d.loopOf[id])[id := d.conns[id].channel]
    ensures AllFollow(d, ps[d.loopOf[id] := r])
  {
    FollowsNear(s, d, id, ps, r);
  }

  lemma HappenFollow(s: O.Server, id: O.Id, e: C.Event, ps: Pollers)
    requires O.Inv(s) && O.Enabled(s, O.Happen(id, e)) && AllFollow(s, ps)
    ensures var x := Apply(Reactor(s, ps), O.Happen(id, e)); AllFollow(x.server, x.pollers)
  {
    O.StepNear(s, O.Happen(id, e));
    Teardown.ActorIsHeld(s, O.Happen(id, e));
    Teardown.HappenConns(s, id, e);
    CallsRight(s.conns[id], e);
    CallsFollow(s, O.Apply(s, O.Happen(id, e)), id, ps, CallsOf(s.conns[id], e));
  }

  lemma TaskCallsRight(s: O.Server, l: O.LoopId)
    requires O.Inv(s) && O.Enabled(s, O.RunHead(l))
    ensures var t, d := s.Queue(l)[0], O.Apply(s, O.RunHead(l));
            t.id in d.conns && d.conns[t.id].channel == CalledAll(s.conns[t.id].channel, TaskCalls(s, t))
  {
    Teardown.HeadInOrder(s, l);
    Teardown.HeadConns(s, l);
    match s.Queue(l)[0]
    case Establish(id) => CallsRight(s.conns[id], C.Event.Establish);
    case Remove(_) =>
    case Destroy(id) => DestroyCallsRight(s.conns[id]);
  }

  lemma RunHeadFollow(s: O.Server, l: O.LoopId, ps: Pollers)
    requires O.Inv(s) && O.Enabled(s, O.RunHead(l)) && AllFollow(s, ps)
    ensures var x := Apply(Reactor(s, ps), O.RunHead(l)); AllFollow(x.server, x.pollers)
  {
    O.StepNear(s, O.RunHead(l));
    Teardown.ActorIsHeld(s, O.RunHead(l));
    TaskCallsRight(s, l);
    CallsFollow(s, O.Apply(s, O.RunHead(l)), s.Queue(l)[0].id, ps, TaskCalls(s, s.Queue(l)[0]));
  }

  lemma LetsGoFollow(s: O.Server, e: O.Event, ps: Pollers)
    requires O.Inv(s) && O.Enabled(s, e) && Teardown.LetsGo(e) && AllFollow(s, ps)
    requires var id := O.ActorOf(s, e); O.Knows(O.Apply(s, e), id) && !Teardown.Orphaned(O.Apply(s, e), id)
    ensures var x := Apply(Reactor(s, ps), e); AllFollow(x.server, x.pollers)
  {
    var d, id := O.Apply(s, e), O.ActorOf(s, e);
    O.StepNear(s, e);
    Teardown.LetsGoOf(s, e);
    if O.Held(d, id) {
      CallsFollow(s, d, id, ps, []);
    } else {
      LastCallsFollow(s, d, id, ps, []);
    }
  }

  /** A step that calls no channel and drops no hold. */
  lemma QuietlyFollow(s: O.Server, e: O.Event, ps: Pollers)
    requires O.Inv(s) && O.Enabled(s, e) && (e.CallBack? || e.Report? || e.Keep?) && AllFollow(s, ps)
    ensures AllFollow(O.Apply(s, e), ps)
  {
    var d, id := O.Apply(s, e), O.ActorOf(s, e);
    O.StepNear(s, e);
    Teardown.ActorIsHeld(s, e);
    Teardown.SameConns(s, e);
    SameFollow(s, d, id, ps);
  }

  lemma SameFollow(s: O.Server, d: O.Server, id: O.Id, ps: Pollers)
    requires O.MapInv(s) && O.MapInv(d) && O.Near(s, d, id) && id in s.conns && id in d.conns && s.loopOf[id] == d.loopOf[id]
    requires AllFollow(s, ps) && O.Held(s, id) && O.Held(d, id) && d.conns[id] == s.conns[id]
    ensures AllFollow(d, ps)
  {
    forall l
      ensures Follows(d, ps, l)
    {
      assert Follows(s, ps, l);
      LiveNear(s, d, id, l);
      assert l == s.loopOf[id] ==> LiveOn(s, l)[id := s.conns[id].channel] == LiveOn(s, l);
    }
  }

  lemma LetGoFollow(x: Reactor, id: O.Id, here: bool)
    requires O.Walking(x.server) && id in x.server.connections && AllFollow(x.server, x.pollers)
    ensures LetGo(x, id, here).server == O.LetGo(x.server, id, here)
    ensures AllFollow(LetGo(x, id, here).server, LetGo(x, id, here).pollers)
  {
    var s, d, ps := x.server, O.LetGo(x.server, id, here), x.pollers;
    O.LetGoNear(s, id, here);
    Teardown.LetGoOutcome(s, id, here);
    O.HeldBySeat(s, id);
    O.HeldBySeat(d, id);
    if s.loopOf[id] == O.BASE && here {
      DestroyCallsRight(s.conns[id]);
      if O.Held(d, id) {
        CallsFollow(s, d, id, ps, DestroyCalls(s.conns[id]));
      } else {
        LastCallsFollow(s, d, id, ps, DestroyCalls(s.conns[id]));
      }
    } else {
      LetGoLaterFollow(s, id, here, ps);
    }
  }

  lemma LetGoLaterFollow(s: O.Server, id: O.Id, here: bool, ps: Pollers)
    requires O.Walking(s) && id in s.connections && AllFollow(s, ps) && !(s.loopOf[id] == O.BASE && here)
    ensures AllFollow(O.LetGo(s, id, here), ps)
  {
    var d := O.LetGo(s, id, here);
    O.LetGoNear(s, id, here);
    Teardown.LetGoOutcome(s, id, here);
    O.HeldBySeat(d, id);
    SameFollow(s, d, id, ps);
  }

  lemma {:induction false} LetGoAllFollow(x: Reactor, order: seq<O.Id>, here: bool)
    requires O.Walking(x.server) && O.NoDup(order) && (forall id :: id in order ==> id in x.server.connections && O.Knows(x.server, id))
    requires AllFollow(x.server, x.pollers)
    ensures LetGoAll(x, order, here).server == O.LetGoAll(x.server, order, here)
    ensures AllFollow(LetGoAll(x, order, here).server, LetGoAll(x, order, here).pollers)
    decreases |order|
  {
    if order != [] {
      LetGoFollow(x, order[0], here);
      O.LetGoOnce(x.server, order[0], here);
      O.NoDupTail(order);
      LetGoAllFollow(LetGo(x, order[0], here), order[1..], here);
    }
  }

  lemma ShutFollow(s: O.Server, ps: Pollers)
    requires AllFollow(s, ps)
    ensures AllFollow(s.(open := false), ps)
  {
    var shut := s.(open := false);
    forall l
      ensures Follows(shut, ps, l)
    {
      assert Follows(s, ps, l);
      forall id
        ensures O.Held(shut, id) <==> O.Held(s, id)
      {
        assert forall m :: shut.Queue(m) == s.Queue(m);
      }
      assert LiveOn(shut, l) == LiveOn(s, l);
    }
  }

  lemma ServerApply(x: Reactor, e: O.Event)
    requires O.Inv(x.server) && O.Enabled(x.server, e)
    ensures Apply(x, e).server == O.Apply(x.server, e)
  {
    match e
    case Destruct(order, here) => LetGoAllServer(Reactor(x.server.(open := false), x.pollers), order, here);
    case _ =>
  }

  lemma {:induction false} LetGoAllServer(x: Reactor, order: seq<O.Id>, here: bool)
    requires forall id :: id in order ==> O.Knows(x.server, id)
    ensures LetGoAll(x, order, here).server == O.LetGoAll(x.server, order, here)
    decreases |order|
  {
    if order != [] {
      O.LetGoKnows(x.server, order[0], here);
      LetGoAllServer(LetGo(x, order[0], here), order[1..], here);
    }
  }

  /** As long as no channel is orphaned, the pollers follow. */
  lemma ApplyFollow(x: Reactor, e: O.Event)
    requires O.Inv(x.server) && O.Enabled(x.server, e) && AllFollow(x.server, x.pollers)
    requires O.Inv(O.Apply(x.server, e)) && Teardown.NoneOrphaned(O.Apply(x.server, e))
    ensures AllFollow(Apply(x, e).server, Apply(x, e).pollers)
  {
    match e
    case Accept(io, fd, opts) => AcceptFollow(x.server, io, fd, opts, x.pollers);
    case Happen(id, ce) => HappenFollow(x.server, id, ce, x.pollers);
    case RunHead(l) => RunHeadFollow(x.server, l, x.pollers);
    case Release(_, _) => LetsGoFollow(x.server, e, x.pollers);
    case Drop(_) => LetsGoFollow(x.server, e, x.pollers);
    case CallBack(_) => QuietlyFollow(x.server, e, x.pollers);
    case Report(_) => QuietlyFollow(x.server, e, x.pollers);
    case Keep(_) => QuietlyFollow(x.server, e, x.pollers);
    case Destruct(order, here) =>
      O.ShutWalks(x.server);
      ShutFollow(x.server, x.pollers);
      LetGoAllFollow(Reactor(x.server.(open := false), x.pollers), order, here);
  }

  // ----- Refusals -----

  lemma AttemptGrows(r: Poller, e: R.Event<O.Id>)
    ensures r.refused <= Attempt(r, e).refused
  {
  }

  lemma {:induction false} IssuedAllGrows(r: Poller, id: O.Id, calls: seq<Call>)
    ensures r.refused <= IssuedAll(r, id, calls).refused
    decreases |calls|
  {
    if calls != [] {
      IssuedAllGrows(Issued(r, id, calls[0]), id, calls[1..]);
    }
  }

  lemma LetGoGrows(x: Reactor, id: O.Id, here: bool, l: O.LoopId)
    requires O.Knows(x.server, id)
    ensures At(x.pollers, l).refused <= At(LetGo(x, id, here).pollers, l).refused
  {
    var r := At(x.pollers, O.BASE);
    IssuedAllGrows(r, id, DestroyCalls(x.server.conns[id]));
    AttemptGrows(IssuedAll(r, id, DestroyCalls(x.server.conns[id])), R.Close(id));
  }

  lemma {:induction false} LetGoAllGrows(x: Reactor, order: seq<O.Id>, here: bool, l: O.LoopId)
    requires forall id :: id in order ==> O.Knows(x.server, id)
    ensures At(x.pollers, l).refused <= At(LetGoAll(x, order, here).pollers, l).refused
    decreases |order|
  {
    if order != [] {
      LetGoGrows(x, order[0], here, l);
      O.LetGoKnows(x.server, order[0], here);
      LetGoAllGrows(LetGo(x, order[0], here), order[1..], here, l);
    }
  }

  lemma PutGrows(ps: Pollers, m: O.LoopId, r: Poller, l: O.LoopId)
    requires At(ps, m).refused <= r.refused
    ensures At(ps, l).refused <= At(ps[m := r], l).refused
  {
  }

  lemma ApplyGrows(x: Reactor, e: O.Event, l: O.LoopId)
    requires O.Inv(x.server) && O.Enabled(x.server, e)
    ensures At(x.pollers, l).refused <= At(Apply(x, e).pollers, l).refused
  {
    match e
    case Accept(io, fd, opts) => AcceptGrows(x, io, fd, opts, l);
    case Happen(id, ce) =>
      var m := x.server.loopOf[id];
      IssuedAllGrows(At(x.pollers, m), id, CallsOf(x.server.conns[id], ce));
      PutGrows(x.pollers, m, IssuedAll(At(x.pollers, m), id, CallsOf(x.server.conns[id], ce)), l);
    case RunHead(m) =>
      var t := x.server.Queue(m)[0];
      IssuedAllGrows(At(x.pollers, x.server.loopOf[t.id]), t.id, TaskCalls(x.server, t));
    case Release(_, id) => AttemptGrows(At(x.pollers, x.server.loopOf[id]), R.Close(id));
    case Drop(id) => AttemptGrows(At(x.pollers, x.server.loopOf[id]), R.Close(id));
    case CallBack(_) =>
    case Report(_) =>
    case Keep(_) =>
    case Destruct(order, here) => LetGoAllGrows(Reactor(x.server.(open := false), x.pollers), order, here, l);
  }

  lemma AcceptGrows(x: Reactor, io: O.LoopId, fd: int, opts: C.Options, l: O.LoopId)
    requires O.Inv(x.server) && O.Enabled(x.server, O.Accept(io, fd, opts))
    ensures At(x.pollers, l).refused <= At(Apply(x, O.Accept(io, fd, opts)).pollers, l).refused
  {
    var r := At(x.pollers, io);
    var made := Attempt(r, R.Open(x.server.nextConnId, fd));
    AttemptGrows(r, R.Open(x.server.nextConnId, fd));
    IssuedGrows(made, x.server.nextConnId, EnableReading);
    PutGrows(x.pollers, io, if io == O.BASE then Issued(made, x.server.nextConnId, EnableReading) else made, l);
  }

  lemma IssuedGrows(r: Poller, id: O.Id, call: Call)
    ensures r.refused <= Issued(r, id, call).refused
  {
  }

  ghost predicate SomeRefusal(ps: Pollers) {
    exists l :: At(ps, l).refused > 0
  }

  /** The last hold on a connection goes while its channel is still in the poller's map: that is refused. */
  lemma OrphaningIsRefused(x: Reactor, e: O.Event, id: O.Id)
    requires O.Inv(x.server) && O.Enabled(x.server, e) && O.Inv(O.Apply(x.server, e)) && AllFollow(x.server, x.pollers)
    requires id in O.Apply(x.server, e).conns && Teardown.Orphaned(O.Apply(x.server, e), id)
    requires id in x.server.conns ==> !Teardown.Orphaned(x.server, id)
    ensures id in x.server.conns && Teardown.LetsGo(e)
    ensures var r := At(x.pollers, x.server.loopOf[id]);
            && id in r.live && R.HasChannel(r, id)
            && Apply(x, e).pollers == x.pollers[x.server.loopOf[id] := r.(refused := r.refused + 1)]
  {
    Teardown.OrphanStep(x.server, e, id);
    var l := x.server.loopOf[id];
    assert Follows(x.server, x.pollers, l);
    assert R.ChannelAgrees(At(x.pollers, l), id);
  }

  /** At every moment: the pollers follow the connections until a channel is orphaned, and from then on some step was refused. */
  lemma {:induction false} RunFollows(xs: seq<Reactor>, es: seq<O.Event>, i: nat)
    requires IsRun(xs, es) && i <= |es|
    ensures O.Inv(xs[i].server)
    ensures Teardown.NoneOrphaned(xs[i].server) ==> AllFollow(xs[i].server, xs[i].pollers)
    ensures !Teardown.NoneOrphaned(xs[i].server) ==> SomeRefusal(xs[i].pollers)
  {
    if i > 0 {
      var x, e := xs[i - 1], es[i - 1];
      assert StepAt(xs, es, i - 1);
      RunFollows(xs, es, i - 1);
      O.ApplyInv(x.server, e);
      ServerApply(x, e);
      StepFollows(x, e);
    } else {
      StartFollows();
    }
  }

  lemma StartFollows()
    ensures O.Inv(O.Start()) && Teardown.NoneOrphaned(O.Start()) && AllFollow(O.Start(), map[])
  {
    forall l
      ensures Follows(O.Start(), map[], l)
    {
      assert LiveOn(O.Start(), l) == map[];
    }
  }

  lemma StepFollows(x: Reactor, e: O.Event)
    requires O.Inv(x.server) && O.Enabled(x.server, e) && O.Inv(O.Apply(x.server, e))
    requires Teardown.NoneOrphaned(x.server) ==> AllFollow(x.server, x.pollers)
    requires !Teardown.NoneOrphaned(x.server) ==> SomeRefusal(x.pollers)
    ensures Teardown.NoneOrphaned(O.Apply(x.server, e)) ==> AllFollow(O.Apply(x.server, e), Apply(x, e).pollers)
    ensures !Teardown.NoneOrphaned(O.Apply(x.server, e)) ==> SomeRefusal(Apply(x, e).pollers)
  {
    var d := O.Apply(x.server, e);
    ServerApply(x, e);
    if Teardown.NoneOrphaned(x.server) {
      if Teardown.NoneOrphaned(d) {
        ApplyFollow(x, e);
      } else {
        var id :| id in d.conns && Teardown.Orphaned(d, id);
        OrphaningIsRefused(x, e, id);
        assert At(Apply(x, e).pollers, x.server.loopOf[id]).refused > 0;
      }
    } else {
      var id :| id in x.server.conns && Teardown.Orphaned(x.server, id);
      Teardown.DestroyedStays(x.server, e, id);
      Teardown.OrphanStep(x.server, e, id);
      var l :| At(x.pollers, l).refused > 0;
      ApplyGrows(x, e, l);
    }
  }

  // ----- The promises -----

  /**
   On every run of the server, however its connections come, close and are torn down on any number of
   loops: every poller knows just the channels of the connections that exist on its loop, in their own
   states, its map and the kernel agree with them, and no step of any poller, and no epoll_ctl, was ever
   refused, if and only if no channel was orphaned.
  */
  lemma EveryLoopAgrees(xs: seq<Reactor>, es: seq<O.Event>, i: nat)
    requires IsRun(xs, es) && i <= |es|
    ensures O.Inv(xs[i].server)
    ensures (forall l {:trigger Follows(xs[i].server, xs[i].pollers, l)} ::
               Follows(xs[i].server, xs[i].pollers, l) && At(xs[i].pollers, l).refused == 0)
            <==> Teardown.NoneOrphaned(xs[i].server)
    ensures !SomeRefusal(xs[i].pollers) <==> Teardown.NoneOrphaned(xs[i].server)
  {
    RunFollows(xs, es, i);
    var s, ps := xs[i].server, xs[i].pollers;
    if Teardown.NoneOrphaned(s) {
      forall l
        ensures Follows(s, ps, l) && At(ps, l).refused == 0
      {
        assert Follows(s, ps, l);
      }
    } else {
      var l :| At(ps, l).refused > 0;
      assert Follows(s, ps, l) ==> At(ps, l).refused == 0;
    }
  }

  /** And a channel is orphaned if and only if a send or a drain that ran after connectDestroyed put it back into the poller. */
  lemma OrphanedExactly(xs: seq<Reactor>, es: seq<O.Event>, ss: seq<O.Server>, i: nat, id: O.Id)
    requires IsRun(xs, es) && |ss| == |xs| && (forall k :: 0 <= k < |ss| ==> ss[k] == xs[k].server)
    requires i <= |es| && id in xs[i].server.conns && !O.Held(xs[i].server, id)
    ensures O.Knows(xs[i].server, id)
    ensures Teardown.Orphaned(xs[i].server, id) <==> Teardown.RevivedSince(ss, es, i, id)
  {
    ServersRun(xs, es, ss);
    Teardown.OwnershipAcrossTeardown(ss, es, i, id);
  }

  /** The server's part of a run is a run of the server ... */
  lemma ServersRun(xs: seq<Reactor>, es: seq<O.Event>, ss: seq<O.Server>)
    requires IsRun(xs, es) && |ss| == |xs| && forall i :: 0 <= i < |ss| ==> ss[i] == xs[i].server
    ensures O.IsRun(ss, es)
  {
    forall i | 0 <= i < |es|
      ensures O.StepAt(ss, es, i)
    {
      assert StepAt(xs, es, i);
      RunFollows(xs, es, i);
      ServerApply(xs[i], es[i]);
    }
  }

  /** ... and every run of the server is the server's part of one. */
  lemma {:induction false} ServersHavePollers(ss: seq<O.Server>, es: seq<O.Event>) returns (xs: seq<Reactor>)
    requires O.IsRun(ss, es)
    ensures IsRun(xs, es) && forall i :: 0 <= i < |ss| ==> xs[i].server == ss[i]
    decreases |es|
  {
    var n := |es| - 1;
    if es == [] {
      xs := [Reactor(O.Start(), map[])];
    } else {
      var before, events := ss[..n + 1], es[..n];
      forall i | 0 <= i < n
        ensures O.StepAt(before, events, i)
      {
        assert O.StepAt(ss, es, i);
      }
      var front := ServersHavePollers(before, events);
      assert O.StepAt(ss, es, n);
      RunFollows(front, events, n);
      ServerApply(front[n], es[n]);
      xs := front + [Apply(front[n], es[n])];
      assert es == events + [es[n]];
      RunGoesOn(front, events, es[n]);
    }
  }

  lemma RunGoesOn(xs: seq<Reactor>, es: seq<O.Event>, e: O.Event)
    requires IsRun(xs, es) && O.MapInv(xs[|es|].server) && O.Enabled(xs[|es|].server, e)
    ensures IsRun(xs + [Apply(xs[|es|], e)], es + [e])
  {
    var more, events := xs + [Apply(xs[|es|], e)], es + [e];
    forall i | 0 <= i < |events|
      ensures StepAt(more, events, i)
    {
      assert i < |es| ==> StepAt(xs, es, i);
    }
  }

  /** What the kernel watches on one loop. */
  ghost predicate Watched(r: Poller, id: O.Id, c: C.Conn) {
    c.channel.fd in r.kernel && r.kernel[c.channel.fd] == R.Interest(id, c.channel.events)
  }

  /**
   So, as long as no channel is orphaned, the kernel watches, on its loop, a connection that exists if and
   only if its channel is registered, and then for the interest it has; every live one that no late
   shutdown reopened; and one with pending bytes for EPOLLOUT, if and only if no late shutdown left them
   stranded.
  */
  lemma LiveConnectionsAreWatched(xs: seq<Reactor>, es: seq<O.Event>, i: nat, id: O.Id)
    requires IsRun(xs, es) && i <= |es| && id in xs[i].server.conns
    ensures O.Inv(xs[i].server) && id in xs[i].server.loopOf
    ensures var s, c := xs[i].server, xs[i].server.conns[id];
            Teardown.NoneOrphaned(s) ==>
              var r := At(xs[i].pollers, s.loopOf[id]);
              && (O.Held(s, id) ==> (Watched(r, id, c) <==> c.Registered()))
              && (c.Alive() && !c.late ==> Watched(r, id, c))
              && (c.Alive() && c.output != [] ==> (Watched(r, id, c) && Out in r.kernel[c.channel.fd].mask <==> !T.Stranded(c)))
  {
    RunFollows(xs, es, i);
    var s := xs[i].server;
    if Teardown.NoneOrphaned(s) {
      var r := At(xs[i].pollers, s.loopOf[id]);
      assert Follows(s, xs[i].pollers, s.loopOf[id]) && O.Sound(s, id);
      O.LivedInv(s.conns[id]);
      O.HeldBySeat(s, id);
      if O.Held(s, id) {
        assert R.ChannelAgrees(r, id);
      }
    }
  }

  /**
   And it watches nothing else: whatever is in a loop's list belongs to a connection that exists on that
   loop and is registered: not destroyed, or put back by a send or a drain after connectDestroyed.
  */
  lemma NothingElseIsWatched(xs: seq<Reactor>, es: seq<O.Event>, i: nat, l: O.LoopId, fd: int)
    requires IsRun(xs, es) && i <= |es| && fd in At(xs[i].pollers, l).kernel
    ensures O.Inv(xs[i].server)
    ensures var s, id := xs[i].server, At(xs[i].pollers, l).kernel[fd].id;
            Teardown.NoneOrphaned(s) ==>
              && id in s.conns && id in s.loopOf && s.loopOf[id] == l && O.Held(s, id)
              && s.conns[id].channel.fd == fd && s.conns[id].Registered()
  {
    RunFollows(xs, es, i);
    var s, r := xs[i].server, At(xs[i].pollers, l);
    if Teardown.NoneOrphaned(s) {
      assert Follows(s, xs[i].pollers, l);
      var id := r.kernel[fd].id;
      assert id in r.live && R.ChannelAgrees(r, id);
    }
  }
}
