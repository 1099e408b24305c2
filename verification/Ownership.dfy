/**
 Who keeps a connection alive: the server's map, the functors queued on its loops, and the life of each
 connection between them, as TcpServer.cpp hands it from one loop to another and back.
*/
module Ownership {
  import ChannelStates
  import C = Connections
  import T = ConnectionTheorems
  import R = ConnectionRuns

  type Id = nat
  type LoopId = nat
  const BASE: LoopId := 0

  /** The functors that hold a reference to a connection and take part in its life. */
  datatype Task =
    | Establish(id: Id)       // connectEstablished, on the connection's loop
    | Remove(id: Id)          // removeConnectionInLoop, on the base loop
    | Destroy(id: Id)         // connectDestroyed, on the connection's loop

  type Queues = map<LoopId, seq<Task>>

  datatype Server = Server(
    open: bool,                          // not yet destructed
    nextConnId: nat,
    connections: set<Id>,                // connections_; names are told apart by the number in them
    loopOf: map<Id, LoopId>,
    conns: map<Id, C.Conn>,              // every connection ever accepted
    queues: Queues,
    lingering: set<(LoopId, Id)>,        // held by functors that have run, in the batch their loop has not dropped yet
    closing: set<Id>,                    // in handleClose, behind the down callback and before the close callback
    kept: set<Id>,                       // held by anything else: the application, a callback, a dispatch
    due: set<Id>,                        // in a dispatch of their channel whose write event is still to come
    letGo: set<Id>,                      // history: those the destructor let go of
    ended: map<Id, nat>                  // history: how often connectDestroyed has run
  ) {
    function Queue(l: LoopId): seq<Task> {
      At(queues, l)
    }

    function Queued(l: LoopId, t: Task): Server {
      this.(queues := Appended(queues, l, t))
    }

    function With(id: Id, c: C.Conn): Server {
      this.(conns := conns[id := c])
    }

    /** connectDestroyed of one connection. */
    function Destroyed(id: Id): Server
      requires id in conns && id in ended
    {
      this.(conns := conns[id := C.ConnectDestroyed(conns[id])], ended := ended[id := ended[id] + 1])
    }
  }

  /** The functors waiting on a loop, in order. */
  function At(qs: Queues, l: LoopId): seq<Task> {
    if l in qs then qs[l] else []
  }

  function Appended(qs: Queues, l: LoopId, t: Task): Queues {
    qs[l := At(qs, l) + [t]]
  }

  function Popped(qs: Queues, l: LoopId): Queues
    requires At(qs, l) != []
  {
    qs[l := At(qs, l)[1..]]
  }

  function Start(): Server {
    Server(true, 1, {}, map[], map[], map[], {}, {}, {}, {}, {}, map[])
  }

  /** The new connection, named by the map, before connectEstablished. */
  function Made(s: Server, io: LoopId, fd: int, opts: C.Options): Server {
    var id := s.nextConnId;
    s.(nextConnId := id + 1, connections := s.connections + {id}, loopOf := s.loopOf[id := io],
       conns := s.conns[id := C.Fresh(fd, opts)], ended := s.ended[id := 0])
  }

  /** newConnection: connectEstablished runs at once on the base loop, and is queued on any other. */
  function NewConnection(s: Server, io: LoopId, fd: int, opts: C.Options): Server {
    var made := Made(s, io, fd, opts);
    if io == BASE then made.With(s.nextConnId, C.ConnectEstablished(C.Fresh(fd, opts)))
    else made.Queued(io, Establish(s.nextConnId))
  }

  function RemoveConnectionInLoop(s: Server, id: Id): Server
    requires id in s.loopOf
  {
    s.(connections := s.connections - {id}).Queued(s.loopOf[id], Destroy(id))
  }

  /** What the close callback of a connection does, called on the connection's own loop. */
  function RemoveConnection(s: Server, id: Id): Server
    requires id in s.loopOf
  {
    if s.loopOf[id] == BASE then RemoveConnectionInLoop(s, id) else s.Queued(BASE, Remove(id))
  }

  predicate Knows(s: Server, id: Id) {
    id in s.loopOf && id in s.conns && id in s.ended
  }

  /**
   The destructor's treatment of one connection: connectDestroyed through runInLoop. here: the destructor
   runs on the base loop's thread, and not on one that is no loop's.
  */
  function LetGo(s: Server, id: Id, here: bool): Server
    requires Knows(s, id)
  {
    var gone := s.(connections := s.connections - {id}, letGo := s.letGo + {id});
    if s.loopOf[id] == BASE && here then gone.Destroyed(id) else gone.Queued(s.loopOf[id], Destroy(id))
  }

  function LetGoAll(s: Server, order: seq<Id>, here: bool): Server
    requires forall id :: id in order ==> Knows(s, id)
    decreases |order|
  {
    if order == [] then s
    else
      assert forall id :: id in order[1..] ==> Knows(s, id);
      LetGoAll(LetGo(s, order[0], here), order[1..], here)
  }

  /** The head of a loop's queue is taken off it; its batch goes on holding the connection. */
  function Taken(s: Server, l: LoopId): Server
    requires s.Queue(l) != []
  {
    s.(queues := Popped(s.queues, l), lingering := s.lingering + {(l, s.Queue(l)[0].id)})
  }

  function RunTask(s: Server, t: Task): Server
    requires Knows(s, t.id)
  {
    match t
    case Establish(id) => s.With(id, C.ConnectEstablished(s.conns[id]))
    case Remove(id) => RemoveConnectionInLoop(s, id)
    case Destroy(id) => s.Destroyed(id)
  }

  datatype Event =
    | Accept(io: LoopId, fd: int, opts: C.Options)
    | Happen(id: Id, e: C.Event)           // anything else that happens to a connection
    | CallBack(id: Id)                     // handleClose calls the close callback
    | Report(id: Id)                       // a poll finds a connection readable and writable, and its dispatch begins
    | Keep(id: Id)                         // the application keeps a pointer to a connection ...
    | Drop(id: Id)                         // ... and the last such pointer, callback or dispatch lets go of it
    | RunHead(l: LoopId)                   // a loop runs the functor at the head of its queue
    | Release(l: LoopId, id: Id)           // a loop drops its batch, and with it its hold on a connection
    | Destruct(order: seq<Id>, here: bool) // ~TcpServer, walking its map in some order

  /** Some reference to the connection exists. */
  ghost predicate Held(s: Server, id: Id) {
    || id in s.connections || id in s.kept || id in s.closing
    || (exists l, t :: t in s.Queue(l) && t.id == id) || exists l :: (l, id) in s.lingering
  }

  predicate Polled(e: C.Event) {
    e.Readable? || e.Writable? || e.HangUp?
  }

  /** Done by the connection's loop itself, and not by the application on its thread. */
  predicate ByLoop(e: C.Event) {
    Polled(e) || e.RunSend? || e.RunShutdown?
  }

  /**
   What the thread that takes the step is free to do: a loop is not in two places, and a thread comes into
   send() or shutdown() by a pointer that it keeps. What a poll reports comes when the loop is not in the
   middle of a batch.
  */
  predicate InTurn(s: Server, id: Id, e: C.Event)
    requires id in s.conns && id in s.loopOf
  {
    && (Polled(e) ==> (s.loopOf[id], id) !in s.lingering)
    && (ByLoop(e) ==> id !in s.closing)
    && R.InTurn(s.conns[id], e, id in s.due)
    && (e.BeginSend? || e.BeginShutdown? ==> id in s.kept)
  }

  ghost predicate NoDup<X>(q: seq<X>) {
    forall i, j :: 0 <= i < j < |q| ==> q[i] != q[j]
  }

  /**
   A new descriptor is one no existing connection has. Connections have their events whenever they like as
   long as they are held, also after connectDestroyed, and also when the server is gone; then the close
   callback finds its map empty. Whoever holds a connection other than by the batch of its loop may keep a
   pointer to it; a thread inside send() or shutdown(), and a dispatch with a write event to come, do not
   drop theirs.
  */
  ghost predicate Enabled(s: Server, e: Event) {
    match e
    case Accept(_, fd, _) => s.open && forall id :: id in s.conns && Held(s, id) ==> s.conns[id].channel.fd != fd
    case Happen(id, ce) =>
      Knows(s, id) && Held(s, id) && !ce.Establish? && !ce.Destroy? && C.Enabled(s.conns[id], ce) && InTurn(s, id, ce)
    case CallBack(id) => Knows(s, id) && id in s.closing
    case Report(id) =>
      && Knows(s, id) && Held(s, id) && (s.loopOf[id], id) !in s.lingering && id !in s.closing && id !in s.due
      && s.conns[id].Registered() && s.conns[id].Writing()
    case Keep(id) => Knows(s, id) && SeatOf(s, id).Elsewhere()
    case Drop(id) => Knows(s, id) && id in s.kept && id !in s.due && !R.Inside(s.conns[id])
    case RunHead(l) => s.Queue(l) != [] && Knows(s, s.Queue(l)[0].id)
    case Release(l, id) => (l, id) in s.lingering
    case Destruct(order, _) =>
      && s.open
      && (forall id :: id in order <==> id in s.connections)
      && NoDup(order)
      && (forall id :: id in order ==> Knows(s, id))
  }

  /**
   A connection after a step. One that closed it leads to the close callback; a callback that it queued holds
   the connection; a write event was what its dispatch had left to do.
  */
  function Put(s: Server, id: Id, c: C.Conn, closed: bool, queued: bool, written: bool): Server {
    s.With(id, c).(closing := if closed then s.closing + {id} else s.closing,
                   kept := if queued then s.kept + {id} else s.kept,
                   due := if written then s.due - {id} else s.due)
  }

  ghost function Stepped(s: Server, id: Id, e: C.Event): Server
    requires id in s.conns && C.Enabled(s.conns[id], e)
  {
    var c := s.conns[id];
    Put(s, id, C.Apply(c, e), C.Closes(c, e), R.QueuesCallback(c, e), e.Writable?)
  }

  ghost function Apply(s: Server, e: Event): Server
    requires Enabled(s, e)
  {
    match e
    case Accept(io, fd, opts) => NewConnection(s, io, fd, opts)
    case Happen(id, ce) => Stepped(s, id, ce)
    case CallBack(id) => RemoveConnection(s.(closing := s.closing - {id}), id)
    case Report(id) => s.(kept := s.kept + {id}, due := s.due + {id})
    case Keep(id) => s.(kept := s.kept + {id})
    case Drop(id) => s.(kept := s.kept - {id})
    case RunHead(l) => RunTask(Taken(s, l), s.Queue(l)[0])
    case Release(l, id) => s.(lingering := s.lingering - {(l, id)})
    case Destruct(order, here) => LetGoAll(s.(open := false), order, here)
  }

  ghost predicate StepAt(ss: seq<Server>, es: seq<Event>, i: nat)
    requires i < |es| && |ss| == |es| + 1
  {
    Enabled(ss[i], es[i]) && ss[i + 1] == Apply(ss[i], es[i])
  }

  ghost predicate IsRun(ss: seq<Server>, es: seq<Event>) {
    && |ss| == |es| + 1
    && ss[0] == Start()
    && forall i :: 0 <= i < |es| ==> StepAt(ss, es, i)
  }

  // ----- Queues -----

  /** The calls to one connection that wait in a queue, in order. */
  function Calls(q: seq<Task>, id: Id): seq<Task> {
    if q == [] then [] else Mine(q[0], id) + Calls(q[1..], id)
  }

  function Mine(t: Task, id: Id): seq<Task> {
    if t.id == id && !t.Remove? then [t] else []
  }

  function Removes(q: seq<Task>, id: Id): nat {
    if q == [] then 0 else (if q[0] == Remove(id) then 1 else 0) + Removes(q[1..], id)
  }

  lemma Regroup(a: seq<Task>, b: seq<Task>, c: seq<Task>)
    ensures (a + b) + c == a + (b + c)
  {
  }

  lemma OneCall(t: Task, id: Id)
    ensures Calls([t], id) == Mine(t, id)
  {
    assert Calls([t][1..], id) == [];
  }

  lemma {:induction false} AddedCalls(q: seq<Task>, t: Task, id: Id)
    ensures Calls(q + [t], id) == Calls(q, id) + Mine(t, id)
  {
    if q == [] {
      OneCall(t, id);
      assert [] + [t] == [t];
    } else {
      AddedCalls(q[1..], t, id);
      Regroup(Mine(q[0], id), Calls(q[1..], id), Mine(t, id));
      assert (q + [t])[1..] == q[1..] + [t];
    }
  }

  lemma {:induction false} AddedRemoves(q: seq<Task>, t: Task, id: Id)
    ensures Removes(q + [t], id) == Removes(q, id) + if t == Remove(id) then 1 else 0
  {
    if q == [] {
      assert [] + [t] == [t] && [t][1..] == [];
    } else {
      AddedRemoves(q[1..], t, id);
      assert (q + [t])[1..] == q[1..] + [t];
    }
  }

  lemma {:induction false} NoCalls(q: seq<Task>, id: Id)
    requires forall t :: t in q ==> t.id != id
    ensures Calls(q, id) == [] && Removes(q, id) == 0
  {
    if q != [] {
      assert q[0] in q;
      NoCalls(q[1..], id);
    }
  }

  lemma {:induction false} CallsAre(q: seq<Task>, id: Id)
    ensures forall t :: t in Calls(q, id) <==> t in q && t.id == id && !t.Remove?
    ensures Removes(q, id) > 0 <==> Remove(id) in q
  {
    if q != [] {
      CallsAre(q[1..], id);
      assert q == [q[0]] + q[1..];
    }
  }

  /** Tasks name known connections and wait on the right loop. */
  ghost predicate Orderly(qs: Queues, loopOf: map<Id, LoopId>) {
    forall l, t :: t in At(qs, l) ==> t.id in loopOf && l == if t.Remove? then BASE else loopOf[t.id]
  }

  lemma AddedOrderly(qs: Queues, loopOf: map<Id, LoopId>, l: LoopId, t: Task)
    requires Orderly(qs, loopOf) && t.id in loopOf && l == if t.Remove? then BASE else loopOf[t.id]
    ensures Orderly(Appended(qs, l, t), loopOf)
  {
    assert forall m :: At(Appended(qs, l, t), m) == if m == l then At(qs, l) + [t] else At(qs, m);
  }

  lemma PoppedOrderly(qs: Queues, loopOf: map<Id, LoopId>, l: LoopId)
    requires Orderly(qs, loopOf) && At(qs, l) != []
    ensures Orderly(Popped(qs, l), loopOf)
  {
    assert forall m :: At(Popped(qs, l), m) == if m == l then At(qs, l)[1..] else At(qs, m);
    assert forall t :: t in At(qs, l)[1..] ==> t in At(qs, l);
  }

  // ----- The invariant -----

  /** What matters of a connection to those who hold it. */
  datatype Seat = Seat(
    connecting: bool,
    destroyed: bool,
    closings: nat,           // how often it has closed
    closing: bool,           // the close callback of the last of these is to come
    io: LoopId,
    named: bool,
    open: bool,
    letGo: bool,
    ended: nat,
    removes: nat,            // its removeConnectionInLoop waiting on the base loop
    calls: seq<Task>,        // its connectEstablished and connectDestroyed waiting on its own
    inBatch: bool,           // its own loop is still in a batch that has run a functor of it
    atBase: bool,            // so is the base loop, which is another
    kept: bool,
    due: bool,
    inside: bool             // some thread is inside send() or shutdown()
  ) {
    predicate Held() {
      Elsewhere() || inBatch
    }

    /** Held by more than the batch its own loop is in. */
    predicate Elsewhere() {
      named || removes > 0 || calls != [] || atBase || kept || closing
    }

    function Destroys(): int {
      |calls| - if connecting then 1 else 0
    }
  }

  function SeatOf(s: Server, id: Id): Seat
    requires Knows(s, id)
  {
    var c := s.conns[id];
    Seat(c.state == C.Connecting, c.destroyed, C.Count(c.notes, C.Closed), id in s.closing, s.loopOf[id], id in s.connections, s.open,
         id in s.letGo, s.ended[id], Removes(s.Queue(BASE), id), Calls(s.Queue(s.loopOf[id]), id),
         (s.loopOf[id], id) in s.lingering, s.loopOf[id] != BASE && (BASE, id) in s.lingering,
         id in s.kept, id in s.due, R.Inside(c))
  }

  /**
   The life of one connection. Every close and the destructor's letting go lead, through a removal when
   the connection lives on another loop, to one connectDestroyed each; and none of these is ever lost.
  */
  ghost predicate Life(id: Id, x: Seat) {
    && (x.connecting ==> x.calls != [] && x.io != BASE && !x.destroyed)
    && (forall i :: 0 <= i < |x.calls| ==> x.calls[i] == if i == 0 && x.connecting then Establish(id) else Destroy(id))
    && (x.named ==> x.Destroys() == 0 && !x.destroyed && !x.letGo)
    && (!x.named && !x.destroyed ==> x.Destroys() > 0)
    && (x.named && x.closings > 0 ==> x.removes > 0 || x.closing)
    && (x.open && !x.named ==> x.closings > 0)
    && (x.letGo ==> !x.open && x.Destroys() + x.ended >= 1)
    && (x.removes > 0 ==> x.io != BASE)
    && x.closings + (if x.letGo then 1 else 0) == x.removes + x.Destroys() + x.ended + (if x.closing then 1 else 0)
    && (x.destroyed <==> x.ended > 0)
    && (x.inBatch && x.io == BASE ==> x.ended > 0)
    && (x.inside || x.due ==> x.kept && !x.connecting)
    && (x.closing ==> !x.connecting && x.closings > 0)
  }

  ghost predicate LifeInv(s: Server, id: Id)
    requires Knows(s, id)
  {
    Life(id, SeatOf(s, id))
  }

  ghost predicate MapInv(s: Server) {
    && s.loopOf.Keys == s.conns.Keys == s.ended.Keys
    && s.connections <= s.conns.Keys && s.letGo <= s.conns.Keys
    && s.closing <= s.conns.Keys && s.kept <= s.conns.Keys && s.due <= s.conns.Keys
    && (forall id :: id in s.conns ==> id < s.nextConnId)
    && Orderly(s.queues, s.loopOf)
    && (forall l, id :: (l, id) in s.lingering ==> id in s.loopOf && (l == BASE || l == s.loopOf[id]))
  }

  /** Connections that still exist have fds of their own. */
  ghost predicate FdInv(s: Server)
    requires MapInv(s)
  {
    forall a, b {:trigger FdsApart(s, a, b)} :: a in s.conns && b in s.conns && a != b ==> FdsApart(s, a, b)
  }

  ghost predicate FdsApart(s: Server, a: Id, b: Id)
    requires Knows(s, a) && Knows(s, b)
  {
    SeatOf(s, a).Held() && SeatOf(s, b).Held() ==> s.conns[a].channel.fd != s.conns[b].channel.fd
  }

  /** The connection has lived through some run of its own. */
  ghost predicate Lived(c: C.Conn) {
    exists cs, es :: C.IsRun(cs, es) && cs[|es|] == c
  }

  ghost predicate Sound(s: Server, id: Id)
    requires Knows(s, id)
  {
    LifeInv(s, id) && Lived(s.conns[id])
  }

  ghost predicate AllSound(s: Server)
    requires MapInv(s)
  {
    forall id {:trigger Sound(s, id)} :: id in s.conns ==> Sound(s, id)
  }

  ghost predicate Inv(s: Server) {
    && MapInv(s) && FdInv(s) && AllSound(s)
    && (!s.open ==> s.connections == {})
  }

  /** Inv in the middle of the destructor's loop, when the map is not empty yet. */
  ghost predicate Walking(s: Server) {
    MapInv(s) && FdInv(s) && AllSound(s) && !s.open
  }

  lemma HeldBySeat(s: Server, id: Id)
    requires MapInv(s) && id in s.conns
    ensures Held(s, id) <==> SeatOf(s, id).Held()
  {
    var io := s.loopOf[id];
    CallsAre(s.Queue(BASE), id);
    CallsAre(s.Queue(io), id);
    if SeatOf(s, id).calls != [] {
      var t := SeatOf(s, id).calls[0];
      assert t in s.Queue(io) && t.id == id;
    }
    if Remove(id) in s.Queue(BASE) {
      assert Remove(id).id == id;
    }
    forall l, t | t in s.Queue(l) && t.id == id
      ensures SeatOf(s, id).Held()
    {
      assert t in At(s.queues, l);
    }
  }

  // ----- What a connection's own steps leave to its owners -----

  lemma LivedStep(c: C.Conn, e: C.Event)
    requires Lived(c) && C.Enabled(c, e)
    ensures Lived(C.Apply(c, e)) && T.Inv(c) && T.Inv(C.Apply(c, e))
  {
    var cs, es :| C.IsRun(cs, es) && cs[|es|] == c;
    var more, events := R.OneMore(cs, es, e);
    assert more[|events|] == C.Apply(c, e);
    T.RunInv(cs, es, |es|);
    T.ApplyInv(c, e);
  }

  lemma LivedInv(c: C.Conn)
    requires Lived(c)
    ensures T.Inv(c)
  {
    var cs, es :| C.IsRun(cs, es) && cs[|es|] == c;
    T.RunInv(cs, es, |es|);
  }

  lemma FreshLived(fd: int, opts: C.Options)
    ensures Lived(C.Fresh(fd, opts))
  {
    var es: seq<C.Event> := [];
    assert C.IsRun([C.Fresh(fd, opts)], es) && [C.Fresh(fd, opts)][|es|] == C.Fresh(fd, opts);
  }

  ghost predicate SameToOwners(c: C.Conn, d: C.Conn) {
    && (d.state == C.Connecting <==> c.state == C.Connecting) && d.destroyed == c.destroyed
    && d.channel.fd == c.channel.fd
  }

  /** A step closes, or lets a thread into send() or shutdown(), or leaves the owners nothing to see. */
  lemma OwnStep(c: C.Conn, e: C.Event)
    requires Lived(c) && C.Enabled(c, e) && !e.Establish? && !e.Destroy?
    ensures var d := C.Apply(c, e);
            && Lived(d) && SameToOwners(c, d)
            && (R.Inside(d) ==> R.Inside(c) || e.BeginSend? || e.BeginShutdown?)
            && ((e.BeginSend? || e.BeginShutdown?) ==> c.state != C.Connecting)
            && (C.Closes(c, e) && !ByLoop(e) ==> C.Count(c.notes, C.Closed) == 0)
            && C.Count(d.notes, C.Closed) == C.Count(c.notes, C.Closed) + (if C.Closes(c, e) then 1 else 0)
            && (C.Closes(c, e) ==> c.state != C.Connecting)
  {
    LivedStep(c, e);
    R.StepFrame(c, e);
    R.DownStep(c, e);
    R.InsideStep(c, e);
    if C.Closes(c, e) {
      T.CloserIsAlive(c, e);
    }
    if c.state == C.Connecting {
      R.ConnectingStep(c, e);
    }
  }

  lemma EstablishStep(c: C.Conn)
    requires Lived(c) && c.state == C.Connecting
    ensures var d := C.ConnectEstablished(c);
            && Lived(d) && d.state == C.Connected && !d.destroyed && d.channel.fd == c.channel.fd && !R.Inside(d)
            && C.Count(d.notes, C.Closed) == 0 && C.Count(c.notes, C.Closed) == 0
  {
    LivedStep(c, C.Event.Establish);
    R.DownStep(c, C.Event.Establish);
  }

  /** The first connectDestroyed destroys; any other only removes the channel again. */
  lemma DestroyStep(c: C.Conn)
    requires Lived(c) && c.state != C.Connecting
    ensures var d := C.ConnectDestroyed(c);
            && Lived(d) && d.state != C.Connecting && d.destroyed && d.channel.fd == c.channel.fd
            && d.channel.index == ChannelStates.New && R.Inside(d) == R.Inside(c)
            && C.Count(d.notes, C.Closed) == C.Count(c.notes, C.Closed)
            && (c.destroyed ==> d == c.(channel := d.channel))
  {
    LivedStep(c, C.Event.Destroy);
    R.DownStep(c, C.Event.Destroy);
  }

  // ----- One step -----

  /** d differs from s only in what concerns one connection, which may be new, and in nothing to its owners' surprise. */
  ghost predicate Near(s: Server, d: Server, id: Id)
    requires MapInv(s) && MapInv(d)
  {
    && d.conns.Keys == s.conns.Keys + {id} && d.open == s.open
    && (forall other {:trigger Unmoved(s, d, other)} :: other in s.conns && other != id ==> Unmoved(s, d, other))
  }

  ghost predicate Unmoved(s: Server, d: Server, other: Id)
    requires Knows(s, other) && Knows(d, other)
  {
    d.conns[other] == s.conns[other] && SeatOf(d, other) == SeatOf(s, other)
  }

  ghost predicate FdKept(s: Server, d: Server, id: Id)
    requires MapInv(s) && MapInv(d) && id in d.conns
  {
    if id in s.conns then SeatOf(s, id).Held() && d.conns[id].channel.fd == s.conns[id].channel.fd
    else forall other :: other in s.conns && SeatOf(s, other).Held() ==> d.conns[id].channel.fd != s.conns[other].channel.fd
  }

  lemma NearFd(s: Server, d: Server, id: Id)
    requires MapInv(s) && FdInv(s) && MapInv(d) && Near(s, d, id) && FdKept(s, d, id)
    ensures FdInv(d)
  {
    forall a, b | a in d.conns && b in d.conns && a != b
      ensures FdsApart(d, a, b)
    {
      assert a != id ==> Unmoved(s, d, a);
      assert b != id ==> Unmoved(s, d, b);
      if a in s.conns && b in s.conns {
        assert FdsApart(s, a, b);
      }
    }
  }

  lemma NearLives(s: Server, d: Server, id: Id)
    requires MapInv(s) && AllSound(s) && MapInv(d) && Near(s, d, id) && id in d.conns && Sound(d, id)
    ensures AllSound(d)
  {
    forall other | other in d.conns
      ensures Sound(d, other)
    {
      if other != id {
        assert Unmoved(s, d, other) && Sound(s, other);
      }
    }
  }

  lemma NearInv(s: Server, d: Server, id: Id)
    requires Inv(s) && MapInv(d) && Near(s, d, id) && id in d.conns && FdKept(s, d, id)
    requires Sound(d, id)
    requires !d.open ==> d.connections == {}
    ensures Inv(d)
  {
    NearFd(s, d, id);
    NearLives(s, d, id);
  }

  /** The seats of others when one task comes or goes. */
  lemma OtherSeatsAdded(s: Server, l: LoopId, t: Task, other: Id)
    requires Knows(s, other) && other != t.id
    ensures SeatOf(s.Queued(l, t), other) == SeatOf(s, other)
  {
    AddedAt(s.queues, l, t, BASE, other);
    AddedAt(s.queues, l, t, s.loopOf[other], other);
  }

  lemma OtherSeatsPopped(s: Server, l: LoopId, other: Id)
    requires Knows(s, other) && At(s.queues, l) != [] && At(s.queues, l)[0].id != other
    ensures SeatOf(Taken(s, l), other) == SeatOf(s, other)
  {
  }

  /** The seat of the one a task is queued for. */
  lemma SeatQueued(s: Server, l: LoopId, t: Task)
    requires Knows(s, t.id) && l == if t.Remove? then BASE else s.loopOf[t.id]
    ensures SeatOf(s.Queued(l, t), t.id) == if t.Remove? then Awaited(SeatOf(s, t.id)) else Called(SeatOf(s, t.id), t)
  {
    AddedAt(s.queues, l, t, BASE, t.id);
    AddedAt(s.queues, l, t, s.loopOf[t.id], t.id);
  }

  lemma AddedAt(qs: Queues, l: LoopId, t: Task, m: LoopId, id: Id)
    ensures Calls(At(Appended(qs, l, t), m), id)
            == if m == l && t.id == id && !t.Remove? then Calls(At(qs, m), id) + [t] else Calls(At(qs, m), id)
    ensures Removes(At(Appended(qs, l, t), m), id) == Removes(At(qs, m), id) + if m == l && t == Remove(id) then 1 else 0
  {
    if m == l {
      AddedCalls(At(qs, l), t, id);
      AddedRemoves(At(qs, l), t, id);
      assert At(Appended(qs, l, t), m) == At(qs, l) + [t];
    } else {
      assert At(Appended(qs, l, t), m) == At(qs, m);
    }
  }

  function Awaited(x: Seat): Seat {
    x.(removes := x.removes + 1)
  }

  function Called(x: Seat, t: Task): Seat {
    x.(calls := x.calls + [t])
  }

  // New connections

  lemma NobodyWaits(s: Server, id: Id, l: LoopId)
    requires MapInv(s) && id !in s.conns
    ensures Calls(At(s.queues, l), id) == [] && Removes(At(s.queues, l), id) == 0
  {
    assert forall t :: t in At(s.queues, l) ==> t.id != id;
    NoCalls(At(s.queues, l), id);
  }

  lemma MadeNear(s: Server, io: LoopId, fd: int, opts: C.Options)
    requires MapInv(s)
    ensures var d := Made(s, io, fd, opts); MapInv(d) && Near(s, d, s.nextConnId)
  {
    var d := Made(s, io, fd, opts);
    assert s.nextConnId !in s.conns;
  }

  lemma QueuedNear(s: Server, d: Server, id: Id, l: LoopId, t: Task)
    requires MapInv(s) && MapInv(d) && Near(s, d, id) && id in d.conns && t.id == id
    requires l == if t.Remove? then BASE else d.loopOf[id]
    ensures MapInv(d.Queued(l, t)) && Near(s, d.Queued(l, t), id)
  {
    AddedOrderly(d.queues, d.loopOf, l, t);
    var f := d.Queued(l, t);
    forall other | other in s.conns && other != id
      ensures Unmoved(s, f, other)
    {
      assert Unmoved(s, d, other);
      OtherSeatsAdded(d, l, t, other);
    }
  }

  ghost predicate SameBut(a: set<Id>, b: set<Id>, id: Id) {
    forall other :: other != id ==> (other in a <==> other in b)
  }

  lemma SameNear(s: Server, d: Server, id: Id)
    requires MapInv(s) && id in s.conns
    requires d == s.(connections := d.connections, conns := d.conns, closing := d.closing, kept := d.kept, due := d.due,
                     letGo := d.letGo, ended := d.ended)
    requires d.conns.Keys == s.conns.Keys && d.ended.Keys == s.ended.Keys
    requires forall other :: other in s.conns && other != id ==>
               d.conns[other] == s.conns[other] && d.ended[other] == s.ended[other]
    requires SameBut(s.connections, d.connections, id) && SameBut(s.letGo, d.letGo, id) && SameBut(s.closing, d.closing, id)
    requires SameBut(s.kept, d.kept, id) && SameBut(s.due, d.due, id)
    ensures MapInv(d) && Near(s, d, id)
  {
  }

  lemma PoppedNear(s: Server, l: LoopId)
    requires MapInv(s) && At(s.queues, l) != [] && At(s.queues, l)[0].id in s.conns
    ensures MapInv(Taken(s, l)) && Near(s, Taken(s, l), At(s.queues, l)[0].id)
  {
    var d := Taken(s, l);
    assert At(s.queues, l)[0] in At(s.queues, l);
    var id := At(s.queues, l)[0].id;
    PoppedOrderly(s.queues, s.loopOf, l);
    forall other | other in s.conns && other != id
      ensures Unmoved(s, d, other)
    {
      OtherSeatsPopped(s, l, other);
    }
  }

  lemma NearTrans(s: Server, m: Server, d: Server, id: Id)
    requires MapInv(s) && MapInv(m) && MapInv(d) && Near(s, m, id) && Near(m, d, id)
    ensures Near(s, d, id)
  {
    forall other | other in s.conns && other != id
      ensures Unmoved(s, d, other)
    {
      assert Unmoved(s, m, other) && Unmoved(m, d, other);
    }
  }

  // Accepting

  /** One that the map names and that is up, of a server that is open. */
  function NewSeat(io: LoopId): Seat {
    Seat(false, false, 0, false, io, true, true, false, 0, 0, [], false, false, false, false, false)
  }

  lemma AcceptHere(s: Server, fd: int, opts: C.Options)
    requires Inv(s) && Enabled(s, Accept(BASE, fd, opts))
    ensures Inv(NewConnection(s, BASE, fd, opts)) && Near(s, NewConnection(s, BASE, fd, opts), s.nextConnId)
    ensures SeatOf(NewConnection(s, BASE, fd, opts), s.nextConnId) == NewSeat(BASE)
  {
    var id, made, d := s.nextConnId, Made(s, BASE, fd, opts), NewConnection(s, BASE, fd, opts);
    FreshLived(fd, opts);
    EstablishStep(C.Fresh(fd, opts));
    NobodyWaits(s, id, BASE);
    MadeNear(s, BASE, fd, opts);
    WithNear(made, id, C.ConnectEstablished(C.Fresh(fd, opts)));
    NearTrans(s, made, d, id);
    FdFree(s, fd);
    NearInv(s, d, id);
  }

  lemma AcceptElsewhere(s: Server, io: LoopId, fd: int, opts: C.Options)
    requires Inv(s) && Enabled(s, Accept(io, fd, opts)) && io != BASE
    ensures Inv(NewConnection(s, io, fd, opts)) && Near(s, NewConnection(s, io, fd, opts), s.nextConnId)
  {
    var id, d := s.nextConnId, NewConnection(s, io, fd, opts);
    FreshLived(fd, opts);
    MadeNear(s, io, fd, opts);
    QueuedNear(s, Made(s, io, fd, opts), id, io, Establish(id));
    AcceptedSeat(s, io, fd, opts);
    FdFree(s, fd);
    NearInv(s, d, id);
  }

  lemma MadeSeat(s: Server, io: LoopId, fd: int, opts: C.Options)
    requires MapInv(s)
    ensures Knows(Made(s, io, fd, opts), s.nextConnId)
    ensures SeatOf(Made(s, io, fd, opts), s.nextConnId)
            == NewSeat(io).(connecting := true, open := s.open)
  {
    NobodyWaits(s, s.nextConnId, io);
    NobodyWaits(s, s.nextConnId, BASE);
  }

  lemma AcceptedSeat(s: Server, io: LoopId, fd: int, opts: C.Options)
    requires MapInv(s) && s.open && io != BASE
    ensures Knows(NewConnection(s, io, fd, opts), s.nextConnId)
    ensures SeatOf(NewConnection(s, io, fd, opts), s.nextConnId)
            == NewSeat(io).(connecting := true, calls := [Establish(s.nextConnId)])
  {
    assert [] + [Establish(s.nextConnId)] == [Establish(s.nextConnId)];
    MadeSeat(s, io, fd, opts);
    SeatQueued(Made(s, io, fd, opts), io, Establish(s.nextConnId));
  }

  lemma FdFree(s: Server, fd: int)
    requires MapInv(s) && forall id :: id in s.conns && Held(s, id) ==> s.conns[id].channel.fd != fd
    ensures forall id :: id in s.conns && SeatOf(s, id).Held() ==> s.conns[id].channel.fd != fd
  {
    forall id | id in s.conns && SeatOf(s, id).Held()
      ensures s.conns[id].channel.fd != fd
    {
      HeldBySeat(s, id);
    }
  }

  // Events of a connection

  lemma WithNear(s: Server, id: Id, c: C.Conn)
    requires MapInv(s) && id in s.conns
    ensures MapInv(s.With(id, c)) && Near(s, s.With(id, c), id)
  {
    SameNear(s, s.With(id, c), id);
  }

  lemma HeldSeat(s: Server, id: Id, e: C.Event)
    requires Inv(s) && Enabled(s, Happen(id, e))
    ensures Life(id, SeatOf(s, id)) && SeatOf(s, id).Held() && Lived(s.conns[id])
  {
    assert Sound(s, id);
    HeldBySeat(s, id);
  }

  /** What a step of a connection makes of its seat. */
  function PutSeat(x: Seat, c: C.Conn, closed: bool, queued: bool, written: bool): Seat {
    x.(closings := C.Count(c.notes, C.Closed), closing := x.closing || closed, kept := x.kept || queued,
       due := x.due && !written, inside := R.Inside(c))
  }

  lemma PutNear(s: Server, id: Id, c: C.Conn, closed: bool, queued: bool, written: bool)
    requires MapInv(s) && id in s.conns && SameToOwners(s.conns[id], c)
    ensures var d := Put(s, id, c, closed, queued, written);
            MapInv(d) && Near(s, d, id) && SeatOf(d, id) == PutSeat(SeatOf(s, id), c, closed, queued, written)
  {
    var d := Put(s, id, c, closed, queued, written);
    SetNear(s, d, id);
    PutIn(s.closing, closed, id);
    PutIn(s.kept, queued, id);
    assert id in d.due <==> id in s.due && !written;
  }

  lemma PutIn(a: set<Id>, added: bool, id: Id)
    ensures id in (if added then a + {id} else a) <==> id in a || added
  {
  }

  lemma SetNear(s: Server, d: Server, id: Id)
    requires MapInv(s) && id in s.conns && id in d.conns
    requires d == s.With(id, d.conns[id]).(closing := d.closing, kept := d.kept, due := d.due)
    requires SameToOwners(s.conns[id], d.conns[id])
    requires SameBut(s.closing, d.closing, id) && SameBut(s.kept, d.kept, id) && SameBut(s.due, d.due, id)
    ensures MapInv(d) && Near(s, d, id)
    ensures SeatOf(d, id) == SeatOf(s, id).(closings := C.Count(d.conns[id].notes, C.Closed), closing := id in d.closing,
                                            kept := id in d.kept, due := id in d.due, inside := R.Inside(d.conns[id]))
  {
    SameNear(s, d, id);
  }

  lemma LifePut(id: Id, x: Seat, c: C.Conn, closed: bool, queued: bool, written: bool)
    requires Life(id, x) && !(closed && (x.closing || x.connecting))
    requires C.Count(c.notes, C.Closed) == x.closings + (if closed then 1 else 0)
    requires R.Inside(c) ==> x.inside || (x.kept && !x.connecting)
    ensures Life(id, PutSeat(x, c, closed, queued, written))
  {
  }

  lemma HappenInv(s: Server, id: Id, e: C.Event)
    requires Inv(s) && Enabled(s, Happen(id, e))
    ensures Inv(Stepped(s, id, e)) && Near(s, Stepped(s, id, e), id)
    ensures var c := s.conns[id];
            SeatOf(Stepped(s, id, e), id)
            == PutSeat(SeatOf(s, id), C.Apply(c, e), C.Closes(c, e), R.QueuesCallback(c, e), e.Writable?)
  {
    var c := s.conns[id];
    HeldSeat(s, id, e);
    OwnStep(c, e);
    HappenedInv(s, id, C.Apply(c, e), C.Closes(c, e), R.QueuesCallback(c, e), e.Writable?);
  }

  lemma HappenedInv(s: Server, id: Id, c: C.Conn, closed: bool, queued: bool, written: bool)
    requires Inv(s) && id in s.conns && SeatOf(s, id).Held() && SameToOwners(s.conns[id], c) && Lived(c)
    requires var x := SeatOf(s, id);
             && !(closed && (x.closing || x.connecting))
             && C.Count(c.notes, C.Closed) == x.closings + (if closed then 1 else 0)
             && (R.Inside(c) ==> x.inside || (x.kept && !x.connecting))
    ensures var d := Put(s, id, c, closed, queued, written);
            Inv(d) && Near(s, d, id) && SeatOf(d, id) == PutSeat(SeatOf(s, id), c, closed, queued, written)
  {
    assert Sound(s, id);
    PutNear(s, id, c, closed, queued, written);
    LifePut(id, SeatOf(s, id), c, closed, queued, written);
    NearInv(s, Put(s, id, c, closed, queued, written), id);
  }

  /** removeConnection. */
  lemma RemovalNear(s: Server, id: Id)
    requires MapInv(s) && id in s.conns
    ensures var d := RemoveConnection(s, id);
            && MapInv(d) && Near(s, d, id) && d.conns == s.conns
            && SeatOf(d, id) == if s.loopOf[id] == BASE then Called(SeatOf(s, id).(named := false), Destroy(id))
                                else Awaited(SeatOf(s, id))
  {
    if s.loopOf[id] == BASE {
      RemovedNear(s, id);
    } else {
      QueuedNear(s, s, id, BASE, Remove(id));
      SeatQueued(s, BASE, Remove(id));
    }
  }

  /** removeConnectionInLoop. */
  lemma RemovedNear(s: Server, id: Id)
    requires MapInv(s) && id in s.conns
    ensures var d := RemoveConnectionInLoop(s, id);
            && MapInv(d) && Near(s, d, id) && d.conns == s.conns
            && SeatOf(d, id) == Called(SeatOf(s, id).(named := false), Destroy(id))
  {
    var unnamed := s.(connections := s.connections - {id});
    UnnamedNear(s, id);
    QueuedNear(s, unnamed, id, s.loopOf[id], Destroy(id));
    SeatQueued(unnamed, s.loopOf[id], Destroy(id));
  }

  lemma UnnamedNear(s: Server, id: Id)
    requires MapInv(s) && id in s.conns
    ensures var d := s.(connections := s.connections - {id});
            MapInv(d) && Near(s, d, id) && SeatOf(d, id) == SeatOf(s, id).(named := false)
  {
    SameNear(s, s.(connections := s.connections - {id}), id);
  }

  /** The close callback makes a removal to come of a close, or at once the call that ends it. */
  lemma LifeCalledBack(id: Id, x: Seat)
    requires Life(id, x) && x.closing
    ensures var y := x.(closing := false);
            Life(id, if x.io == BASE then Called(y.(named := false), Destroy(id)) else Awaited(y))
  {
  }

  lemma CallBackInv(s: Server, id: Id)
    requires Inv(s) && Enabled(s, CallBack(id))
    ensures Inv(Apply(s, CallBack(id))) && Near(s, Apply(s, CallBack(id)), id)
  {
    var quit, d := s.(closing := s.closing - {id}), Apply(s, CallBack(id));
    assert Sound(s, id);
    LifeCalledBack(id, SeatOf(s, id));
    SameNear(s, quit, id);
    RemovalNear(quit, id);
    NearTrans(s, quit, d, id);
    NearInv(s, d, id);
  }

  // Pointers

  lemma KeptNear(s: Server, d: Server, id: Id)
    requires MapInv(s) && id in s.conns && d == s.(kept := d.kept, due := d.due)
    requires SameBut(s.kept, d.kept, id) && SameBut(s.due, d.due, id)
    ensures MapInv(d) && Near(s, d, id) && SeatOf(d, id) == SeatOf(s, id).(kept := id in d.kept, due := id in d.due)
  {
    SameNear(s, d, id);
  }

  lemma KeepInv(s: Server, id: Id)
    requires Inv(s) && Enabled(s, Keep(id))
    ensures Inv(Apply(s, Keep(id))) && Near(s, Apply(s, Keep(id)), id)
  {
    assert Sound(s, id);
    KeptNear(s, Apply(s, Keep(id)), id);
    NearInv(s, Apply(s, Keep(id)), id);
  }

  lemma ReportInv(s: Server, id: Id)
    requires Inv(s) && Enabled(s, Report(id))
    ensures Inv(Apply(s, Report(id))) && Near(s, Apply(s, Report(id)), id)
  {
    assert Sound(s, id);
    LivedInv(s.conns[id]);
    HeldBySeat(s, id);
    KeptNear(s, Apply(s, Report(id)), id);
    NearInv(s, Apply(s, Report(id)), id);
  }

  lemma DropInv(s: Server, id: Id)
    requires Inv(s) && Enabled(s, Drop(id))
    ensures Inv(Apply(s, Drop(id))) && Near(s, Apply(s, Drop(id)), id)
  {
    assert Sound(s, id);
    KeptNear(s, Apply(s, Drop(id)), id);
    NearInv(s, Apply(s, Drop(id)), id);
  }

  // Functors

  /** The functor at the head of a loop's queue, taken off its connection's seat. */
  lemma HeadSeat(s: Server, l: LoopId)
    requires MapInv(s) && s.Queue(l) != []
    ensures var t := s.Queue(l)[0];
            && Knows(s, t.id) && l == (if t.Remove? then BASE else s.loopOf[t.id])
            && var x, d := SeatOf(s, t.id), Taken(s, l);
               if t.Remove? then x.removes > 0 && SeatOf(d, t.id) == RemoveTaken(x)
               else x.calls != [] && x.calls[0] == t && SeatOf(d, t.id) == CallTaken(x)
  {
    assert s.Queue(l)[0] in At(s.queues, l);
    TakenSeat(s, l);
  }

  lemma TakenSeat(s: Server, l: LoopId)
    requires MapInv(s) && s.Queue(l) != [] && Knows(s, s.Queue(l)[0].id)
    requires l == if s.Queue(l)[0].Remove? then BASE else s.loopOf[s.Queue(l)[0].id]
    ensures var t := s.Queue(l)[0];
            var x, d := SeatOf(s, t.id), Taken(s, l);
            if t.Remove? then x.removes > 0 && SeatOf(d, t.id) == RemoveTaken(x)
            else x.calls != [] && x.calls[0] == t && SeatOf(d, t.id) == CallTaken(x)
  {
    var t := s.Queue(l)[0];
    var io := s.loopOf[t.id];
    TakenAt(s.queues, l, BASE, t.id);
    TakenAt(s.queues, l, io, t.id);
    HeadSeatOf(s, l, Removes(At(Popped(s.queues, l), BASE), t.id), Calls(At(Popped(s.queues, l), io), t.id));
  }

  function RemoveTaken(x: Seat): Seat
    requires x.removes > 0
  {
    x.(removes := x.removes - 1, atBase := x.io != BASE, inBatch := x.inBatch || x.io == BASE)
  }

  function CallTaken(x: Seat): Seat
    requires x.calls != []
  {
    x.(calls := x.calls[1..], inBatch := true)
  }

  lemma HeadSeatOf(s: Server, l: LoopId, removes: nat, calls: seq<Task>)
    requires MapInv(s) && s.Queue(l) != [] && Knows(s, s.Queue(l)[0].id)
    requires l == if s.Queue(l)[0].Remove? then BASE else s.loopOf[s.Queue(l)[0].id]
    requires var t := s.Queue(l)[0];
             && removes == Removes(At(Popped(s.queues, l), BASE), t.id)
             && calls == Calls(At(Popped(s.queues, l), s.loopOf[t.id]), t.id)
    ensures var t, x := s.Queue(l)[0], SeatOf(s, s.Queue(l)[0].id);
            SeatOf(Taken(s, l), t.id)
            == x.(removes := removes, calls := calls, atBase := x.atBase || (t.Remove? && x.io != BASE),
                  inBatch := x.inBatch || !t.Remove? || x.io == BASE)
  {
  }

  lemma TakenAt(qs: Queues, l: LoopId, m: LoopId, id: Id)
    requires At(qs, l) != []
    ensures Calls(At(qs, m), id) == (if m == l then Mine(At(qs, l)[0], id) else []) + Calls(At(Popped(qs, l), m), id)
    ensures Removes(At(qs, m), id)
            == (if m == l && At(qs, l)[0] == Remove(id) then 1 else 0) + Removes(At(Popped(qs, l), m), id)
  {
    if m == l {
      assert At(Popped(qs, l), m) == At(qs, l)[1..];
    } else {
      assert At(Popped(qs, l), m) == At(qs, m);
    }
  }

  lemma LifeEstablished(id: Id, x: Seat)
    requires Life(id, x) && x.calls != [] && x.calls[0] == Establish(id)
    ensures x.connecting && Life(id, CallTaken(x).(connecting := false))
  {
  }

  lemma LifeRemoved(id: Id, x: Seat)
    requires Life(id, x) && x.removes > 0
    ensures Life(id, Called(RemoveTaken(x).(named := false), Destroy(id)))
  {
  }

  lemma LifeDestroyed(id: Id, x: Seat)
    requires Life(id, x) && x.calls != [] && x.calls[0] == Destroy(id)
    ensures !x.connecting && Life(id, CallTaken(x).(destroyed := true, ended := x.ended + 1))
  {
  }

  lemma EstablishInv(s: Server, l: LoopId)
    requires Inv(s) && s.Queue(l) != [] && s.Queue(l)[0].Establish?
    ensures Enabled(s, RunHead(l)) && C.Enabled(s.conns[s.Queue(l)[0].id], C.Event.Establish) && Inv(Apply(s, RunHead(l)))
    ensures Near(s, Apply(s, RunHead(l)), s.Queue(l)[0].id)
  {
    var id := s.Queue(l)[0].id;
    var popped := Taken(s, l);
    HeadSeat(s, l);
    assert Sound(s, id);
    LifeEstablished(id, SeatOf(s, id));
    EstablishStep(s.conns[id]);
    PoppedNear(s, l);
    var d := popped.With(id, C.ConnectEstablished(s.conns[id]));
    WithNear(popped, id, C.ConnectEstablished(s.conns[id]));
    NearTrans(s, popped, d, id);
    NearInv(s, d, id);
  }

  lemma RemoveInv(s: Server, l: LoopId)
    requires Inv(s) && s.Queue(l) != [] && s.Queue(l)[0].Remove?
    ensures Enabled(s, RunHead(l)) && Inv(Apply(s, RunHead(l)))
    ensures Near(s, Apply(s, RunHead(l)), s.Queue(l)[0].id)
  {
    var id := s.Queue(l)[0].id;
    var popped := Taken(s, l);
    HeadSeat(s, l);
    assert Sound(s, id);
    PoppedNear(s, l);
    RemovedNear(popped, id);
    NearTrans(s, popped, RemoveConnectionInLoop(popped, id), id);
    LifeRemoved(id, SeatOf(s, id));
    NearInv(s, RemoveConnectionInLoop(popped, id), id);
  }

  lemma DestroyedNear(s: Server, id: Id)
    requires MapInv(s) && id in s.conns && Lived(s.conns[id]) && s.conns[id].state != C.Connecting
    ensures var d := s.Destroyed(id);
            && MapInv(d) && Near(s, d, id) && Lived(d.conns[id]) && d.conns[id].channel.fd == s.conns[id].channel.fd
            && SeatOf(d, id) == SeatOf(s, id).(destroyed := true, ended := s.ended[id] + 1)
  {
    DestroyStep(s.conns[id]);
    SameNear(s, s.Destroyed(id), id);
  }

  lemma DestroyedHead(s: Server, l: LoopId)
    requires Inv(s) && s.Queue(l) != [] && s.Queue(l)[0].Destroy?
    ensures Knows(s, s.Queue(l)[0].id) && s.conns[s.Queue(l)[0].id].state != C.Connecting
    ensures var id := s.Queue(l)[0].id;
            && Lived(s.conns[id]) && MapInv(Taken(s, l)) && SeatOf(s, id).Held()
            && Life(id, SeatOf(Taken(s, l), id).(destroyed := true, ended := s.ended[id] + 1))
  {
    var id := s.Queue(l)[0].id;
    HeadSeat(s, l);
    assert Sound(s, id);
    LifeDestroyed(id, SeatOf(s, id));
    PoppedNear(s, l);
  }

  lemma DestroyInv(s: Server, l: LoopId)
    requires Inv(s) && s.Queue(l) != [] && s.Queue(l)[0].Destroy?
    ensures Enabled(s, RunHead(l)) && s.conns[s.Queue(l)[0].id].state != C.Connecting && Inv(Apply(s, RunHead(l)))
    ensures Near(s, Apply(s, RunHead(l)), s.Queue(l)[0].id)
  {
    var id := s.Queue(l)[0].id;
    var popped := Taken(s, l);
    DestroyedHead(s, l);
    PoppedNear(s, l);
    DestroyedNear(popped, id);
    NearTrans(s, popped, popped.Destroyed(id), id);
    NearInv(s, popped.Destroyed(id), id);
  }

  // The end of a batch

  lemma ReleaseNear(s: Server, l: LoopId, id: Id)
    requires MapInv(s) && (l, id) in s.lingering
    ensures id in s.conns
    ensures var d := s.(lingering := s.lingering - {(l, id)});
            && MapInv(d) && Near(s, d, id)
            && SeatOf(d, id) == SeatOf(s, id).(inBatch := SeatOf(d, id).inBatch, atBase := SeatOf(d, id).atBase)
            && (SeatOf(d, id).inBatch ==> SeatOf(s, id).inBatch) && SeatOf(s, id).Held()
  {
    var d := s.(lingering := s.lingering - {(l, id)});
    forall other | other in s.conns && other != id
      ensures Unmoved(s, d, other)
    {
    }
  }

  lemma ReleaseInv(s: Server, l: LoopId, id: Id)
    requires Inv(s) && Enabled(s, Release(l, id))
    ensures id in s.conns && Inv(Apply(s, Release(l, id))) && Near(s, Apply(s, Release(l, id)), id)
  {
    ReleaseNear(s, l, id);
    assert Sound(s, id);
    NearInv(s, Apply(s, Release(l, id)), id);
  }

  // The destructor

  lemma LifeLetGo(id: Id, x: Seat)
    requires Life(id, x) && x.named && !x.open
    ensures x.io == BASE ==>
              !x.connecting && !x.inBatch && Life(id, x.(named := false, letGo := true, destroyed := true, ended := x.ended + 1))
    ensures Life(id, Called(x.(named := false, letGo := true), Destroy(id)))
  {
  }

  lemma LetGoNear(s: Server, id: Id, here: bool)
    requires Walking(s) && id in s.connections
    ensures var d := LetGo(s, id, here);
            && MapInv(d) && Near(s, d, id) && Sound(d, id) && d.conns[id].channel.fd == s.conns[id].channel.fd
  {
    var unnamed := s.(connections := s.connections - {id}, letGo := s.letGo + {id});
    assert Sound(s, id);
    LifeLetGo(id, SeatOf(s, id));
    SameNear(s, unnamed, id);
    assert SeatOf(unnamed, id) == SeatOf(s, id).(named := false, letGo := true);
    if s.loopOf[id] == BASE && here {
      EndedNear(s, unnamed, id);
    } else {
      HandedNear(s, unnamed, id);
    }
  }

  lemma EndedNear(s: Server, unnamed: Server, id: Id)
    requires MapInv(s) && MapInv(unnamed) && Near(s, unnamed, id) && id in unnamed.conns
    requires Lived(unnamed.conns[id]) && unnamed.conns[id].state != C.Connecting
    requires Life(id, SeatOf(unnamed, id).(destroyed := true, ended := unnamed.ended[id] + 1))
    ensures var d := unnamed.Destroyed(id);
            && MapInv(d) && Near(s, d, id) && Sound(d, id) && d.conns[id].channel.fd == unnamed.conns[id].channel.fd
  {
    DestroyedNear(unnamed, id);
    NearTrans(s, unnamed, unnamed.Destroyed(id), id);
  }

  lemma HandedNear(s: Server, unnamed: Server, id: Id)
    requires MapInv(s) && MapInv(unnamed) && Near(s, unnamed, id) && id in unnamed.conns && Lived(unnamed.conns[id])
    requires Life(id, Called(SeatOf(unnamed, id), Destroy(id)))
    ensures var d := unnamed.Queued(unnamed.loopOf[id], Destroy(id));
            MapInv(d) && Near(s, d, id) && Sound(d, id) && d.conns == unnamed.conns
  {
    QueuedNear(s, unnamed, id, unnamed.loopOf[id], Destroy(id));
    SeatQueued(unnamed, unnamed.loopOf[id], Destroy(id));
  }

  /** One connection let go of by the destructor. */
  lemma LetGoOnce(s: Server, id: Id, here: bool)
    requires Walking(s) && id in s.connections
    ensures Walking(LetGo(s, id, here)) && LetGo(s, id, here).connections == s.connections - {id}
  {
    LetGoNear(s, id, here);
    NearFd(s, LetGo(s, id, here), id);
    NearLives(s, LetGo(s, id, here), id);
  }

  lemma LetGoKnows(s: Server, id: Id, here: bool)
    requires Knows(s, id)
    ensures forall x :: Knows(LetGo(s, id, here), x) <==> Knows(s, x)
  {
  }

  lemma NoDupTail<X>(q: seq<X>)
    requires NoDup(q) && q != []
    ensures NoDup(q[1..]) && forall y :: y in q[1..] <==> y in q && y != q[0]
  {
    assert q == [q[0]] + q[1..];
    forall y | y in q[1..]
      ensures y != q[0]
    {
      var i :| 0 <= i < |q[1..]| && q[1..][i] == y;
      assert q[i + 1] == y;
    }
  }

  lemma {:induction false} LetGoAllInv(s: Server, order: seq<Id>, here: bool)
    requires Walking(s) && NoDup(order) && (forall id :: id in order ==> id in s.connections && Knows(s, id))
    ensures Walking(LetGoAll(s, order, here)) && LetGoAll(s, order, here).connections == s.connections - (set id | id in order)
    decreases |order|
  {
    if order != [] {
      LetGoOnce(s, order[0], here);
      NoDupTail(order);
      LetGoAllInv(LetGo(s, order[0], here), order[1..], here);
      OneByOne(s.connections, order);
    }
  }

  lemma OneByOne(connections: set<Id>, order: seq<Id>)
    requires order != []
    ensures connections - {order[0]} - (set id | id in order[1..]) == connections - (set id | id in order)
  {
    assert order == [order[0]] + order[1..];
  }

  lemma ShutFds(s: Server)
    requires MapInv(s) && FdInv(s)
    ensures MapInv(s.(open := false)) && FdInv(s.(open := false))
  {
    var shut := s.(open := false);
    forall a, b | a in s.conns && b in s.conns && a != b
      ensures FdsApart(shut, a, b)
    {
      assert FdsApart(s, a, b);
      assert SeatOf(shut, a) == SeatOf(s, a).(open := false) && SeatOf(shut, b) == SeatOf(s, b).(open := false);
    }
  }

  lemma ShutWalks(s: Server)
    requires Inv(s)
    ensures Walking(s.(open := false))
  {
    var shut := s.(open := false);
    forall id | id in s.conns
      ensures Sound(shut, id)
    {
      assert Sound(s, id) && SeatOf(shut, id) == SeatOf(s, id).(open := false);
    }
    ShutFds(s);
  }

  lemma DestructInv(s: Server, order: seq<Id>, here: bool)
    requires Inv(s) && Enabled(s, Destruct(order, here))
    ensures Inv(Apply(s, Destruct(order, here))) && !Apply(s, Destruct(order, here)).open
  {
    ShutWalks(s);
    LetGoAllInv(s.(open := false), order, here);
    assert s.connections - (set id | id in order) == {};
  }

  /** The connection a step is about. */
  function ActorOf(s: Server, e: Event): Id {
    match e
    case Accept(_, _, _) => s.nextConnId
    case Happen(id, _) => id
    case CallBack(id) => id
    case Report(id) => id
    case Keep(id) => id
    case Drop(id) => id
    case RunHead(l) => if s.Queue(l) != [] then s.Queue(l)[0].id else 0
    case Release(_, id) => id
    case Destruct(_, _) => 0
  }

  lemma StepNear(s: Server, e: Event)
    requires Inv(s) && Enabled(s, e) && !e.Destruct?
    ensures Inv(Apply(s, e)) && Near(s, Apply(s, e), ActorOf(s, e))
  {
    match e
    case Accept(io, fd, opts) => if io == BASE { AcceptHere(s, fd, opts); } else { AcceptElsewhere(s, io, fd, opts); }
    case Happen(id, ce) => HappenInv(s, id, ce);
    case CallBack(id) => CallBackInv(s, id);
    case Report(id) => ReportInv(s, id);
    case Keep(id) => KeepInv(s, id);
    case Drop(id) => DropInv(s, id);
    case RunHead(l) => RunHeadNear(s, l);
    case Release(l, id) => ReleaseInv(s, l, id);
  }

  lemma RunHeadNear(s: Server, l: LoopId)
    requires Inv(s) && s.Queue(l) != []
    ensures Enabled(s, RunHead(l)) && Inv(Apply(s, RunHead(l))) && Near(s, Apply(s, RunHead(l)), s.Queue(l)[0].id)
  {
    match s.Queue(l)[0]
    case Establish(_) => EstablishInv(s, l);
    case Remove(_) => RemoveInv(s, l);
    case Destroy(_) => DestroyInv(s, l);
  }

  lemma ApplyInv(s: Server, e: Event)
    requires Inv(s) && Enabled(s, e)
    ensures Inv(Apply(s, e))
  {
    match e
    case Destruct(order, here) => DestructInv(s, order, here);
    case _ => StepNear(s, e);
  }

  lemma {:induction false} RunInv(ss: seq<Server>, es: seq<Event>, i: nat)
    requires IsRun(ss, es) && i <= |es|
    ensures Inv(ss[i])
  {
    if i > 0 {
      assert StepAt(ss, es, i - 1);
      RunInv(ss, es, i - 1);
      ApplyInv(ss[i - 1], es[i - 1]);
    }
  }
}
