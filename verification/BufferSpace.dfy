/** Bytes as they appear in a buffer, in memory and on the wire. */
module Bytes {
  type Byte = b: int | 0 <= b < 256

  /** What readv answered: an error, or the bytes it delivered (none at the end of the stream). */
  datatype ReadResult = ReadError | ReadBytes(bytes: seq<Byte>)

  /**
   What write answered: a count, an error that means the peer is gone (EPIPE, ECONNRESET), or any
   other error, EWOULDBLOCK among them, which the source treats alike.
  */
  datatype WriteResult = Wrote(n: nat) | Stalled | Faulted
}

/**
 The index arithmetic of the growable buffer of Buffer.h, apart from the bytes themselves:
 how big the vector is and where its reader and writer indices stand.
*/
module BufferSpace {

  const CHEAP_PREPEND: nat := 8
  const INITIAL_SIZE: nat := 1024
  const EXTRA_SIZE: nat := 65536

  datatype Space = Space(size: nat, reader: nat, writer: nat) {
    predicate Valid() {
      CHEAP_PREPEND <= reader <= writer <= size
    }

    function Readable(): nat
      requires Valid()
    {
      writer - reader
    }

    function Writable(): nat
      requires Valid()
    {
      size - writer
    }

    /** The test in makeSpace: true when the vector must be resized, false when it is compacted. */
    predicate MustGrow(len: nat)
      requires Valid()
    {
      Writable() + reader < len + CHEAP_PREPEND
    }

    function MakeSpace(len: nat): Space
      requires Valid()
    {
      if MustGrow(len) then Space(writer + len, reader, writer)
      else Space(size, CHEAP_PREPEND, CHEAP_PREPEND + Readable())
    }

    function EnsureWritable(len: nat): Space
      requires Valid()
    {
      if Writable() < len then MakeSpace(len) else this
    }

    function Append(len: nat): Space
      requires Valid()
    {
      var room := EnsureWritable(len);
      Space(room.size, room.reader, room.writer + len)
    }

    function Retrieve(len: nat): Space
      requires Valid()
    {
      if len < Readable() then Space(size, reader + len, writer)
      else Space(size, CHEAP_PREPEND, CHEAP_PREPEND)
    }

    /** The most readv can deliver: the spare room, and the stack block when that room is small. */
    function ReadCapacity(): nat
      requires Valid()
    {
      if Writable() < EXTRA_SIZE then Writable() + EXTRA_SIZE else Writable()
    }

    function ReadFd(n: nat): Space
      requires Valid()
    {
      if n <= Writable() then Space(size, reader, writer + n)
      else Space(size, reader, size).Append(n - Writable())
    }
  }

  /**
   Whatever made room, there is room: the indices stay ordered, nothing readable is lost or gained,
   and afterwards at least len bytes fit behind the writer index.
  */
  lemma EnsureWritableMakesRoom(s: Space, len: nat)
    requires s.Valid()
    ensures var r := s.EnsureWritable(len);
            r.Valid() && r.Readable() == s.Readable() && len <= r.Writable() && s.size <= r.size
  {
  }

  /**
   The vector is compacted only when the unread bytes really move down (so that an ascending copy of
   overlapping ranges is well defined) and only when they then leave enough room.
  */
  lemma CompactionMovesDown(s: Space, len: nat)
    requires s.Valid() && s.Writable() < len && !s.MustGrow(len)
    ensures CHEAP_PREPEND < s.reader
    ensures CHEAP_PREPEND + s.Readable() + len <= s.size
  {
  }

  /** Nothing moves as long as there is room; otherwise the vector grows to just what is needed, or is compacted in place. */
  lemma MakeSpaceExactly(s: Space, len: nat)
    requires s.Valid()
    ensures var r := s.EnsureWritable(len);
            if len <= s.size - s.writer then r == s
            else if s.size - s.writer + s.reader < len + 8 then r.size == s.writer + len && r.reader == s.reader && r.writer == s.writer
            else r.size == s.size && r.reader == 8 && r.writer - r.reader == s.writer - s.reader
  {
  }

  /** Taking a part moves the reader index only; taking all, or more, resets both. */
  lemma RetrieveExactly(s: Space, len: nat)
    requires s.Valid()
    ensures var r := s.Retrieve(len);
            && r.size == s.size
            && if len < s.writer - s.reader then r.reader == s.reader + len && r.writer == s.writer
               else r.reader == 8 && r.writer == 8
  {
  }

  /** What the outside does to a buffer. */
  datatype Op =
    | AppendOp(len: nat)
    | ReadOp(n: nat)
    | RetrieveOp(len: nat)
    | EnsureOp(len: nat)

  function Apply(s: Space, op: Op): Space
    requires s.Valid()
  {
    match op
    case AppendOp(len) => s.Append(len)
    case ReadOp(n) => s.ReadFd(n)
    case RetrieveOp(len) => s.Retrieve(len)
    case EnsureOp(len) => s.EnsureWritable(len)
  }

  /** The bytes the buffer is asked to hold at once: what it holds after op, or what op reserves room for. */
  function Demand(s: Space, op: Op): nat
    requires s.Valid()
  {
    match op
    case AppendOp(len) => s.Readable() + len
    case ReadOp(n) => s.Readable() + n
    case RetrieveOp(_) => s.Readable()
    case EnsureOp(len) => s.Readable() + len
  }

  lemma ApplyKeepsValid(s: Space, op: Op)
    requires s.Valid()
    ensures Apply(s, op).Valid()
    ensures match op
            case AppendOp(len) => Apply(s, op).Readable() == s.Readable() + len
            case ReadOp(n) => Apply(s, op).Readable() == s.Readable() + n
            case RetrieveOp(len) => Apply(s, op).Readable() == if len <= s.Readable() then s.Readable() - len else 0
            case EnsureOp(_) => Apply(s, op).Readable() == s.Readable()
  {
  }

  function Max(a: nat, b: nat): nat {
    if a < b then b else a
  }

  function Run(s: Space, ops: seq<Op>): Space
    requires s.Valid()
    decreases |ops|
  {
    if ops == [] then s
    else
      ApplyKeepsValid(s, ops[0]);
      Run(Apply(s, ops[0]), ops[1..])
  }

  /** The largest demand over a whole history. */
  function Peak(s: Space, ops: seq<Op>): nat
    requires s.Valid()
    decreases |ops|
  {
    if ops == [] then s.Readable()
    else
      ApplyKeepsValid(s, ops[0]);
      Max(Demand(s, ops[0]), Peak(Apply(s, ops[0]), ops[1..]))
  }

  /** One operation grows the vector to at most the demand, the bytes asked for, and seven more. */
  lemma GrowthStep(s: Space, op: Op)
    requires s.Valid()
    ensures Apply(s, op).Valid()
    ensures Apply(s, op).size != s.size ==>
              s.size < Apply(s, op).size <= 2 * Demand(s, op) + 7
  {
  }

  lemma {:induction false} SpaceBoundFrom(s: Space, ops: seq<Op>, bound: nat)
    requires s.Valid() && s.size <= Max(bound, 2 * Peak(s, ops) + 7)
    ensures Run(s, ops).size <= Max(bound, 2 * Peak(s, ops) + 7)
    decreases |ops|
  {
    if ops != [] {
      GrowthStep(s, ops[0]);
      var t := Apply(s, ops[0]);
      SpaceBoundFrom(t, ops[1..], Max(bound, t.size));
    }
  }

  /**
   Over any history the vector is never longer than its first size or twice the most it was ever
   asked to hold, plus seven.
  */
  lemma SpaceBound(initialSize: nat, ops: seq<Op>)
    ensures var s := Space(CHEAP_PREPEND + initialSize, CHEAP_PREPEND, CHEAP_PREPEND);
            Run(s, ops).size <= Max(s.size, 2 * Peak(s, ops) + 7)
  {
    var s := Space(CHEAP_PREPEND + initialSize, CHEAP_PREPEND, CHEAP_PREPEND);
    SpaceBoundFrom(s, ops, s.size);
  }

  predicate Reserves(ops: seq<Op>) {
    exists i :: 0 <= i < |ops| && ops[i].EnsureOp?
  }

  /**
   When nothing is only reserved, the peak is the largest number of bytes that were ever readable: no
   moment of the history has more, and some moment has as many.
  */
  lemma {:induction false} PeakIsLargestEver(s: Space, ops: seq<Op>) returns (k: nat)
    requires s.Valid() && !Reserves(ops)
    ensures forall i :: 0 <= i <= |ops| ==> ReadableAfter(s, ops, i) <= Peak(s, ops)
    ensures k <= |ops| && ReadableAfter(s, ops, k) == Peak(s, ops)
    decreases |ops|
  {
    k := 0;
    if ops != [] {
      ApplyKeepsValid(s, ops[0]);
      var t := Apply(s, ops[0]);
      assert forall i :: 0 <= i < |ops[1..]| ==> ops[1..][i] == ops[i + 1];
      var j := PeakIsLargestEver(t, ops[1..]);
      forall i | 0 <= i <= |ops|
        ensures ReadableAfter(s, ops, i) <= Peak(s, ops)
      {
        if i > 0 {
          assert ReadableAfter(s, ops, i) == ReadableAfter(t, ops[1..], i - 1);
          assert ReadableAfter(t, ops[1..], i - 1) <= Peak(t, ops[1..]);
        } else if !ops[0].RetrieveOp? {
          assert s.Readable() <= Demand(s, ops[0]);
        }
      }
      if Peak(s, ops) == Peak(t, ops[1..]) {
        k := j + 1;
        assert ReadableAfter(s, ops, k) == ReadableAfter(t, ops[1..], j);
      }
    }
  }

  /** How many bytes are readable after the first i operations. */
  function ReadableAfter(s: Space, ops: seq<Op>, i: nat): nat
    requires s.Valid() && i <= |ops|
    decreases i
  {
    if i == 0 then s.Readable()
    else
      ApplyKeepsValid(s, ops[0]);
      ReadableAfter(Apply(s, ops[0]), ops[1..], i - 1)
  }
}
