/** The byte queue of Buffer.h and Buffer.cpp: a vector with unread bytes in the middle of it. */
module Buffers {
  import opened Bytes
  import opened BufferSpace

  class Buffer {
    var data: array<Byte>
    var readerIndex: nat
    var writerIndex: nat

    ghost predicate Valid()
      reads this
    {
      Layout().Valid()
    }

    ghost function Layout(): Space
      reads this
    {
      Space(data.Length, readerIndex, writerIndex)
    }

    /** The unread bytes, oldest first. */
    ghost function Contents(): seq<Byte>
      requires Valid()
      reads this, data
    {
      data[readerIndex..writerIndex]
    }

    constructor (initialSize: nat := INITIAL_SIZE)
      ensures Valid() && fresh(data) && Contents() == []
      ensures Layout() == Space(CHEAP_PREPEND + initialSize, CHEAP_PREPEND, CHEAP_PREPEND)
    {
      data := new Byte[CHEAP_PREPEND + initialSize](_ => 0);
      readerIndex, writerIndex := CHEAP_PREPEND, CHEAP_PREPEND;
    }

    method ReadableBytes() returns (n: nat)
      requires Valid()
      ensures n == |Contents()|
    {
      n := writerIndex - readerIndex;
    }

    method RetrieveAll()
      requires Valid()
      modifies this`readerIndex, this`writerIndex
      ensures Valid() && data == old(data) && Contents() == [] && readerIndex == writerIndex == CHEAP_PREPEND
      ensures Layout() == old(Layout()).Retrieve(old(Layout()).Readable())
    {
      readerIndex, writerIndex := CHEAP_PREPEND, CHEAP_PREPEND;
    }

    method Retrieve(len: nat)
      requires Valid()
      modifies this`readerIndex, this`writerIndex
      ensures Valid() && data == old(data)
      ensures Contents() == if len <= |old(Contents())| then old(Contents())[len..] else []
      ensures Layout() == old(Layout()).Retrieve(len)
    {
      if len < writerIndex - readerIndex {
        readerIndex := readerIndex + len;
      } else {
        RetrieveAll();
      }
    }

    /**
     The string is copied before anything is checked, so len may reach past the unread bytes as long
     as it stays inside the vector; what it then returns beyond them is stale.
    */
    method RetrieveAsString(len: nat) returns (result: seq<Byte>)
      requires Valid() && readerIndex + len <= data.Length
      modifies this`readerIndex, this`writerIndex
      ensures Valid() && data == old(data) && |result| == len
      ensures len <= |old(Contents())| ==> old(Contents()) == result + Contents()
      ensures len > |old(Contents())| ==> old(Contents()) < result && Contents() == []
    {
      result := data[readerIndex..readerIndex + len];
      Retrieve(len);
    }

    method RetrieveAllAsString() returns (result: seq<Byte>)
      requires Valid()
      modifies this`readerIndex, this`writerIndex
      ensures Valid() && data == old(data)
      ensures result == old(Contents()) && Contents() == []
    {
      result := RetrieveAsString(writerIndex - readerIndex);
    }

    method EnsureWritableBytes(len: nat)
      requires Valid()
      modifies this, data
      ensures Valid() && (data == old(data) || fresh(data))
      ensures Contents() == old(Contents())
      ensures Layout() == old(Layout()).EnsureWritable(len)
      ensures writerIndex + len <= data.Length
    {
      if data.Length - writerIndex < len {
        MakeSpace(len);
      }
    }

    /** Grows the vector, or slides the unread bytes down to the prepend mark. */
    method MakeSpace(len: nat)
      requires Valid() && data.Length - writerIndex < len
      modifies this, data
      ensures Valid() && (data == old(data) || fresh(data))
      ensures Contents() == old(Contents())
      ensures Layout() == old(Layout()).MakeSpace(len)
      ensures writerIndex + len <= data.Length
    {
      if data.Length - writerIndex + readerIndex < len + CHEAP_PREPEND {
        Resize(writerIndex + len);
      } else {
        CompactionMovesDown(Layout(), len);
        Compact();
      }
    }

    /** The ascending copy down to the prepend mark, whose ranges may overlap. */
    method Compact()
      requires Valid() && CHEAP_PREPEND < readerIndex
      modifies this`readerIndex, this`writerIndex, data
      ensures Valid() && readerIndex == CHEAP_PREPEND
      ensures Contents() == old(Contents())
    {
      var readable := writerIndex - readerIndex;
      ghost var unread := Contents();
      for i := 0 to readable
        modifies data
        invariant forall k :: 0 <= k < i ==> data[CHEAP_PREPEND + k] == unread[k]
        invariant forall k :: i <= k < readable ==> data[readerIndex + k] == unread[k]
      {
        data[CHEAP_PREPEND + i] := data[readerIndex + i];
      }
      readerIndex := CHEAP_PREPEND;
      writerIndex := CHEAP_PREPEND + readable;
      assert data[readerIndex..writerIndex] == unread;
    }

    /** std::vector::resize upwards: the old bytes stay in place and the new ones are zero. */
    method Resize(n: nat)
      requires Valid() && data.Length <= n
      modifies this`data
      ensures Valid() && fresh(data) && data.Length == n
      ensures data[..old(data.Length)] == old(data[..])
      ensures Contents() == old(Contents())
    {
      var grown := new Byte[n](_ => 0);
      forall k | 0 <= k < data.Length {
        grown[k] := data[k];
      }
      data := grown;
      assert data[..old(data.Length)] == old(data[..]);
    }

    method Append(bytes: seq<Byte>)
      requires Valid()
      modifies this, data
      ensures Valid() && (data == old(data) || fresh(data))
      ensures Contents() == old(Contents()) + bytes
      ensures Layout() == old(Layout()).Append(|bytes|)
    {
      EnsureWritableBytes(|bytes|);
      FillUp(bytes);
    }

    /** The copy to beginWrite(), by std::copy or by the kernel, and the move of the writer index behind it. */
    method FillUp(bytes: seq<Byte>)
      requires Valid() && writerIndex + |bytes| <= data.Length
      modifies this`writerIndex, data
      ensures Valid() && readerIndex == old(readerIndex) && writerIndex == old(writerIndex) + |bytes|
      ensures Contents() == old(Contents()) + bytes
    {
      forall k | 0 <= k < |bytes| {
        data[writerIndex + k] := bytes[k];
      }
      writerIndex := writerIndex + |bytes|;
    }

    /**
     Scatter read into the spare room and, when that room is small, a 64 KiB block on the stack whose
     part is appended afterwards. Returns readv's count, or -1 for its error.
    */
    method ReadFd(r: ReadResult) returns (n: int)
      requires Valid()
      requires r.ReadBytes? ==> |r.bytes| <= Layout().ReadCapacity()
      modifies this, data
      ensures Valid() && (data == old(data) || fresh(data))
      ensures r.ReadError? ==> n == -1 && Layout() == old(Layout()) && Contents() == old(Contents())
      ensures r.ReadBytes? ==> n == |r.bytes| && Layout() == old(Layout()).ReadFd(|r.bytes|)
      ensures r.ReadBytes? ==> Contents() == old(Contents()) + r.bytes
    {
      match r
      case ReadError =>
        n := -1;
      case ReadBytes(bytes) =>
        n := |bytes|;
        var writable := data.Length - writerIndex;
        if n <= writable {
          FillUp(bytes);
        } else {
          Overflow(bytes, writable);
        }
    }

    /** readFd when the spare room was filled and part of the bytes are on the stack. */
    method Overflow(bytes: seq<Byte>, writable: nat)
      requires Valid() && writable == data.Length - writerIndex < |bytes|
      modifies this, data
      ensures Valid() && (data == old(data) || fresh(data))
      ensures Layout() == old(Layout()).ReadFd(|bytes|) && Contents() == old(Contents()) + bytes
    {
      FillUp(bytes[..writable]);
      Append(bytes[writable..]);
      assert bytes == bytes[..writable] + bytes[writable..];
    }
  }
}
