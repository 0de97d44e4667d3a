/** The byte queue of net_io/io_buffer.cc: a vector with a read and a write index. */
module IoBuffer {
  newtype byte = x: int | 0 <= x < 256

  const DEFAULT_INITIAL_SIZE := 512

  class Buffer {
    var data: array<byte>
    var readIndex: nat
    var writeIndex: nat

    ghost predicate Valid()
      reads this
    {
      readIndex <= writeIndex <= data.Length
    }

    /** The bytes that were written and not yet consumed. */
    ghost function Contents(): seq<byte>
      reads this, data
      requires Valid()
    {
      data[readIndex..writeIndex]
    }

    constructor ()
      ensures Valid() && Contents() == [] && fresh(data)
    {
      data := new byte[DEFAULT_INITIAL_SIZE](_ => 0);
      readIndex, writeIndex := 0, 0;
    }

    function CanReadSize(): nat
      reads this
      requires Valid()
    {
      writeIndex - readIndex
    }

    function CanWriteSize(): nat
      reads this
      requires Valid()
    {
      data.Length - writeIndex
    }

    /** Moves or grows the vector; the contents stay, and `len` more bytes fit behind them. */
    method EnsureWritableSize(len: int)
      requires Valid()
      modifies this, data
      ensures Valid() && Contents() == old(Contents()) && CanWriteSize() >= len
      ensures data == old(data) || fresh(data)
    {
      if data.Length - writeIndex >= len {
        return;
      }
      if CanWriteSize() + readIndex >= len {
        MoveToFront();
        assert CanWriteSize() >= len;
      } else {
        Resize(writeIndex + len);
      }
    }

    /** The forward copy of the unread bytes onto the start of the vector. */
    method MoveToFront()
      requires Valid()
      modifies this, data
      ensures Valid() && Contents() == old(Contents()) && readIndex == 0 && data == old(data)
      ensures writeIndex == old(CanReadSize())
    {
      var size := CanReadSize();
      ghost var was := Contents();
      for i := 0 to size
        invariant data == old(data) && readIndex == old(readIndex) && writeIndex == old(writeIndex)
        invariant data[..i] == was[..i]
        invariant data[readIndex + i..writeIndex] == was[i..]
      {
        assert data[readIndex + i] == data[readIndex + i..writeIndex][0] == was[i];
        ghost var later := data[readIndex + i..writeIndex][1..];
        data[i] := data[readIndex + i];
        assert data[readIndex + i + 1..writeIndex] == later == was[i..][1..];
      }
      readIndex := 0;
      writeIndex := size;
    }

    method Resize(size: nat)
      requires Valid() && size >= data.Length
      modifies this
      ensures Valid() && Contents() == old(Contents()) && fresh(data) && data.Length == size
      ensures readIndex == old(readIndex) && writeIndex == old(writeIndex)
    {
      var grown := new byte[size](_ => 0);
      forall i | 0 <= i < data.Length {
        grown[i] := data[i];
      }
      data := grown;
    }

    /** The caller's bytes at the write index, then `Produce`. */
    method Fill(bytes: seq<byte>)
      requires Valid() && |bytes| <= CanWriteSize()
      modifies this, data
      ensures Valid() && Contents() == old(Contents()) + bytes && data == old(data)
    {
      forall i | 0 <= i < |bytes| {
        data[writeIndex + i] := bytes[i];
      }
      writeIndex := writeIndex + |bytes|;
      assert data[readIndex..old(writeIndex)] == old(Contents());
      assert data[old(writeIndex)..writeIndex] == bytes;
    }

    method WriteRawData(bytes: seq<byte>)
      requires Valid()
      modifies this, data
      ensures Valid() && Contents() == old(Contents()) + bytes
      ensures data == old(data) || fresh(data)
    {
      EnsureWritableSize(|bytes|);
      Fill(bytes);
    }

    method Consume(len: nat)
      requires Valid()
      modifies this
      ensures Valid() && data == old(data)
      ensures Contents() == old(Contents())[if len < old(CanReadSize()) then len else old(CanReadSize())..]
      ensures CanReadSize() == 0 ==> readIndex == 0
    {
      readIndex := readIndex + if len < CanReadSize() then len else CanReadSize();
      if readIndex == writeIndex {
        readIndex, writeIndex := 0, 0;
      }
    }
  }
}
