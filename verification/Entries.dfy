/** The stored log of a server: an in-memory vector with a stale tail, an offset table and two files. */
module StoredLog {
  import opened RaftTypes
  import opened DurableLog

  /** The data file behind one file descriptor. */
  class DataFile {
    var bytes: seq<Byte>

    constructor (bytes: seq<Byte>)
      ensures this.bytes == bytes
    {
      this.bytes := bytes;
    }

    /** A buffer of zeros, filled as far as the file goes. */
    method ReadFromOffset(offset: nat, len: nat) returns (res: seq<Byte>)
      ensures |res| == len
      ensures forall k :: 0 <= k < len ==> res[k] == if offset + k < |bytes| then bytes[offset + k] else 0
    {
      res := seq(len, _ => 0);
      if offset < |bytes| {
        var got := if len < |bytes| - offset then len else |bytes| - offset;
        res := bytes[offset..offset + got] + res[got..];
      }
    }

    /** Seek, write, truncate behind what was written. */
    method WriteFromOffset(offset: nat, data: seq<Byte>)
      modifies this
      ensures bytes == WriteAndCut(old(bytes), offset, data)
      ensures |bytes| == offset + |data|
      ensures offset <= |old(bytes)| ==> bytes == old(bytes)[..offset] + data
    {
      bytes := Patch(bytes, offset, data);
      bytes := bytes[..offset + |data|];
    }
  }

  class Entries {
    const codec: Codec
    const data: DataFile
    var entries: seq<Entry>
    var offset: seq<int>
    var size: int
    var offsetFile: Option<seq<int>>

    /** The log the object stands for; entries behind it are stale. */
    ghost function Log(): seq<Entry>
      reads this
    {
      if 0 <= size <= |entries| then entries[..size] else []
    }

    ghost function Files(): Disk
      reads this, data
    {
      Disk(data.bytes, offsetFile)
    }

    ghost predicate Valid()
      reads this, data
    {
      && 0 <= size <= |entries| && size == |offset| - 1
      && offset == Offsets(codec, Log())
      && OnDisk(codec, Files(), Log())
    }

    /** Reload: the vector is rebuilt from the offset file and the data file. */
    constructor (codec: Codec, data: DataFile, offsetFile: Option<seq<int>>, ghost log: seq<Entry>)
      requires RoundTrips(codec) && OnDisk(codec, Disk(data.bytes, offsetFile), log)
      ensures Valid() && Log() == log && this.data == data && this.codec == codec
      ensures Files() == Disk(data.bytes, offsetFile)
    {
      hide OnDisk, RoundTrips, Offsets, Reload;
      ReloadRecovers(codec, Disk(data.bytes, offsetFile), log);
      OffsetsOnDisk(codec, Disk(data.bytes, offsetFile), log);
      forall k | 0 <= k < |log| ensures 0 <= Offsets(codec, log)[k] <= Offsets(codec, log)[k + 1] {
        OffsetsIncrease(codec, log, k);
      }
      var offset := if offsetFile.Some? then offsetFile.value else [0];
      var entries := LoadEntries(codec, data, offset, offsetFile);
      this.codec, this.data, this.offsetFile := codec, data, offsetFile;
      this.entries, this.offset, this.size := entries, offset, |offset| - 1;
      new;
      assert this.entries[..size] == log;
    }

    static method LoadEntries(codec: Codec, data: DataFile, offset: seq<int>, ghost offsetFile: Option<seq<int>>)
      returns (entries: seq<Entry>)
      requires offset == Begins(Disk(data.bytes, offsetFile)) && |offset| > 0
      requires forall k :: 0 <= k < |offset| - 1 ==> 0 <= offset[k] <= offset[k + 1]
      ensures entries == Reload(codec, Disk(data.bytes, offsetFile))
    {
      hide Reload;
      ghost var disk := Disk(data.bytes, offsetFile);
      entries := [];
      for i := 0 to |offset| - 1
        invariant entries == Reload(codec, disk)[..i]
      {
        ReloadEntry(codec, disk, i);
        var entryHead, entryTail := offset[i], offset[i + 1];
        var s := data.ReadFromOffset(entryHead, entryTail - entryHead);
        assert s == Read(data.bytes, entryHead, entryTail - entryHead);
        entries := entries + [codec.parse(s)];
      }
    }

    method Size() returns (n: int)
      requires Valid()
      ensures n == |Log()|
    {
      n := size;
    }

    /** None where the program throws. */
    method Get(index: nat) returns (e: Option<Entry>)
      requires Valid()
      ensures e == if index < |Log()| then Some(Log()[index]) else None
    {
      if index >= size {
        return None;
      }
      return Some(entries[index]);
    }

    method GetOffset(index: nat) returns (o: Option<int>)
      ensures o == if index < |offset| then Some(offset[index]) else None
    {
      if index >= |offset| {
        return None;
      }
      return Some(offset[index]);
    }

    method ModifyOffsetVectorAfterInsert(index: nat, len: nat) returns (ok: bool)
      requires |offset| > 0
      modifies this`offset
      ensures ok <==> index < |old(offset)|
      ensures ok ==> offset == old(offset)[..index + 1] + [old(offset)[index] + len]
      ensures !ok ==> offset == old(offset)
    {
      if index == |offset| - 1 {
        offset := offset + [offset[index] + len];
      } else if index < |offset| - 1 {
        offset := offset[index + 1 := offset[index] + len];
        offset := offset[..index + 2];
      } else {
        return false;
      }
      return true;
    }

    method WriteOffsetToFile()
      modifies this`offsetFile
      ensures offsetFile == Some(offset)
    {
      offsetFile := Some(offset);
    }

    /** Cuts the log at index and appends the entry, first on disk and then in memory. It throws, and changes
        nothing, exactly when the index lies beyond the end. */
    method Insert(index: nat, entry: Entry) returns (ok: bool)
      requires Valid()
      modifies this, data
      ensures Valid()
      ensures ok <==> index <= |old(Log())|
      ensures ok ==> Log() == old(Log())[..index] + [entry]
      ensures ok ==> Files() == DiskAfter(codec, old(Files()), old(Log()), index, entry)
      ensures ok ==> data.bytes == Bytes(codec, Log())
      ensures !ok ==> Log() == old(Log()) && Files() == old(Files())
    {
      hide OnDisk, Offsets, Bytes, WriteAndCut;
      if index > size {
        return false;
      }
      ghost var log, disk := Log(), Files();
      InsertOnDisk(codec, disk, log, index, entry);
      OffsetsPrefix(codec, log, index, entry);
      var at := GetOffset(index);
      var entryString := codec.serialise(entry);
      data.WriteFromOffset(at.value, entryString);
      var fits := ModifyOffsetVectorAfterInsert(index, |entryString|);
      WriteOffsetToFile();
      if index == size {
        if |entries| == index {
          entries := entries + [entry];
        } else {
          entries := entries[index := entry];
        }
      } else {
        entries := entries[index := entry];
      }
      size := index + 1;
      assert Log() == log[..index] + [entry];
      return true;
    }
  }
}
