/** The byte layout of a stored log and what a reload recovers from it. */
module DurableLog {
  import opened RaftTypes

  type Byte = bv8

  /** Protobuf's SerializeToString and ParseFromString, left abstract up to the round trip. */
  datatype Codec = Codec(serialise: Entry -> seq<Byte>, parse: seq<Byte> -> Entry)

  ghost predicate RoundTrips(codec: Codec) {
    forall e :: codec.parse(codec.serialise(e)) == e
  }

  /** The data file and, once it was written, the offset file. */
  datatype Disk = Disk(bytes: seq<Byte>, offsets: Option<seq<int>>)

  // ----- files

  /** read(): what lies beyond the end of the file reads as 0. */
  function Read(bytes: seq<Byte>, from: int, len: int): (r: seq<Byte>)
    ensures 0 <= len ==> |r| == len
  {
    if len < 0 then [] else seq(len, k => if 0 <= from + k < |bytes| then bytes[from + k] else 0)
  }

  /** The file once the first k bytes of `data` were written at `from`; a gap before `from` reads as 0. */
  function Patch(bytes: seq<Byte>, from: nat, data: seq<Byte>): seq<Byte> {
    Read(bytes, 0, from) + data + if from + |data| <= |bytes| then bytes[from + |data|..] else []
  }

  function WriteAndCut(bytes: seq<Byte>, from: nat, data: seq<Byte>): seq<Byte> {
    Read(bytes, 0, from) + data
  }

  // ----- layout

  function Bytes(codec: Codec, log: seq<Entry>): seq<Byte> {
    if log == [] then [] else Bytes(codec, log[..|log| - 1]) + codec.serialise(log[|log| - 1])
  }

  /** Offsets(log)[k] is where entry k begins, and the last one is the end of the data. */
  function Offsets(codec: Codec, log: seq<Entry>): (r: seq<int>)
    ensures |r| == |log| + 1
    ensures forall k :: 0 <= k <= |log| ==> r[k] == |Bytes(codec, log[..k])|
  {
    seq(|log| + 1, k requires 0 <= k <= |log| => |Bytes(codec, log[..k])|)
  }

  ghost predicate OnDisk(codec: Codec, disk: Disk, log: seq<Entry>) {
    && Bytes(codec, log) <= disk.bytes
    && (disk.offsets == Some(Offsets(codec, log)) || (disk.offsets == None && log == []))
  }

  function Begins(disk: Disk): seq<int> {
    match disk.offsets
    case Some(o) => o
    case None => [0]
  }

  /** What the constructor of Entries rebuilds. */
  function Reload(codec: Codec, disk: Disk): (log: seq<Entry>)
    ensures |Begins(disk)| > 0 ==> |log| == |Begins(disk)| - 1
  {
    var o := Begins(disk);
    if o == [] then [] else
      seq(|o| - 1, k requires 0 <= k < |o| - 1 => codec.parse(Read(disk.bytes, o[k], o[k + 1] - o[k])))
  }

  lemma ReloadEntry(codec: Codec, disk: Disk, k: nat)
    requires k + 1 < |Begins(disk)|
    ensures |Reload(codec, disk)| == |Begins(disk)| - 1
    ensures var o := Begins(disk);
            Reload(codec, disk)[k] == codec.parse(Read(disk.bytes, o[k], o[k + 1] - o[k]))
  {
  }

  /** Both files after `insert(i, e)` on a log. */
  function DiskAfter(codec: Codec, disk: Disk, log: seq<Entry>, i: nat, e: Entry): Disk
    requires i <= |log|
  {
    Disk(WriteAndCut(disk.bytes, |Bytes(codec, log[..i])|, codec.serialise(e)),
         Some(Offsets(codec, log[..i] + [e])))
  }

  // ----- lemmas

  lemma BytesAppend(codec: Codec, log: seq<Entry>, e: Entry)
    ensures Bytes(codec, log + [e]) == Bytes(codec, log) + codec.serialise(e)
  {
    assert (log + [e])[..|log|] == log;
  }

  lemma {:induction false} BytesPrefix(codec: Codec, log: seq<Entry>, k: nat)
    requires k <= |log|
    ensures Bytes(codec, log[..k]) <= Bytes(codec, log)
  {
    if k == |log| {
      assert log[..k] == log;
    } else {
      BytesPrefix(codec, log[..|log| - 1], k);
      assert log[..|log| - 1][..k] == log[..k];
    }
  }

  lemma OffsetsPrefix(codec: Codec, log: seq<Entry>, i: nat, e: Entry)
    requires i <= |log|
    ensures Offsets(codec, log[..i] + [e])
         == Offsets(codec, log)[..i + 1] + [Offsets(codec, log)[i] + |codec.serialise(e)|]
  {
    var log' := log[..i] + [e];
    BytesAppend(codec, log[..i], e);
    forall k | 0 <= k <= i ensures log'[..k] == log[..k] {
    }
    assert log'[..i + 1] == log';
  }

  /** An intact stretch of the data file parses to the entry stored there. */
  lemma EntryAt(codec: Codec, bytes: seq<Byte>, log: seq<Entry>, k: nat)
    requires RoundTrips(codec) && k < |log| && Bytes(codec, log[..k + 1]) <= bytes
    ensures codec.parse(Read(bytes, |Bytes(codec, log[..k])|, |Bytes(codec, log[..k + 1])| - |Bytes(codec, log[..k])|))
         == log[k]
  {
    assert log[..k + 1] == log[..k] + [log[k]];
    BytesAppend(codec, log[..k], log[k]);
    var a, s := |Bytes(codec, log[..k])|, codec.serialise(log[k]);
    assert Read(bytes, a, |s|) == s by {
      forall j | 0 <= j < |s| ensures bytes[a + j] == s[j] {
        assert bytes[a + j] == Bytes(codec, log[..k + 1])[a + j];
      }
    }
  }

  /** Entries whose bytes survive are recovered, whatever happened behind them. */
  lemma ReloadAt(codec: Codec, disk: Disk, log: seq<Entry>, now: seq<Byte>, k: nat)
    requires RoundTrips(codec) && OnDisk(codec, disk, log) && k < |log|
    requires Bytes(codec, log[..k + 1]) <= now
    ensures var back := Reload(codec, Disk(now, disk.offsets)); |back| == |log| && back[k] == log[k]
  {
    hide RoundTrips, Bytes, Read;
    EntryAt(codec, now, log, k);
  }

  lemma ReloadLength(codec: Codec, disk: Disk, log: seq<Entry>, now: seq<Byte>)
    requires OnDisk(codec, disk, log)
    ensures |Reload(codec, Disk(now, disk.offsets))| == |log|
  {
    hide Bytes, Read;
  }

  lemma OffsetsOnDisk(codec: Codec, disk: Disk, log: seq<Entry>)
    requires OnDisk(codec, disk, log)
    ensures Begins(disk) == Offsets(codec, log) && |Begins(disk)| == |log| + 1
  {
    if disk.offsets == None {
      assert log[..0] == [];
    }
  }

  lemma OffsetsIncrease(codec: Codec, log: seq<Entry>, k: nat)
    requires k < |log|
    ensures 0 <= Offsets(codec, log)[k] <= Offsets(codec, log)[k + 1]
  {
    BytesPrefix(codec, log[..k + 1], k);
    assert log[..k + 1][..k] == log[..k];
  }

  /** Round trip: the constructor rebuilds exactly the log the two files hold. */
  lemma ReloadRecovers(codec: Codec, disk: Disk, log: seq<Entry>)
    requires RoundTrips(codec) && OnDisk(codec, disk, log)
    ensures Reload(codec, disk) == log
  {
    hide RoundTrips, Bytes, Read, Reload;
    ReloadLength(codec, disk, log, disk.bytes);
    forall k | 0 <= k < |log| ensures Reload(codec, disk)[k] == log[k] {
      BytesPrefix(codec, log, k + 1);
      ReloadAt(codec, disk, log, disk.bytes, k);
    }
  }

  lemma InsertOnDisk(codec: Codec, disk: Disk, log: seq<Entry>, i: nat, e: Entry)
    requires OnDisk(codec, disk, log) && i <= |log|
    ensures OnDisk(codec, DiskAfter(codec, disk, log, i, e), log[..i] + [e])
    ensures DiskAfter(codec, disk, log, i, e).bytes == Bytes(codec, log[..i] + [e])
  {
    BytesPrefix(codec, log, i);
    BytesAppend(codec, log[..i], e);
    var kept := Bytes(codec, log[..i]);
    assert Read(disk.bytes, 0, |kept|) == kept by {
      forall k | 0 <= k < |kept| ensures disk.bytes[k] == kept[k] {
        assert kept[k] == Bytes(codec, log)[k];
      }
    }
  }

  // ----- any sequence of inserts

  datatype Write = Write(index: nat, entry: Entry)

  /** Repeated "cut at i, then append e"; a write beyond the end throws and stops the sequence. */
  function Written(log: seq<Entry>, ws: seq<Write>): seq<Entry>
    decreases |ws|
  {
    if ws == [] || ws[0].index > |log| then log
    else Written(log[..ws[0].index] + [ws[0].entry], ws[1..])
  }

  function WrittenDisk(codec: Codec, disk: Disk, log: seq<Entry>, ws: seq<Write>): Disk
    decreases |ws|
  {
    if ws == [] || ws[0].index > |log| then disk
    else
      WrittenDisk(codec, DiskAfter(codec, disk, log, ws[0].index, ws[0].entry),
                  log[..ws[0].index] + [ws[0].entry], ws[1..])
  }

  /** After any inserts, reloading the files gives the log that the inserts describe. */
  lemma {:induction false} WritesReload(codec: Codec, disk: Disk, log: seq<Entry>, ws: seq<Write>)
    requires RoundTrips(codec) && OnDisk(codec, disk, log)
    ensures Reload(codec, WrittenDisk(codec, disk, log, ws)) == Written(log, ws)
    decreases |ws|
  {
    if ws == [] || ws[0].index > |log| {
      ReloadRecovers(codec, disk, log);
    } else {
      InsertOnDisk(codec, disk, log, ws[0].index, ws[0].entry);
      WritesReload(codec, DiskAfter(codec, disk, log, ws[0].index, ws[0].entry),
                   log[..ws[0].index] + [ws[0].entry], ws[1..]);
    }
  }

  /** Whatever lay behind the log before, after the first insert the data file holds the entries and nothing else. */
  lemma {:induction false} WritesExact(codec: Codec, disk: Disk, log: seq<Entry>, ws: seq<Write>)
    requires OnDisk(codec, disk, log) && (disk.bytes == Bytes(codec, log) || (ws != [] && ws[0].index <= |log|))
    ensures WrittenDisk(codec, disk, log, ws).bytes == Bytes(codec, Written(log, ws))
    decreases |ws|
  {
    hide OnDisk, Bytes;
    if ws != [] && ws[0].index <= |log| {
      InsertOnDisk(codec, disk, log, ws[0].index, ws[0].entry);
      WritesExact(codec, DiskAfter(codec, disk, log, ws[0].index, ws[0].entry),
                  log[..ws[0].index] + [ws[0].entry], ws[1..]);
    }
  }

  // ----- a crash inside an insert

  /** The data file at some moment of `write_from_offset`: k bytes written, or all of them and the file cut. */
  ghost predicate MidWrite(bytes: seq<Byte>, from: nat, data: seq<Byte>, now: seq<Byte>) {
    || (exists k :: 0 <= k <= |data| && now == Patch(bytes, from, data[..k]))
    || now == WriteAndCut(bytes, from, data)
  }

  lemma MidWriteKeeps(bytes: seq<Byte>, from: nat, data: seq<Byte>, now: seq<Byte>)
    requires MidWrite(bytes, from, data, now) && from <= |bytes|
    ensures bytes[..from] <= now
  {
    assert Read(bytes, 0, from) == bytes[..from];
  }

  lemma PrefixSurvives(codec: Codec, disk: Disk, log: seq<Entry>, i: nat, now: seq<Byte>)
    requires RoundTrips(codec) && OnDisk(codec, disk, log) && i <= |log|
    requires Bytes(codec, log[..i]) <= now
    ensures var back := Reload(codec, Disk(now, disk.offsets));
            |back| == |log| && forall k :: 0 <= k < i ==> back[k] == log[k]
  {
    hide RoundTrips, Bytes, Read, Reload, OnDisk;
    ReloadLength(codec, disk, log, now);
    forall k | 0 <= k < i ensures Reload(codec, Disk(now, disk.offsets))[k] == log[k] {
      BytesPrefix(codec, log[..i], k + 1);
      assert log[..i][..k + 1] == log[..k + 1];
      ReloadAt(codec, disk, log, now, k);
    }
  }

  /** A crash during or after the data write and before the offset write loses nothing below the insertion
      point, and nothing at all when the insert was an append. */
  lemma CrashRecovers(codec: Codec, disk: Disk, log: seq<Entry>, i: nat, e: Entry, now: seq<Byte>)
    requires RoundTrips(codec) && OnDisk(codec, disk, log) && i <= |log|
    requires MidWrite(disk.bytes, |Bytes(codec, log[..i])|, codec.serialise(e), now)
    ensures var back := Reload(codec, Disk(now, disk.offsets));
            && |back| == |log| && back[..i] == log[..i] && (i == |log| ==> back == log)
  {
    hide RoundTrips, Reload, MidWrite;
    var kept := Bytes(codec, log[..i]);
    BytesPrefix(codec, log, i);
    MidWriteKeeps(disk.bytes, |kept|, codec.serialise(e), now);
    assert kept == disk.bytes[..|kept|];
    PrefixSurvives(codec, disk, log, i, now);
  }

  /** The first k bytes of `data`, written at entry i, repeat what they replace in the stored log. */
  ghost predicate Repeats(codec: Codec, log: seq<Entry>, i: nat, data: seq<Byte>, k: nat)
    requires i <= |log| && k <= |data|
  {
    var from, stored := |Bytes(codec, log[..i])|, Bytes(codec, log);
    forall j :: 0 <= j < k && from + j < |stored| ==> data[j] == stored[from + j]
  }

  /** A crash loses nothing as long as the bytes written so far repeat what they replace and no stored byte was
      cut off. */
  lemma CrashLosesNothing(codec: Codec, disk: Disk, log: seq<Entry>, i: nat, e: Entry, k: nat, cut: bool)
    requires RoundTrips(codec) && OnDisk(codec, disk, log) && i <= |log|
    requires k <= |codec.serialise(e)| && Repeats(codec, log, i, codec.serialise(e), k)
    requires cut ==>
               && k == |codec.serialise(e)|
               && |Bytes(codec, log)| <= |Bytes(codec, log[..i])| + |codec.serialise(e)|
    ensures var from, data := |Bytes(codec, log[..i])|, codec.serialise(e);
            var now := if cut then WriteAndCut(disk.bytes, from, data) else Patch(disk.bytes, from, data[..k]);
            MidWrite(disk.bytes, from, data, now) && Reload(codec, Disk(now, disk.offsets)) == log
  {
    hide RoundTrips, Reload, Bytes;
    var from, data, stored := |Bytes(codec, log[..i])|, codec.serialise(e), Bytes(codec, log);
    var now := if cut then WriteAndCut(disk.bytes, from, data) else Patch(disk.bytes, from, data[..k]);
    BytesPrefix(codec, log, i);
    assert stored <= now by {
      forall j | 0 <= j < |stored| ensures j < |now| && now[j] == stored[j] {
        assert disk.bytes[j] == stored[j];
      }
    }
    ReloadRecovers(codec, Disk(now, disk.offsets), log);
  }

  lemma {:induction false} BytesReplace(codec: Codec, log: seq<Entry>, i: nat, e: Entry)
    requires i < |log| && |codec.serialise(e)| == |codec.serialise(log[i])|
    ensures var from, end := |Bytes(codec, log[..i])|, |Bytes(codec, log[..i])| + |codec.serialise(e)|;
            && end <= |Bytes(codec, log)|
            && Bytes(codec, log[i := e]) ==
               Bytes(codec, log)[..from] + codec.serialise(e) + Bytes(codec, log)[end..]
  {
    hide Bytes;
    var most, last := log[..|log| - 1], log[|log| - 1];
    assert log == most + [last];
    BytesAppend(codec, most, last);
    if i == |log| - 1 {
      assert log[i := e] == most + [e] && log[..i] == most;
      BytesAppend(codec, most, e);
    } else {
      BytesReplace(codec, most, i, e);
      assert most[..i] == log[..i] && log[i := e] == most[i := e] + [last];
      BytesAppend(codec, most[i := e], last);
      var from := |Bytes(codec, log[..i])|;
      Splice(Bytes(codec, most), codec.serialise(last), codec.serialise(e), from, from + |codec.serialise(e)|);
    }
  }

  lemma Splice(a: seq<Byte>, l: seq<Byte>, s: seq<Byte>, from: nat, end: nat)
    requires from <= end <= |a|
    ensures a[..from] + s + a[end..] + l == (a + l)[..from] + s + (a + l)[end..]
  {
    assert (a + l)[..from] == a[..from] && (a + l)[end..] == a[end..] + l;
    assert a[..from] + s + a[end..] + l == a[..from] + s + (a[end..] + l);
  }

  /** Some crash inside the insert, before the offset file is written, makes the next start load `back`. */
  ghost predicate CrashGives(codec: Codec, disk: Disk, log: seq<Entry>, i: nat, e: Entry, back: seq<Entry>)
    requires i <= |log|
  {
    exists now :: MidWrite(disk.bytes, |Bytes(codec, log[..i])|, codec.serialise(e), now)
      && Reload(codec, Disk(now, disk.offsets)) == back
  }

  /** An overwrite is not as safe: whatever entry it replaces by one of equal size, the new entry can come back in
      the middle of the old log. */
  lemma CrashedOverwriteReplaces(codec: Codec, disk: Disk, log: seq<Entry>, i: nat, e: Entry)
    requires RoundTrips(codec) && OnDisk(codec, disk, log) && i < |log|
    requires |codec.serialise(e)| == |codec.serialise(log[i])|
    ensures CrashGives(codec, disk, log, i, e, log[i := e])
  {
    hide RoundTrips, Reload, Bytes;
    var from, data, stored := |Bytes(codec, log[..i])|, codec.serialise(e), Bytes(codec, log);
    var now := Patch(disk.bytes, from, data);
    assert data[..|data|] == data;
    BytesReplace(codec, log, i, e);
    assert Bytes(codec, log[i := e]) <= now by {
      forall j | 0 <= j < |stored| ensures j < |now| && now[j] == Bytes(codec, log[i := e])[j] {
        assert disk.bytes[j] == stored[j];
      }
    }
    SameOffsets(codec, log, i, e);
    ReloadRecovers(codec, Disk(now, disk.offsets), log[i := e]);
  }

  lemma SameOffsets(codec: Codec, log: seq<Entry>, i: nat, e: Entry)
    requires i < |log| && |codec.serialise(e)| == |codec.serialise(log[i])|
    ensures Offsets(codec, log[i := e]) == Offsets(codec, log)
  {
    hide Bytes;
    forall k | 0 <= k <= |log| ensures |Bytes(codec, log[i := e][..k])| == |Bytes(codec, log[..k])| {
      if k <= i {
        assert log[i := e][..k] == log[..k];
      } else {
        assert log[i := e][..k] == log[..k][i := e] && log[..k][..i] == log[..i];
        BytesReplace(codec, log[..k], i, e);
      }
    }
  }
}
