/** LocalPcapSplitter: the read, write, split and merge loops, each proved against its function. */
module Splitter {
  import opened Wrappers
  import opened Bytes
  import opened PcapFormat
  import opened Partition
  import opened Calendar
  import opened FileSystem
  import opened SplitSpec
  import opened TimeStamps
  import Names
  import Text

  /** The exceptions split and merge let out. */
  datatype Error = FileNotFound(path: string) | BadName(name: string)

  /** `os.path.basename` */
  function BaseName(path: string): string {
    Text.Last(Text.Split(path, '/'))
  }

  /** The bodies of the files that exist before the first missing one. */
  function PresentBodies(files: Files, paths: seq<string>): seq<byte> {
    if paths == [] || paths[0] !in files then []
    else BodyOf(files[paths[0]]) + PresentBodies(files, paths[1..])
  }

  function FirstMissing(files: Files, paths: seq<string>): Option<string> {
    if paths == [] then None
    else if paths[0] !in files then Some(paths[0])
    else FirstMissing(files, paths[1..])
  }

  /** The disk after a merge: a missing first file stops it before the output is opened, a later one
      leaves the output written so far. */
  function AfterMerge(files: Files, paths: seq<string>, out: string): Files {
    if paths == [] || paths[0] !in files then files
    else files[out := FileHeaderOf(files[paths[0]]) + PresentBodies(files, paths)]
  }

  lemma {:induction false} PresentBodiesSplit(files: Files, paths: seq<string>, k: nat)
    requires k <= |paths| && forall i :: 0 <= i < k ==> paths[i] in files
    ensures PresentBodies(files, paths) == PresentBodies(files, paths[..k]) + PresentBodies(files, paths[k..])
    ensures FirstMissing(files, paths) == FirstMissing(files, paths[k..])
  {
    if k > 0 {
      PresentBodiesSplit(files, paths[1..], k - 1);
      assert paths[1..][..k - 1] == paths[..k][1..] && paths[1..][k - 1..] == paths[k..];
    } else {
      assert paths[..0] == [] && paths[0..] == paths;
    }
  }

  /** With every input present the output is the merge of their contents. */
  lemma {:induction false} MergeOfPresent(files: Files, paths: seq<string>, out: string)
    requires forall i :: 0 <= i < |paths| ==> paths[i] in files
    ensures FirstMissing(files, paths) == None
    ensures PresentBodies(files, paths) == Bodies(Contents(files, paths))
    ensures paths != [] ==> AfterMerge(files, paths, out) == files[out := Merged(Contents(files, paths))]
  {
    if paths != [] {
      MergeOfPresent(files, paths[1..], out);
      assert Contents(files, paths)[1..] == Contents(files, paths[1..]);
    }
  }

  function Contents(files: Files, paths: seq<string>): seq<seq<byte>>
    requires forall i :: 0 <= i < |paths| ==> paths[i] in files
  {
    seq(|paths|, i requires 0 <= i < |paths| => files[paths[i]])
  }

  lemma CutOffPayload(headerBytes: seq<byte>, rest: seq<byte>)
    requires |headerBytes| == PACKET_HEADER_SIZE && |rest| < Decode(headerBytes).caplen
    ensures ParseRecords(headerBytes + rest) == []
  {
    assert (headerBytes + rest)[..PACKET_HEADER_SIZE] == headerBytes;
  }

  lemma WriteOneMore(fileHeader: seq<byte>, rs: seq<Record>, i: nat)
    requires i < |rs|
    ensures fileHeader + WriteRecords(rs[..i + 1])
            == fileHeader + WriteRecords(rs[..i]) + rs[i].headerBytes + rs[i].payload
  {
    assert rs[..i + 1] == rs[..i] + [rs[i]];
    WriteAppend(rs[..i], [rs[i]]);
    assert WriteRecords([rs[i]]) == RecordBytes(rs[i]);
  }

  lemma PieceOneMore(files: Files, t: Template, tz: Offset, file: seq<byte>, ks: seq<nat>, i: nat)
    requires i < |ks|
    ensures WithPieces(files, t, tz, file, ks[..i + 1])
            == WithPieces(files, t, tz, file, ks[..i])[SavePath(t, tz, ks[i]) := PieceBytes(file, ks[i])]
  {
    assert ks[..i + 1][..i] == ks[..i];
  }

  lemma PresentOneMore(files: Files, paths: seq<string>, i: nat)
    requires i < |paths| && forall j :: 0 <= j <= i ==> paths[j] in files
    ensures PresentBodies(files, paths[..i + 1]) == PresentBodies(files, paths[..i]) + BodyOf(files[paths[i]])
  {
    PresentBodiesSplit(files, paths[..i + 1], i);
    assert paths[..i + 1][..i] == paths[..i] && paths[..i + 1][i..] == [paths[i]];
    assert PresentBodies(files, [paths[i]]) == BodyOf(files[paths[i]]);
  }

  lemma MergeOneMore(files: Files, paths: seq<string>, i: nat, fileHeader: seq<byte>)
    requires i < |paths| && forall j :: 0 <= j <= i ==> paths[j] in files
    ensures fileHeader + PresentBodies(files, paths[..i + 1])
            == fileHeader + PresentBodies(files, paths[..i]) + BodyOf(files[paths[i]])
  {
    PresentOneMore(files, paths, i);
    Associative(fileHeader, PresentBodies(files, paths[..i]), BodyOf(files[paths[i]]));
  }

  /** The output after the first `i` inputs have been copied. */
  predicate Copied(files: Files, paths: seq<string>, i: nat, fileHeader: seq<byte>, content: seq<byte>) {
    && i <= |paths| && (forall j :: 0 <= j < i ==> paths[j] in files)
    && paths != [] && paths[0] in files && fileHeader == FileHeaderOf(files[paths[0]])
    && content == fileHeader + PresentBodies(files, paths[..i])
  }

  lemma CopyOneMore(files: Files, paths: seq<string>, i: nat, fileHeader: seq<byte>, content: seq<byte>)
    requires Copied(files, paths, i, fileHeader, content) && i < |paths| && paths[i] in files
    ensures Copied(files, paths, i + 1, fileHeader, content + BodyOf(files[paths[i]]))
  {
    MergeOneMore(files, paths, i, fileHeader);
  }

  lemma SameOutside(files: Files, now: Files, out: string, p: string)
    requires now - {out} == files - {out} && p != out
    ensures p in now <==> p in files
    ensures p in now ==> now[p] == files[p]
  {
    assert p in now - {out} <==> p in now;
    assert p in files - {out} <==> p in files;
    if p in now { assert (now - {out})[p] == now[p]; }
  }

  /** Where a merge ends, at a missing input or behind the last, the disk is as specified. */
  lemma MergeEnds(files: Files, now: Files, paths: seq<string>, i: nat, out: string)
    requires out in now && now - {out} == files - {out} && out !in paths
    requires i <= |paths| && paths != [] && paths[0] in files
    requires Copied(files, paths, i, FileHeaderOf(files[paths[0]]), now[out]) && (i < |paths| ==> paths[i] !in now)
    ensures now == AfterMerge(files, paths, out)
    ensures FirstMissing(files, paths) == if i < |paths| then Some(paths[i]) else None
  {
    if i < |paths| { SameOutside(files, now, out, paths[i]); }
    MergeStops(files, paths, i);
    forall p | p != out ensures (p in now <==> p in files) && (p in now ==> now[p] == files[p]) {
      SameOutside(files, now, out, p);
    }
  }

  /** Where a merge stops, everything before the missing file has been copied. */
  lemma MergeStops(files: Files, paths: seq<string>, i: nat)
    requires i <= |paths| && forall j :: 0 <= j < i ==> paths[j] in files
    requires i < |paths| ==> paths[i] !in files
    ensures PresentBodies(files, paths) == PresentBodies(files, paths[..i])
    ensures FirstMissing(files, paths) == if i < |paths| then Some(paths[i]) else None
  {
    PresentBodiesSplit(files, paths, i);
    assert PresentBodies(files, paths[i..]) == [];
  }

  function ClassifyPosition(second: nat, head: nat, tail: nat): Position {
    if second == head then HEAD else if second == tail then TAIL else MID
  }

  /** The outcome lists after the first `i` seconds have been classified one by one. */
  function ClassifiedUpTo(t: Template, tz: Offset, moduleName: string, ks: seq<nat>, i: nat): SplitOutcome
    requires i <= |ks|
  {
    if i == 0 then SplitOutcome([], [])
    else
      var before := ClassifiedUpTo(t, tz, moduleName, ks, i - 1);
      var position := ClassifyPosition(ks[i - 1], ks[0], ks[|ks| - 1]);
      var piece := PieceFor(t, tz, moduleName, ks[i - 1], position);
      if position == MID then before.(processed := before.processed + [piece])
      else before.(unprocessed := before.unprocessed + [piece])
  }

  lemma {:induction false} ClassifiedPrefix(t: Template, tz: Offset, moduleName: string, ks: seq<nat>, i: nat)
    requires Increasing(ks) && 1 <= i < |ks|
    ensures ClassifiedUpTo(t, tz, moduleName, ks, i)
            == SplitOutcome(MidPieces(t, tz, moduleName, ks[1..i]), [PieceFor(t, tz, moduleName, ks[0], HEAD)])
  {
    if i > 1 {
      ClassifiedPrefix(t, tz, moduleName, ks, i - 1);
      ClassifiedMid(t, tz, moduleName, ks, i - 1);
      MidPiecesSnoc(t, tz, moduleName, ks, i - 1);
    } else {
      assert ClassifiedUpTo(t, tz, moduleName, ks, 0) == SplitOutcome([], []);
      assert MidPieces(t, tz, moduleName, ks[1..1]) == [];
    }
  }

  lemma ClassifiedMid(t: Template, tz: Offset, moduleName: string, ks: seq<nat>, i: nat)
    requires Increasing(ks) && 1 <= i < |ks| - 1
    ensures var before := ClassifiedUpTo(t, tz, moduleName, ks, i);
            ClassifiedUpTo(t, tz, moduleName, ks, i + 1)
            == before.(processed := before.processed + [PieceFor(t, tz, moduleName, ks[i], MID)])
  {
    assert ks[0] < ks[i] < ks[|ks| - 1];
  }

  lemma MidPiecesSnoc(t: Template, tz: Offset, moduleName: string, ks: seq<nat>, i: nat)
    requires 1 <= i < |ks|
    ensures MidPieces(t, tz, moduleName, ks[1..i + 1])
            == MidPieces(t, tz, moduleName, ks[1..i]) + [PieceFor(t, tz, moduleName, ks[i], MID)]
  {
    var before, after := ks[1..i], ks[1..i + 1];
    forall j | 0 <= j < i ensures after[j] == if j < i - 1 then before[j] else ks[i] {
    }
  }

  /** Classifying every second of an increasing list yields the outcome of the specification. */
  lemma ClassifiedAll(t: Template, tz: Offset, moduleName: string, ks: seq<nat>)
    requires Increasing(ks)
    ensures ClassifiedUpTo(t, tz, moduleName, ks, |ks|) == OutcomeFor(t, tz, moduleName, ks)
  {
    if |ks| > 1 {
      ClassifiedPrefix(t, tz, moduleName, ks, |ks| - 1);
      assert ks[0] < ks[|ks| - 1];
    } else if |ks| == 1 {
      assert ClassifiedUpTo(t, tz, moduleName, ks, 0) == SplitOutcome([], []);
    }
  }

  lemma NothingToSplit(files: Files, t: Template, tz: Offset, moduleName: string, file: seq<byte>)
    requires Seconds(RecordsOf(file)) == {}
    ensures OutcomeFor(t, tz, moduleName, Sorted(Seconds(RecordsOf(file)))) == SplitOutcome([], [])
    ensures WithPieces(files, t, tz, file, Sorted(Seconds(RecordsOf(file)))) == files
  {
  }

  class LocalPcapSplitter {
    const disk: Disk
    const tz: Offset

    constructor (disk: Disk, tz: Offset)
      ensures this.disk == disk && this.tz == tz
    {
      this.disk := disk;
      this.tz := tz;
    }

    method ReadPcapRecords(src: string) returns (r: Result<(seq<byte>, seq<Record>), Error>)
      ensures src !in disk.files ==> r == Failure(FileNotFound(src))
      ensures src in disk.files ==> r == Success((FileHeaderOf(disk.files[src]), RecordsOf(disk.files[src])))
      ensures r.Success? ==> r.value.0 == if |disk.files[src]| < 24 then disk.files[src] else disk.files[src][..24]
    {
      if src !in disk.files {
        return Failure(FileNotFound(src));
      }
      var f := new BinaryFile(disk.files[src]);
      var fileHeader := f.Read(FILE_HEADER_SIZE);
      var records: seq<Record> := [];
      while true
        invariant f.data == disk.files[src]
        invariant records + ParseRecords(Remaining(f.data, f.pos)) == RecordsOf(f.data)
        decreases |Remaining(f.data, f.pos)|
      {
        var record := ReadRecord(f);
        if record.None? {
          assert records + [] == records;
          break;
        }
        records := records + [record.value];
      }
      r := Success((fileHeader, records));
    }

    /** One turn of the read loop: None when the header or the payload is cut off. */
    method ReadRecord(f: BinaryFile) returns (record: Option<Record>)
      modifies f`pos
      ensures record.None? ==> ParseRecords(Remaining(f.data, old(f.pos))) == []
      ensures record.Some? ==>
                && ParseRecords(Remaining(f.data, old(f.pos))) == [record.value] + ParseRecords(Remaining(f.data, f.pos))
                && |Remaining(f.data, f.pos)| < |Remaining(f.data, old(f.pos))|
    {
      var headerBytes := f.Read(PACKET_HEADER_SIZE);
      if |headerBytes| < PACKET_HEADER_SIZE {
        return None;
      }
      var header := PacketHeader(LittleEndian(headerBytes[0..4]), LittleEndian(headerBytes[4..8]),
                                 LittleEndian(headerBytes[8..12]), LittleEndian(headerBytes[12..16]));
      var payload := f.Read(header.caplen);
      ghost var rest := Remaining(f.data, f.pos);
      if |payload| < header.caplen {
        CutOffPayload(headerBytes, payload + rest);
        return None;
      }
      var r := Record(header, headerBytes, payload);
      Associative(headerBytes, payload, rest);
      ParseOneRecord(r, rest);
      record := Some(r);
    }

    method WritePcap(savePath: string, fileHeader: seq<byte>, records: seq<Record>)
      modifies disk
      ensures disk.files == old(disk.files)[savePath := fileHeader + WriteRecords(records)]
    {
      disk.Create(savePath);
      disk.Append(savePath, fileHeader);
      assert fileHeader + WriteRecords(records[..0]) == [] + fileHeader;
      for i := 0 to |records|
        invariant disk.files == old(disk.files)[savePath := fileHeader + WriteRecords(records[..i])]
      {
        WriteOneMore(fileHeader, records, i);
        disk.Append(savePath, records[i].headerBytes);
        disk.Append(savePath, records[i].payload);
      }
      assert records[..|records|] == records;
    }

    method GroupBySecond(records: seq<Record>) returns (groups: map<nat, seq<Record>>)
      ensures groups.Keys == Seconds(records)
      ensures forall s :: s in groups ==> groups[s] == Group(records, s)
      ensures GroupedByStamps(records, groups)
    {
      groups := map[];
      for i := 0 to |records|
        invariant groups.Keys == Seconds(records[..i])
        invariant forall s :: s in groups ==> groups[s] == Group(records[..i], s)
      {
        var second := SecondOf(records[i]);
        ghost var seen := records[..i];
        assert records[..i + 1] == seen + [records[i]];
        forall s ensures Group(seen + [records[i]], s) == Group(seen, s) + (if s == second then [records[i]] else []) {
          GroupAppend(seen, [records[i]], s);
        }
        SecondsAppend(seen, records[i]);
        GroupMembers(seen, second);
        var group := if second in groups then groups[second] else [];
        groups := groups[second := group + [records[i]]];
      }
      assert records[..|records|] == records;
      GroupsAreByStamps(records, groups);
    }

    method SplitOnce(src: string, template: Template) returns (r: Result<SplitOutcome, Error>)
      modifies disk
      ensures Names.Parse(BaseName(src)).None? ==> r == Failure(BadName(BaseName(src)))
      ensures Names.Parse(BaseName(src)).Some? && src !in old(disk.files) ==> r == Failure(FileNotFound(src))
      ensures r.Failure? ==> disk.files == old(disk.files)
      ensures Names.Parse(BaseName(src)).Some? && src in old(disk.files) ==>
                var file := old(disk.files)[src];
                var ks := Sorted(Seconds(RecordsOf(file)));
                && r == Success(OutcomeFor(template, tz, Names.Parse(BaseName(src)).value.moduleName, ks))
                && disk.files == WithPieces(old(disk.files), template, tz, file, ks)
    {
      var parts := Names.Parse(BaseName(src));
      if parts.None? {
        return Failure(BadName(BaseName(src)));
      }
      var read := ReadPcapRecords(src);
      if read.Failure? {
        return Failure(read.error);
      }
      var fileHeader, records := read.value.0, read.value.1;
      var groups := GroupBySecond(records);
      if groups.Keys == {} {
        NothingToSplit(disk.files, template, tz, parts.value.moduleName, disk.files[src]);
        return Success(SplitOutcome([], []));
      }
      var ks := Sorted(groups.Keys);
      var outcome := WriteGroups(template, parts.value.moduleName, old(disk.files)[src], fileHeader, groups, ks);
      ClassifiedAll(template, tz, parts.value.moduleName, ks);
      r := Success(outcome);
    }

    method WriteGroups(template: Template, moduleName: string, ghost file: seq<byte>, fileHeader: seq<byte>,
                       groups: map<nat, seq<Record>>, ks: seq<nat>)
      returns (outcome: SplitOutcome)
      requires ks != [] && fileHeader == FileHeaderOf(file)
      requires forall i :: 0 <= i < |ks| ==> ks[i] in groups && groups[ks[i]] == Group(RecordsOf(file), ks[i])
      modifies disk
      ensures outcome == ClassifiedUpTo(template, tz, moduleName, ks, |ks|)
      ensures disk.files == WithPieces(old(disk.files), template, tz, file, ks)
    {
      var head, tail := ks[0], ks[|ks| - 1];
      var processed: seq<SplitPiece>, unprocessed: seq<SplitPiece> := [], [];
      for i := 0 to |ks|
        invariant disk.files == WithPieces(old(disk.files), template, tz, file, ks[..i])
        invariant SplitOutcome(processed, unprocessed) == ClassifiedUpTo(template, tz, moduleName, ks, i)
      {
        var second := ks[i];
        var savePath := SavePath(template, tz, second);
        WritePcap(savePath, fileHeader, groups[second]);
        PieceOneMore(old(disk.files), template, tz, file, ks, i);
        var position := ClassifyPosition(second, head, tail);
        var piece := SplitPiece(savePath, moduleName, StampOf(tz, second), position);
        if position == MID {
          processed := processed + [piece];
        } else {
          unprocessed := unprocessed + [piece];
        }
      }
      assert ks[..|ks|] == ks;
      outcome := SplitOutcome(processed, unprocessed);
    }

    /** When the output is one of the inputs, what is read back from it depends on buffering; then only the
        other files are promised to stay. */
    method MergePcapFiles(paths: seq<string>, out: string) returns (missing: Option<string>)
      modifies disk
      ensures out !in paths ==> missing == FirstMissing(old(disk.files), paths)
      ensures out !in paths ==> disk.files == AfterMerge(old(disk.files), paths, out)
      ensures disk.files - {out} == old(disk.files) - {out}
    {
      ghost var begun := disk.files;
      if paths == [] {
        return None;
      }
      if paths[0] !in disk.files {
        return Some(paths[0]);
      }
      var fileHeader := WriteHeader(paths[0], out);
      for i := 0 to |paths|
        invariant out in disk.files && disk.files - {out} == begun - {out}
        invariant out !in paths ==> Copied(begun, paths, i, fileHeader, disk.files[out])
      {
        if paths[i] !in disk.files {
          if out !in paths { MergeEnds(begun, disk.files, paths, i, out); }
          return Some(paths[i]);
        }
        if out !in paths {
          SameOutside(begun, disk.files, out, paths[i]);
          CopyOneMore(begun, paths, i, fileHeader, disk.files[out]);
        }
        CopyBody(disk.files[paths[i]], out);
      }
      if out !in paths { MergeEnds(begun, disk.files, paths, |paths|, out); }
      missing := None;
    }

    /** Open the output with the header of the first input. */
    method WriteHeader(path: string, out: string) returns (fileHeader: seq<byte>)
      requires path in disk.files
      modifies disk
      ensures fileHeader == FileHeaderOf(old(disk.files)[path])
      ensures disk.files == old(disk.files)[out := fileHeader]
    {
      var first := new BinaryFile(disk.files[path]);
      fileHeader := first.Read(FILE_HEADER_SIZE);
      disk.Create(out);
      disk.Append(out, fileHeader);
      assert [] + fileHeader == fileHeader;
    }

    /** The copy loop of one input, 65536 bytes at a time from behind its header. */
    method CopyBody(content: seq<byte>, out: string)
      requires out in disk.files
      modifies disk
      ensures disk.files == old(disk.files)[out := old(disk.files)[out] + BodyOf(content)]
      ensures disk.files[out] == old(disk.files)[out] + if |content| < 24 then [] else content[24..]
    {
      var src := new BinaryFile(content);
      src.Seek(FILE_HEADER_SIZE);
      while true
        invariant src.data == content && out in disk.files
        invariant disk.files == old(disk.files)[out := disk.files[out]]
        invariant disk.files[out] + Remaining(content, src.pos) == old(disk.files)[out] + BodyOf(content)
        decreases |Remaining(content, src.pos)|
      {
        var chunk := src.Read(65536);
        if chunk == [] {
          assert Remaining(content, src.pos) == [] && disk.files[out] + [] == disk.files[out];
          break;
        }
        disk.Append(out, chunk);
      }
    }
  }

  lemma SecondsAppend(rs: seq<Record>, r: Record)
    ensures Seconds(rs + [r]) == Seconds(rs) + {SecondOf(r)}
  {
    forall s | s in Seconds(rs) + {SecondOf(r)} ensures s in Seconds(rs + [r]) {
      if s in Seconds(rs) {
        var i :| 0 <= i < |rs| && SecondOf(rs[i]) == s;
        assert (rs + [r])[i] == rs[i];
      } else {
        assert (rs + [r])[|rs|] == r;
      }
    }
  }
}
