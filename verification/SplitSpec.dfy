/** What splitting a capture by second and merging captures compute, as functions on file contents. */
module SplitSpec {
  import opened Bytes
  import opened PcapFormat
  import opened Partition
  import opened Calendar
  import opened FileSystem

  // ---------- splitting ----------

  datatype Position = HEAD | MID | TAIL

  datatype SplitPiece = SplitPiece(savePath: string, moduleName: string, stamp: Stamp, position: Position)

  datatype SplitOutcome = SplitOutcome(processed: seq<SplitPiece>, unprocessed: seq<SplitPiece>)

  /** The output template: one place for the timestamp label. */
  datatype Template = Template(before: string, after: string) {
    function Fill(text: string): string {
      before + text + after
    }
  }

  function SavePath(t: Template, tz: Offset, second: nat): string {
    t.Fill(LabelOf(tz, second))
  }

  function PieceFor(t: Template, tz: Offset, moduleName: string, second: nat, position: Position): SplitPiece {
    SplitPiece(SavePath(t, tz, second), moduleName, StampOf(tz, second), position)
  }

  function MidPieces(t: Template, tz: Offset, moduleName: string, ks: seq<nat>): seq<SplitPiece> {
    seq(|ks|, i requires 0 <= i < |ks| => PieceFor(t, tz, moduleName, ks[i], MID))
  }

  /** First second HEAD, last second TAIL when it is another one, the ones between MID. */
  function OutcomeFor(t: Template, tz: Offset, moduleName: string, ks: seq<nat>): SplitOutcome {
    if ks == [] then SplitOutcome([], [])
    else if |ks| == 1 then SplitOutcome([], [PieceFor(t, tz, moduleName, ks[0], HEAD)])
    else SplitOutcome(MidPieces(t, tz, moduleName, ks[1..|ks| - 1]),
                      [PieceFor(t, tz, moduleName, ks[0], HEAD), PieceFor(t, tz, moduleName, ks[|ks| - 1], TAIL)])
  }

  /** The content written for one second of a capture. */
  function PieceBytes(file: seq<byte>, second: nat): seq<byte> {
    FileHeaderOf(file) + WriteRecords(Group(RecordsOf(file), second))
  }

  /** The disk after the pieces of the seconds `ks` have been written in order. */
  function WithPieces(files: Files, t: Template, tz: Offset, file: seq<byte>, ks: seq<nat>): Files {
    if ks == [] then files
    else
      var n := |ks| - 1;
      WithPieces(files, t, tz, file, ks[..n])[SavePath(t, tz, ks[n]) := PieceBytes(file, ks[n])]
  }

  lemma SavePathInjective(t: Template, tz: Offset, a: nat, b: nat)
    requires a < 0x2_0000_0000 && b < 0x2_0000_0000
    requires SavePath(t, tz, a) == SavePath(t, tz, b)
    ensures a == b
  {
    LabelShape(tz, a);
    LabelShape(tz, b);
    var k := |t.before|;
    assert SavePath(t, tz, a)[k..k + 14] == LabelOf(tz, a);
    assert SavePath(t, tz, b)[k..k + 14] == LabelOf(tz, b);
    LabelInjective(tz, a, b);
  }

  /** Each second's file holds its own group, whatever else is written. */
  lemma {:induction false} PieceOnDisk(files: Files, t: Template, tz: Offset, file: seq<byte>, ks: seq<nat>, i: nat)
    requires Increasing(ks) && i < |ks| && forall j :: 0 <= j < |ks| ==> ks[j] < 0x2_0000_0000
    ensures var after := WithPieces(files, t, tz, file, ks);
            SavePath(t, tz, ks[i]) in after && after[SavePath(t, tz, ks[i])] == PieceBytes(file, ks[i])
  {
    var n := |ks| - 1;
    if i < n {
      assert forall j :: 0 <= j < n ==> ks[..n][j] == ks[j];
      PieceOnDisk(files, t, tz, file, ks[..n], i);
      if SavePath(t, tz, ks[i]) == SavePath(t, tz, ks[n]) { SavePathInjective(t, tz, ks[i], ks[n]); }
    }
  }

  /** All other paths are untouched. */
  lemma {:induction false} OtherPathKept(files: Files, t: Template, tz: Offset, file: seq<byte>, ks: seq<nat>, p: string)
    requires forall i :: 0 <= i < |ks| ==> p != SavePath(t, tz, ks[i])
    ensures var after := WithPieces(files, t, tz, file, ks);
            (p in after <==> p in files) && (p in files ==> after[p] == files[p])
  {
    if ks != [] {
      OtherPathKept(files, t, tz, file, ks[..|ks| - 1], p);
    }
  }

  /** Seconds read from a file fit the label's range. */
  lemma SecondsBound(file: seq<byte>)
    ensures forall s :: s in Seconds(RecordsOf(file)) ==> s < 0x2_0000_0000
  {
    ParsedAreWellFormed(BodyOf(file));
    var rs := RecordsOf(file);
    forall s | s in Seconds(rs) ensures s < 0x2_0000_0000 {
      var i :| 0 <= i < |rs| && SecondOf(rs[i]) == s;
      SecondBound(rs[i]);
    }
  }

  /** A file with records has a full header, so every piece is a well-formed capture of its group. */
  lemma PieceReadsBack(file: seq<byte>, second: nat)
    requires RecordsOf(file) != []
    ensures |file| >= FILE_HEADER_SIZE
    ensures FileHeaderOf(PieceBytes(file, second)) == FileHeaderOf(file)
    ensures RecordsOf(PieceBytes(file, second)) == Group(RecordsOf(file), second)
    ensures Whole(PieceBytes(file, second))
  {
    ParsedAreWellFormed(BodyOf(file));
    GroupWellFormed(RecordsOf(file), second);
    WrittenFileReadsBack(FileHeaderOf(file), Group(RecordsOf(file), second));
    assert PieceBytes(file, second)[FILE_HEADER_SIZE..] == WriteRecords(Group(RecordsOf(file), second));
  }

  /** After a split the file of each second holds exactly that second's records, in input order. */
  lemma SplitFilesAreGroups(files: Files, t: Template, tz: Offset, file: seq<byte>, s: nat)
    requires s in Seconds(RecordsOf(file))
    ensures var after := WithPieces(files, t, tz, file, Sorted(Seconds(RecordsOf(file))));
            && SavePath(t, tz, s) in after
            && RecordsOf(after[SavePath(t, tz, s)]) == Group(RecordsOf(file), s)
            && Whole(after[SavePath(t, tz, s)])
  {
    SecondsBound(file);
    PieceReadsBack(file, s);
    MemberOnDisk(files, t, tz, file, Sorted(Seconds(RecordsOf(file))), s);
  }

  lemma MemberOnDisk(files: Files, t: Template, tz: Offset, file: seq<byte>, ks: seq<nat>, s: nat)
    requires Increasing(ks) && s in ks && forall k :: k in ks ==> k < 0x2_0000_0000
    ensures var after := WithPieces(files, t, tz, file, ks);
            SavePath(t, tz, s) in after && after[SavePath(t, tz, s)] == PieceBytes(file, s)
  {
    var i :| 0 <= i < |ks| && ks[i] == s;
    assert forall j :: 0 <= j < |ks| ==> ks[j] in ks;
    PieceOnDisk(files, t, tz, file, ks, i);
  }

  /** One piece per second of the increasing list `ks`: the least second is HEAD, the greatest is TAIL
      if it differs, all others are MID. */
  lemma SplitPositions(t: Template, tz: Offset, moduleName: string, ks: seq<nat>, s: nat)
    requires Increasing(ks) && s in ks && forall k :: k in ks ==> k < 0x2_0000_0000
    ensures var out := OutcomeFor(t, tz, moduleName, ks);
            var head, tail := ks[0], ks[|ks| - 1];
            && head in ks && tail in ks && head <= s <= tail
            && out.unprocessed == [PieceFor(t, tz, moduleName, head, HEAD)]
                                  + (if head == tail then [] else [PieceFor(t, tz, moduleName, tail, TAIL)])
            && (PieceFor(t, tz, moduleName, s, MID) in out.processed <==> head < s < tail)
            && (forall i :: 0 <= i < |out.processed| ==> out.processed[i].position == MID)
            && |out.processed| + |out.unprocessed| == |ks|
  {
    MidsAreBetween(t, tz, moduleName, ks, s);
  }

  lemma MidsAreBetween(t: Template, tz: Offset, moduleName: string, ks: seq<nat>, s: nat)
    requires Increasing(ks) && s in ks && forall k :: k in ks ==> k < 0x2_0000_0000
    ensures PieceFor(t, tz, moduleName, s, MID) in OutcomeFor(t, tz, moduleName, ks).processed <==> ks[0] < s < ks[|ks| - 1]
  {
    if |ks| >= 2 {
      var inner := ks[1..|ks| - 1];
      InnerIsBetween(ks, s);
      if s in inner {
        var i :| 0 <= i < |inner| && inner[i] == s;
        assert MidPieces(t, tz, moduleName, inner)[i] == PieceFor(t, tz, moduleName, s, MID);
      } else if PieceFor(t, tz, moduleName, s, MID) in MidPieces(t, tz, moduleName, inner) {
        forall i | 0 <= i < |inner| ensures inner[i] < 0x2_0000_0000 { assert inner[i] == ks[i + 1] && ks[i + 1] in ks; }
        MidIsInner(t, tz, moduleName, inner, s);
      }
    }
  }

  lemma InnerIsBetween(ks: seq<nat>, s: nat)
    requires Increasing(ks) && s in ks && |ks| >= 2
    ensures s in ks[1..|ks| - 1] <==> ks[0] < s < ks[|ks| - 1]
  {
    var i :| 0 <= i < |ks| && ks[i] == s;
    if 0 < i < |ks| - 1 {
      assert ks[1..|ks| - 1][i - 1] == s;
    }
  }

  /** A MID piece is that of one of the seconds the MID pieces were made for. */
  lemma MidIsInner(t: Template, tz: Offset, moduleName: string, inner: seq<nat>, s: nat)
    requires PieceFor(t, tz, moduleName, s, MID) in MidPieces(t, tz, moduleName, inner)
    requires s < 0x2_0000_0000 && forall i :: 0 <= i < |inner| ==> inner[i] < 0x2_0000_0000
    ensures s in inner
  {
    var mids := MidPieces(t, tz, moduleName, inner);
    var j :| 0 <= j < |mids| && mids[j] == PieceFor(t, tz, moduleName, s, MID);
    assert mids[j] == PieceFor(t, tz, moduleName, inner[j], MID);
    SavePathInjective(t, tz, s, inner[j]);
  }

  // ---------- merging ----------

  /** The bodies of the captures one after another. */
  function Bodies(cs: seq<seq<byte>>): seq<byte> {
    if cs == [] then [] else BodyOf(cs[0]) + Bodies(cs[1..])
  }

  /** First file's header, then every body. */
  function Merged(cs: seq<seq<byte>>): seq<byte> {
    if cs == [] then [] else FileHeaderOf(cs[0]) + Bodies(cs)
  }

  /** A capture with a full header and nothing but whole records behind it. */
  predicate Whole(c: seq<byte>) {
    |c| >= FILE_HEADER_SIZE && WriteRecords(RecordsOf(c)) == BodyOf(c)
  }

  function AllRecords(cs: seq<seq<byte>>): seq<Record> {
    if cs == [] then [] else RecordsOf(cs[0]) + AllRecords(cs[1..])
  }

  lemma {:induction false} BodiesParse(cs: seq<seq<byte>>)
    requires forall i :: 0 <= i < |cs| - 1 ==> Whole(cs[i])
    ensures ParseRecords(Bodies(cs)) == AllRecords(cs)
  {
    if |cs| == 1 {
      assert Bodies(cs) == BodyOf(cs[0]) + [] == BodyOf(cs[0]);
    } else if |cs| > 1 {
      BodiesParse(cs[1..]);
      assert Whole(cs[0]);
      ParsedAreWellFormed(BodyOf(cs[0]));
      ParseAfterWrite(RecordsOf(cs[0]), Bodies(cs[1..]));
    }
  }

  /** Merging concatenates the record lists; only the last file may end in a cut-off record. */
  lemma MergeConcatenatesRecords(cs: seq<seq<byte>>)
    requires cs != [] && |cs[0]| >= FILE_HEADER_SIZE
    requires forall i :: 0 <= i < |cs| - 1 ==> Whole(cs[i])
    ensures FileHeaderOf(Merged(cs)) == FileHeaderOf(cs[0])
    ensures RecordsOf(Merged(cs)) == AllRecords(cs)
  {
    BodiesParse(cs);
    assert Merged(cs)[..FILE_HEADER_SIZE] == FileHeaderOf(cs[0]);
    assert Merged(cs)[FILE_HEADER_SIZE..] == Bodies(cs);
  }

  function PiecesOf(file: seq<byte>, ks: seq<nat>): seq<seq<byte>> {
    seq(|ks|, i requires 0 <= i < |ks| => PieceBytes(file, ks[i]))
  }

  lemma {:induction false} BodiesOfPieces(file: seq<byte>, ks: seq<nat>)
    requires RecordsOf(file) != []
    ensures Bodies(PiecesOf(file, ks)) == WriteRecords(Concatenated(RecordsOf(file), ks))
  {
    if ks != [] {
      PieceReadsBack(file, ks[0]);
      BodiesOfPieces(file, ks[1..]);
      assert PiecesOf(file, ks)[1..] == PiecesOf(file, ks[1..]);
      WriteAppend(Group(RecordsOf(file), ks[0]), Concatenated(RecordsOf(file), ks[1..]));
    }
  }

  /** Merging all pieces in second order gives back the capture sorted by second, stably; if its
      seconds never decrease, byte for byte its prefix of whole records. */
  lemma MergeUndoesSplit(file: seq<byte>)
    requires RecordsOf(file) != []
    ensures var merged := Merged(PiecesOf(file, Sorted(Seconds(RecordsOf(file)))));
            && IsStableSort(RecordsOf(merged), RecordsOf(file))
            && (SortedBySecond(RecordsOf(file)) ==>
                  merged == FileHeaderOf(file) + WriteRecords(RecordsOf(file)) && merged <= file)
  {
    var rs := RecordsOf(file);
    var ks := Sorted(Seconds(rs));
    assert SecondOf(rs[0]) in ks;
    var cs := PiecesOf(file, ks);
    var merged := Merged(cs);
    PieceReadsBack(file, ks[0]);
    assert FileHeaderOf(cs[0]) == FileHeaderOf(file);
    BodiesOfPieces(file, ks);
    GroupsAreStableSort(rs);
    assert merged == FileHeaderOf(file) + WriteRecords(Concatenated(rs, ks));
    ParsedAreWellFormed(BodyOf(file));
    ConcatenatedWellFormed(rs, ks);
    WrittenFileReadsBack(FileHeaderOf(file), Concatenated(rs, ks));
    RewrittenFileIsWholeRecordPrefix(file);
    if SortedBySecond(rs) { SortedInputUnchanged(rs); }
  }

  lemma {:induction false} ConcatenatedWellFormed(rs: seq<Record>, ks: seq<nat>)
    requires AllWellFormed(rs)
    ensures AllWellFormed(Concatenated(rs, ks))
  {
    if ks != [] {
      GroupWellFormed(rs, ks[0]);
      ConcatenatedWellFormed(rs, ks[1..]);
    }
  }
}
