/** What an export says about the table, and in which order. */
module ExportEffects {
  import opened Common
  import opened Text
  import opened Sorting
  import opened Permutations
  import opened Import
  import opened Export

  /** The flag is written as its digest in hexadecimal, never as text, with its case setting. */
  ghost predicate FlagWritten(f: Flag, x: IoFlag) {
    x.value == "" && HexDecode(x.hash) == Some(f.hash) && x.caseSensitive == Some(f.caseSensitive)
  }

  ghost predicate FileWritten(f: File, withData: bool, x: IoFile) {
    x.name == f.name && x.contentType == f.contentType && x.data == Encoded(if withData then f.data else [])
  }

  /** Each flag once, in some order. */
  ghost predicate FlagsWritten(flags: seq<Flag>, out: seq<IoFlag>) {
    exists fs: seq<Flag> :: Permuted(flags, fs) && |out| == |fs| &&
                 forall i :: 0 <= i < |fs| ==> FlagWritten(fs[i], out[i])
  }

  /** Each file once, none before one with a smaller name. */
  ghost predicate FilesWritten(files: seq<File>, withData: bool, out: seq<IoFile>) {
    && (exists fs: seq<File> :: Permuted(files, fs) && |out| == |fs| &&
                     forall i :: 0 <= i < |fs| ==> FileWritten(fs[i], withData, out[i]))
    && forall i, j :: 0 <= i < j < |out| ==> !AlphabeticallyBefore(out[j].name, out[i].name)
  }

  ghost predicate RowWritten(c: Row, withData: bool, x: IoChallenge) {
    && x.title == c.title && x.category == c.category && x.description == c.description && x.state == c.state
    && x.scoring == Some(c.scoring) && x.tags == Some(c.tags)
    && FlagsWritten(c.flags, x.flags) && FilesWritten(c.files, withData, x.files)
  }

  lemma FlagsOutWritten(flags: seq<Flag>, out: seq<IoFlag>)
    requires FlagsOut(flags, out)
    ensures FlagsWritten(flags, out)
  {
    var fs: seq<Flag> :| Permuted(flags, fs) && out == Map(ToIoFlag, fs);
    forall i | 0 <= i < |fs| ensures FlagWritten(fs[i], out[i]) {
      HexRoundTrip(fs[i].hash);
    }
  }

  lemma FilesOutWritten(files: seq<File>, withData: bool, out: seq<IoFile>)
    requires FilesOut(files, withData, out)
    ensures FilesWritten(files, withData, out)
  {
    var gs: seq<File> :| Permuted(files, gs) && Ordered(gs, NamedBefore) && out == Map(ToIoFile(withData), gs);
    assert forall i :: 0 <= i < |gs| ==> FileWritten(gs[i], withData, out[i]);
    forall i, j | 0 <= i < j < |out| ensures !AlphabeticallyBefore(out[j].name, out[i].name) {
      assert !NamedBefore(gs[j], gs[i]);
      StringLessIs(out[j].name, out[i].name);
    }
  }

  /** Every challenge once, by position and then by creation time, each with all its columns, flags and files. */
  lemma ExportShowsTheTable(rows: seq<Row>, withData: bool, out: seq<IoChallenge>) returns (list: seq<Row>)
    requires IsExport(rows, withData, out)
    ensures multiset(list) == multiset(rows) && |out| == |list|
    ensures forall i :: 0 <= i < |out| ==> RowWritten(list[i], withData, out[i])
    ensures forall i, j :: 0 <= i < j < |list| ==>
              list[i].position < list[j].position ||
              (list[i].position == list[j].position && list[i].createdAt <= list[j].createdAt)
  {
    list :| Listing(rows, list) && WrittenAll(list, withData, out);
    forall i | 0 <= i < |out| ensures RowWritten(list[i], withData, out[i]) {
      assert Written(list[i], withData, out[i]);
      FlagsOutWritten(list[i].flags, out[i].flags);
      FilesOutWritten(list[i].files, withData, out[i].files);
    }
    forall i, j | 0 <= i < j < |list|
      ensures list[i].position < list[j].position ||
              (list[i].position == list[j].position && list[i].createdAt <= list[j].createdAt)
    {
      assert !ListedBefore(list[j], list[i]);
    }
  }
}
