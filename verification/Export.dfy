/** Exporting an event's challenges to the import format. */
module Export {
  import opened Common
  import opened Text
  import opened Sorting
  import opened Permutations
  import opened Import

  function ToIoFlag(f: Flag): IoFlag { IoFlag("", HexEncode(f.hash), Some(f.caseSensitive)) }

  /** Without the data, as ?files=meta asks, the data field is left out, which reads back as the empty text. */
  function ToIoFile(withData: bool): File -> IoFile {
    (f: File) => IoFile(f.name, f.contentType, Encoded(if withData then f.data else []))
  }

  /** ORDER BY position, created_at */
  predicate ListedBefore(a: Row, b: Row) {
    a.position < b.position || (a.position == b.position && a.createdAt < b.createdAt)
  }

  /** ORDER BY name */
  predicate NamedBefore(a: File, b: File) { StringLess(a.name, b.name) }

  /** The flags, in whatever order the database returns them. */
  ghost predicate FlagsOut(flags: seq<Flag>, out: seq<IoFlag>) {
    exists fs :: Permuted(flags, fs) && out == Map(ToIoFlag, fs)
  }

  ghost predicate FilesOut(files: seq<File>, withData: bool, out: seq<IoFile>) {
    exists gs :: Permuted(files, gs) && Ordered(gs, NamedBefore) && out == Map(ToIoFile(withData), gs)
  }

  /** x is how the row c is written. */
  ghost predicate Written(c: Row, withData: bool, x: IoChallenge) {
    && x == IoChallenge(c.title, c.category, c.description, c.state, Some(c.scoring), Some(c.tags), x.flags, x.files)
    && FlagsOut(c.flags, x.flags)
    && FilesOut(c.files, withData, x.files)
  }

  ghost predicate Listing(rows: seq<Row>, list: seq<Row>) { Permuted(rows, list) && Ordered(list, ListedBefore) }

  ghost predicate WrittenAll(list: seq<Row>, withData: bool, out: seq<IoChallenge>) {
    |out| == |list| && forall i :: 0 <= i < |out| ==> Written(list[i], withData, out[i])
  }

  /** out is an export of the table: its rows in list order, each written out. */
  ghost predicate IsExport(rows: seq<Row>, withData: bool, out: seq<IoChallenge>) {
    exists list :: Listing(rows, list) && WrittenAll(list, withData, out)
  }

  lemma NamesAreOrdered()
    ensures StrictOrder(NamedBefore)
  {
    forall f: File ensures !NamedBefore(f, f) {
      StringLessIrreflexive(f.name);
    }
    forall f: File, g: File, h: File | NamedBefore(f, g) && NamedBefore(g, h) ensures NamedBefore(f, h) {
      StringLessTransitive(f.name, g.name, h.name);
    }
  }

  method WriteFlags(flags: seq<Flag>) returns (out: seq<IoFlag>)
    ensures FlagsOut(flags, out)
  {
    out := [];
    for n := 0 to |flags|
      invariant out == Map(ToIoFlag, flags[..n])
    {
      out := out + [IoFlag("", HexEncode(flags[n].hash), Some(flags[n].caseSensitive))];
    }
    assert flags[..|flags|] == flags;
    assert Permuted(flags, flags);
  }

  method WriteFiles(files: seq<File>, withData: bool) returns (out: seq<IoFile>)
    ensures FilesOut(files, withData, out)
  {
    var metas := Sort(files, NamedBefore);
    NamesAreOrdered();
    SortOrders(files, NamedBefore);
    out := [];
    for n := 0 to |metas|
      invariant out == Map(ToIoFile(withData), metas[..n])
    {
      var data := [];
      if withData {
        data := metas[n].data;
      }
      out := out + [IoFile(metas[n].name, metas[n].contentType, Encoded(data))];
    }
    assert metas[..|metas|] == metas;
  }

  /** The loop of handleExport, with no store error. */
  method Export(rows: seq<Row>, withData: bool) returns (out: seq<IoChallenge>)
    ensures IsExport(rows, withData, out)
  {
    var list := Sort(rows, ListedBefore);
    SortOrders(rows, ListedBefore);
    out := [];
    for n := 0 to |list|
      invariant |out| == n && forall i :: 0 <= i < n ==> Written(list[i], withData, out[i])
    {
      var c := list[n];
      var flags := WriteFlags(c.flags);
      var files := WriteFiles(c.files, withData);
      var io := IoChallenge(c.title, c.category, c.description, c.state, Some(c.scoring), Some(c.tags), flags, files);
      out := out + [io];
    }
    assert Listing(rows, list) && WrittenAll(list, withData, out);
  }
}
