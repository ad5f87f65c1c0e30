/** Export, import, export: exactly which events come back unchanged. */
module RoundTrip {
  import opened Common
  import opened Text
  import opened Flags
  import opened Sorting
  import opened Permutations
  import opened Import
  import opened ImportFacts
  import opened Export

  // ---------------------------------------------------------------- the conditions

  predicate CleanFlag(f: Flag) { f.hash != [] }

  predicate CleanFile(f: File) {
    && f.name != "" && TrimSpace(f.name) == f.name
    && f.contentType != "" && TrimSpace(f.contentType) == f.contentType
    && |f.data| <= MaxFileBytes
  }

  ghost predicate CleanFlags(flags: seq<Flag>) { forall f :: f in flags ==> CleanFlag(f) }

  ghost predicate CleanFiles(files: seq<File>) { forall f :: f in files ==> CleanFile(f) }

  ghost predicate CleanRow(c: Row) {
    c.title != "" && c.category != "" && c.state != "" && c.scoring != "" && CleanFlags(c.flags) && CleanFiles(c.files)
  }

  /** Everything import would fill in, skip or trim is absent, and no two challenges share a title. */
  ghost predicate Clean(rows: seq<Row>) { UniqueTitles(rows) && forall c :: c in rows ==> CleanRow(c) }

  // ---------------------------------------------------------------- the comparison

  /** The same challenge, up to the order of its flags and of files with equal names. */
  ghost predicate Same(x: IoChallenge, y: IoChallenge) {
    && x.(flags := [], files := []) == y.(flags := [], files := [])
    && Permuted(x.flags, y.flags)
    && Permuted(x.files, y.files)
  }

  ghost predicate SameExport(x: seq<IoChallenge>, y: seq<IoChallenge>) {
    |x| == |y| && forall i :: 0 <= i < |x| ==> Same(x[i], y[i])
  }

  /** The created_at of the first n rows, inserted one after the other, strictly rises. */
  ghost predicate Rising(stamps: Stamps, n: nat) { forall i: nat, j: nat :: i < j < n ==> stamps(i).at < stamps(j).at }

  // ---------------------------------------------------------------- flags and files come back

  lemma FlagBack(sha: Sha, f: Flag)
    requires CleanFlag(f)
    ensures StoreFlag(sha, ToIoFlag(f)) == Some(f)
  {
    HexRoundTrip(f.hash);
  }

  lemma StoreFlagsSnoc(sha: Sha, out: seq<IoFlag>, f: IoFlag)
    ensures StoreFlags(sha, out + [f]) ==
            StoreFlags(sha, out) + if StoreFlag(sha, f).None? then [] else [StoreFlag(sha, f).value]
  {
    assert (out + [f])[..|out|] == out;
  }

  lemma {:induction false} FlagsBack(sha: Sha, fs: seq<Flag>)
    requires CleanFlags(fs)
    ensures StoreFlags(sha, Map(ToIoFlag, fs)) == fs
  {
    if fs != [] {
      var init, f := fs[..|fs| - 1], fs[|fs| - 1];
      MapSnoc(ToIoFlag, fs);
      FlagsBack(sha, init);
      FlagBack(sha, f);
      StoreFlagsSnoc(sha, Map(ToIoFlag, init), ToIoFlag(f));
      assert fs == init + [f];
    }
  }

  lemma FileBack(f: File, withData: bool)
    requires CleanFile(f)
    ensures StoreFile(ToIoFile(withData)(f)) == Stored(Kept(withData)(f))
  {
  }

  lemma MapSnoc<T, U>(f: T -> U, s: seq<T>)
    requires s != []
    ensures Map(f, s)[..|s| - 1] == Map(f, s[..|s| - 1]) && Map(f, s) == Map(f, s[..|s| - 1]) + [f(s[|s| - 1])]
  {
  }

  lemma {:induction false} FilesBack(gs: seq<File>, withData: bool)
    requires CleanFiles(gs)
    ensures StoreFiles(Map(ToIoFile(withData), gs)) == Map(Kept(withData), gs)
  {
    if gs != [] {
      var n := |gs| - 1;
      var out := Map(ToIoFile(withData), gs);
      MapSnoc(ToIoFile(withData), gs);
      MapSnoc(Kept(withData), gs);
      FilesBack(gs[..n], withData);
      FileBack(gs[n], withData);
      assert StoreFiles(out) == StoreFiles(out[..n]) + [StoreFile(out[n]).file];
    }
  }

  /** What of a file an export carries. */
  function Kept(withData: bool): File -> File { (f: File) => if withData then f else f.(data := []) }

  lemma CleanPermutedFlags(s: seq<Flag>, t: seq<Flag>)
    requires Permuted(s, t) && CleanFlags(s)
    ensures CleanFlags(t)
  {
    forall f | f in t ensures CleanFlag(f) {
      PermutedMember(s, t, f);
    }
  }

  lemma CleanPermutedFiles(s: seq<File>, t: seq<File>)
    requires Permuted(s, t) && CleanFiles(s)
    ensures CleanFiles(t)
  {
    forall f | f in t ensures CleanFile(f) {
      PermutedMember(s, t, f);
    }
  }

  lemma FlagsRoundTrip(sha: Sha, flags: seq<Flag>, x: seq<IoFlag>, y: seq<IoFlag>)
    requires CleanFlags(flags) && FlagsOut(flags, x) && FlagsOut(StoreFlags(sha, x), y)
    ensures Permuted(flags, StoreFlags(sha, x)) && Permuted(x, y)
  {
    var fs: seq<Flag> :| Permuted(flags, fs) && x == Map(ToIoFlag, fs);
    CleanPermutedFlags(flags, fs);
    FlagsBack(sha, fs);
    var hs: seq<Flag> :| Permuted(fs, hs) && y == Map(ToIoFlag, hs);
    MapPermuted(ToIoFlag, fs, hs);
  }

  lemma FilesRoundTrip(files: seq<File>, x: seq<IoFile>, y: seq<IoFile>)
    requires CleanFiles(files) && FilesOut(files, true, x) && FilesOut(StoreFiles(x), true, y)
    ensures Permuted(files, StoreFiles(x)) && Permuted(x, y)
    ensures DistinctNames(files) ==> x == y
  {
    var gs: seq<File> :| Permuted(files, gs) && Ordered(gs, NamedBefore) && x == Map(ToIoFile(true), gs);
    CleanPermutedFiles(files, gs);
    FilesBack(gs, true);
    assert Map(Kept(true), gs) == gs;
    var hs: seq<File> :| Permuted(gs, hs) && Ordered(hs, NamedBefore) && y == Map(ToIoFile(true), hs);
    MapPermuted(ToIoFile(true), gs, hs);
    if DistinctNames(files) {
      NamesAreOrdered();
      DistinctNamesSorted(files, gs);
      OrderedUnique(gs, hs, NamedBefore);
    }
  }

  /** No name is used twice. */
  ghost predicate DistinctNames(files: seq<File>) {
    Distinct(files) && forall f, g :: f in files && g in files && f != g ==> f.name != g.name
  }

  lemma DistinctNamesSorted(files: seq<File>, gs: seq<File>)
    requires DistinctNames(files) && Permuted(files, gs) && Ordered(gs, NamedBefore)
    ensures Sorted(gs, NamedBefore)
  {
    PermutedDistinct(files, gs);
    forall i, j | 0 <= i < j < |gs| ensures NamedBefore(gs[i], gs[j]) {
      PermutedMember(files, gs, gs[i]);
      PermutedMember(files, gs, gs[j]);
      StringLessTotal(gs[i].name, gs[j].name);
      assert gs[i] != gs[j] && !NamedBefore(gs[j], gs[i]);
    }
  }

  /** One clean row: written, created again elsewhere, and written again. */
  lemma RowRoundTrip(sha: Sha, c: Row, x: IoChallenge, s: Stamp, y: IoChallenge)
    requires CleanRow(c) && Written(c, true, x) && Written(Created(s, Converted(sha, x)), true, y)
    ensures Same(x, y)
    ensures DistinctNames(c.files) ==> x.files == y.files
  {
    FlagsRoundTrip(sha, c.flags, x.flags, y.flags);
    FilesRoundTrip(c.files, x.files, y.files);
  }

  // ---------------------------------------------------------------- order comes back

  lemma PermutedTitles(s: seq<Row>, t: seq<Row>)
    requires Permuted(s, t) && UniqueTitles(s)
    ensures UniqueTitles(t)
  {
    assert Distinct(s);
    PermutedDistinct(s, t);
    forall i, j | 0 <= i < j < |t| ensures t[i].title != t[j].title {
      PermutedMember(s, t, t[i]);
      PermutedMember(s, t, t[j]);
      var k :| 0 <= k < |s| && s[k] == t[i];
      var l :| 0 <= l < |s| && s[l] == t[j];
      assert k != l;
    }
  }

  lemma PermutedClean(s: seq<Row>, t: seq<Row>)
    requires Permuted(s, t) && Clean(s)
    ensures Clean(t)
  {
    PermutedTitles(s, t);
    forall c | c in t ensures CleanRow(c) {
      PermutedMember(s, t, c);
    }
  }

  ghost predicate NewTitles(file: seq<Entry>) {
    && (forall i :: 0 <= i < |file| ==> file[i].title != "")
    && (forall i, j :: 0 <= i < j < |file| ==> file[i].title != file[j].title)
  }

  /** Distinct titles imported into an empty event: one new row for each, in the order of the file. */
  lemma {:induction false} ImportedFresh(file: seq<Entry>, stamps: Stamps)
    requires NewTitles(file)
    ensures var t := Imported([], file, stamps);
            |t| == |file| && forall i :: 0 <= i < |file| ==> t[i] == Created(stamps(i), file[i])
  {
    if file != [] {
      var n := |file| - 1;
      assert forall i :: 0 <= i < n ==> file[..n][i] == file[i];
      ImportedFresh(file[..n], stamps);
      assert !HasTitle(Imported([], file[..n], stamps), file[n].title);
    }
  }

  /** The new rows have no choice of list order: all have position 0, and created_at rises. */
  lemma FreshListing(file: seq<Entry>, stamps: Stamps, list: seq<Row>)
    requires NewTitles(file) && Rising(stamps, |file|) && Listing(Imported([], file, stamps), list)
    ensures list == Imported([], file, stamps)
  {
    ImportedFresh(file, stamps);
    OrderedUnique(Imported([], file, stamps), list, ListedBefore);
  }

  lemma ExportedTitles(sha: Sha, list: seq<Row>, x: seq<IoChallenge>)
    requires Clean(list) && WrittenAll(list, true, x)
    ensures NewTitles(Entries(sha, x))
  {
    var file := Entries(sha, x);
    forall i | 0 <= i < |file| ensures file[i].title == list[i].title && CleanRow(list[i]) {
      assert list[i] in list && Written(list[i], true, x[i]);
    }
  }

  lemma CleanRoundTrips(sha: Sha, rows: seq<Row>, x: seq<IoChallenge>, stamps: Stamps, y: seq<IoChallenge>)
    requires Clean(rows) && IsExport(rows, true, x) && Rising(stamps, |x|)
    requires IsExport(Imported([], Entries(sha, x), stamps), true, y)
    ensures SameExport(x, y)
    ensures (forall c :: c in rows ==> DistinctNames(c.files)) ==> forall i :: 0 <= i < |x| ==> x[i].files == y[i].files
  {
    var list: seq<Row> :| Listing(rows, list) && WrittenAll(list, true, x);
    PermutedClean(rows, list);
    var file := Entries(sha, x);
    ExportedTitles(sha, list, x);
    ImportedFresh(file, stamps);
    var back: seq<Row> :| Listing(Imported([], file, stamps), back) && WrittenAll(back, true, y);
    FreshListing(file, stamps, back);
    forall i | 0 <= i < |x| ensures Same(x[i], y[i]) && (DistinctNames(list[i].files) ==> x[i].files == y[i].files) {
      SameRow(sha, list, x, stamps, i, back[i], y[i]);
    }
    forall i | 0 <= i < |x| ensures list[i] in rows {
      assert list[i] in list;
      PermutedMember(rows, list, list[i]);
    }
  }

  ghost predicate Appears(c: IoChallenge, xs: seq<IoChallenge>) { exists k :: 0 <= k < |xs| && Same(c, xs[k]) }

  lemma SameEitherWay(c: IoChallenge, d: IoChallenge)
    requires Same(c, d)
    ensures Same(d, c)
  {
  }

  lemma ComesBack(sha: Sha, list: seq<Row>, x: seq<IoChallenge>, stamps: Stamps, back: seq<Row>, y: seq<IoChallenge>)
    requires Clean(list) && WrittenAll(list, true, x) && WrittenAll(back, true, y)
    requires Permuted(Imported([], Entries(sha, x), stamps), back)
    ensures |x| == |y|
    ensures forall k :: 0 <= k < |x| ==> Appears(x[k], y)
    ensures forall i :: 0 <= i < |y| ==> Appears(y[i], x)
  {
    var created := Imported([], Entries(sha, x), stamps);
    ExportedTitles(sha, list, x);
    ImportedFresh(Entries(sha, x), stamps);
    assert |multiset(created)| == |created| && |multiset(back)| == |back|;
    forall k | 0 <= k < |x| ensures Appears(x[k], y) {
      PermutedMember(created, back, created[k]);
      var i :| 0 <= i < |back| && back[i] == created[k];
      SameRow(sha, list, x, stamps, k, back[i], y[i]);
    }
    forall i | 0 <= i < |y| ensures Appears(y[i], x) {
      PermutedMember(created, back, back[i]);
      var k :| 0 <= k < |created| && created[k] == back[i];
      SameRow(sha, list, x, stamps, k, back[i], y[i]);
      SameEitherWay(x[k], y[i]);
    }
  }

  /**
   * Whatever the creation times: rows created at one instant may be listed either way, and the challenges of a clean
   * event still all come back, and nothing else.
   */
  lemma CleanRoundTripsInSomeOrder(sha: Sha, rows: seq<Row>, x: seq<IoChallenge>, stamps: Stamps, y: seq<IoChallenge>)
    requires Clean(rows) && IsExport(rows, true, x)
    requires IsExport(Imported([], Entries(sha, x), stamps), true, y)
    ensures |x| == |y|
    ensures forall k :: 0 <= k < |x| ==> Appears(x[k], y)
    ensures forall i :: 0 <= i < |y| ==> Appears(y[i], x)
  {
    var list: seq<Row> :| Listing(rows, list) && WrittenAll(list, true, x);
    PermutedClean(rows, list);
    var back: seq<Row> :| Listing(Imported([], Entries(sha, x), stamps), back) && WrittenAll(back, true, y);
    ComesBack(sha, list, x, stamps, back, y);
  }

  lemma SameRow(sha: Sha, list: seq<Row>, x: seq<IoChallenge>, stamps: Stamps, k: nat, d: Row, y: IoChallenge)
    requires Clean(list) && WrittenAll(list, true, x) && k < |x|
    requires d == Created(stamps(k), Entries(sha, x)[k]) && Written(d, true, y)
    ensures Same(x[k], y) && (DistinctNames(list[k].files) ==> x[k].files == y.files)
  {
    assert list[k] in list && Written(list[k], true, x[k]);
    RowRoundTrip(sha, list[k], x[k], stamps(k), y);
  }

  // ---------------------------------------------------------------- what comes out of an import is clean

  lemma TrimmedIsTrimmed(s: string)
    ensures TrimSpace(TrimSpace(s)) == TrimSpace(s)
  {
    var l, r := TrimSpaceIs(s);
    BareIsTrimmed(TrimSpace(s));
  }

  lemma StoredFileClean(f: IoFile)
    requires StoreFile(f).Stored?
    ensures CleanFile(StoreFile(f).file)
  {
    TrimmedIsTrimmed(f.name);
    TrimmedIsTrimmed(f.contentType);
    BareIsTrimmed("application/octet-stream");
    assert Bare("application/octet-stream");
  }

  lemma {:induction false} StoredFilesClean(files: seq<IoFile>)
    ensures CleanFiles(StoreFiles(files))
  {
    if files != [] {
      var n := |files| - 1;
      StoredFilesClean(files[..n]);
      if StoreFile(files[n]).Stored? {
        StoredFileClean(files[n]);
      }
    }
  }

  lemma {:induction false} StoredFlagsClean(sha: Sha, flags: seq<IoFlag>)
    requires forall i :: 0 <= i < |flags| ==> flags[i].value == ""
    ensures CleanFlags(StoreFlags(sha, flags))
  {
    if flags != [] {
      var n := |flags| - 1;
      assert forall i :: 0 <= i < n ==> flags[..n][i] == flags[i];
      StoredFlagsClean(sha, flags[..n]);
    }
  }

  ghost predicate CleanEntry(e: Entry) {
    e.category != "" && e.state != "" && e.scoring != "" && CleanFlags(e.flags) && CleanFiles(e.files)
  }

  lemma WrittenConvertsClean(sha: Sha, c: Row, withData: bool, x: IoChallenge)
    requires Written(c, withData, x)
    ensures CleanEntry(Converted(sha, x))
  {
    var fs: seq<Flag> :| Permuted(c.flags, fs) && x.flags == Map(ToIoFlag, fs);
    StoredFlagsClean(sha, x.flags);
    StoredFilesClean(x.files);
  }

  lemma {:induction false} ImportedClean(file: seq<Entry>, stamps: Stamps)
    requires forall i :: 0 <= i < |file| ==> CleanEntry(file[i])
    ensures Clean(Imported([], file, stamps))
  {
    if file != [] {
      var n := |file| - 1;
      assert forall i :: 0 <= i < n ==> file[..n][i] == file[i];
      ImportedClean(file[..n], stamps);
      UpsertClean(Imported([], file[..n], stamps), file[n], stamps(n));
    }
  }

  lemma UpsertClean(rows: seq<Row>, e: Entry, s: Stamp)
    requires Clean(rows) && CleanEntry(e)
    ensures Clean(Upsert(rows, e, s))
  {
    var t := Upsert(rows, e, s);
    UpsertTitles(rows, e, s);
    forall i | 0 <= i < |t| ensures CleanRow(t[i]) {
      assert i < |rows| ==> CleanRow(rows[i]);
    }
  }

  lemma SameFlagClean(f: Flag, g: Flag)
    requires ToIoFlag(f) == ToIoFlag(g) && CleanFlag(g)
    ensures CleanFlag(f)
  {
    HexRoundTrip(f.hash);
    HexRoundTrip(g.hash);
  }

  /** A member of one list has a member of the other with the same image. */
  lemma Counterpart<T, U>(f: T -> U, s: seq<T>, ss: seq<T>, t: seq<T>, tt: seq<T>, e: T) returns (d: T)
    requires Permuted(s, ss) && Permuted(t, tt) && Permuted(Map(f, ss), Map(f, tt)) && e in s
    ensures d in t && f(d) == f(e)
  {
    PermutedMember(s, ss, e);
    var i :| 0 <= i < |ss| && ss[i] == e;
    assert Map(f, ss)[i] in Map(f, ss);
    PermutedMember(Map(f, ss), Map(f, tt), f(e));
    var j :| 0 <= j < |tt| && Map(f, tt)[j] == f(e);
    d := tt[j];
    PermutedMember(t, tt, d);
  }

  lemma SameFlagsClean(flags: seq<Flag>, x: seq<IoFlag>, others: seq<Flag>, y: seq<IoFlag>)
    requires FlagsOut(flags, x) && FlagsOut(others, y) && Permuted(x, y) && CleanFlags(others)
    ensures CleanFlags(flags)
  {
    var fs: seq<Flag> :| Permuted(flags, fs) && x == Map(ToIoFlag, fs);
    var hs: seq<Flag> :| Permuted(others, hs) && y == Map(ToIoFlag, hs);
    forall f | f in flags ensures CleanFlag(f) {
      var g := Counterpart(ToIoFlag, flags, fs, others, hs, f);
      SameFlagClean(f, g);
    }
  }

  lemma SameFilesClean(files: seq<File>, x: seq<IoFile>, others: seq<File>, y: seq<IoFile>)
    requires FilesOut(files, true, x) && FilesOut(others, true, y) && Permuted(x, y) && CleanFiles(others)
    ensures CleanFiles(files)
  {
    var gs: seq<File> :| Permuted(files, gs) && Ordered(gs, NamedBefore) && x == Map(ToIoFile(true), gs);
    var ks: seq<File> :| Permuted(others, ks) && Ordered(ks, NamedBefore) && y == Map(ToIoFile(true), ks);
    forall f | f in files ensures CleanFile(f) {
      var g := Counterpart(ToIoFile(true), files, gs, others, ks, f);
      assert g == f;
    }
  }

  /** A row written the same way as a clean row is clean. */
  lemma SameIsClean(c: Row, x: IoChallenge, d: Row, y: IoChallenge)
    requires Written(c, true, x) && Written(d, true, y) && Same(x, y) && CleanRow(d)
    ensures CleanRow(c) && c.title == d.title
  {
    SameFlagsClean(c.flags, x.flags, d.flags, y.flags);
    SameFilesClean(c.files, x.files, d.files, y.files);
    assert x.title == y.title && x.category == y.category && x.state == y.state && x.scoring == y.scoring;
  }

  lemma RoundTripIsClean(sha: Sha, rows: seq<Row>, x: seq<IoChallenge>, stamps: Stamps, y: seq<IoChallenge>)
    requires IsExport(rows, true, x) && IsExport(Imported([], Entries(sha, x), stamps), true, y)
    requires SameExport(x, y)
    ensures Clean(rows)
  {
    var list: seq<Row> :| Listing(rows, list) && WrittenAll(list, true, x);
    var file := Entries(sha, x);
    forall i | 0 <= i < |file| ensures CleanEntry(file[i]) {
      WrittenConvertsClean(sha, list[i], true, x[i]);
    }
    ImportedClean(file, stamps);
    var back: seq<Row> :| Listing(Imported([], file, stamps), back) && WrittenAll(back, true, y);
    PermutedClean(Imported([], file, stamps), back);
    forall i | 0 <= i < |list| ensures CleanRow(list[i]) && list[i].title == back[i].title {
      assert back[i] in back;
      SameIsClean(list[i], x[i], back[i], y[i]);
    }
    assert Clean(list);
    PermutedClean(list, rows);
  }

  /**
   * Exporting an event, importing that into an empty one and exporting again gives the same challenges in the same
   * order exactly when the event is clean. `position` is not carried: the order survives because rows are created in
   * list order.
   */
  lemma ExportImportExport(sha: Sha, rows: seq<Row>, x: seq<IoChallenge>, stamps: Stamps, y: seq<IoChallenge>)
    requires IsExport(rows, true, x) && Rising(stamps, |x|)
    requires IsExport(Imported([], Entries(sha, x), stamps), true, y)
    ensures SameExport(x, y) <==> Clean(rows)
    ensures Clean(rows) && (forall c :: c in rows ==> DistinctNames(c.files)) ==>
              forall i :: 0 <= i < |x| ==> x[i].files == y[i].files
  {
    if Clean(rows) {
      CleanRoundTrips(sha, rows, x, stamps, y);
    }
    if SameExport(x, y) {
      RoundTripIsClean(sha, rows, x, stamps, y);
    }
  }

  // ---------------------------------------------------------------- importing an export back where it came from

  lemma {:induction false} OnlyEntry(file: seq<Entry>, k: nat, flags: seq<Flag>, files: seq<File>)
    requires k < |file| && forall i :: 0 <= i < |file| && i != k ==> file[i].title != file[k].title
    ensures var e := file[k];
            && LastEntry(file, e.title) == Some(e)
            && LastFlags(file, e.title, flags) == (if e.flags == [] then flags else e.flags)
            && LastFiles(file, e.title, files) == (if e.files == [] then files else e.files)
  {
    var n := |file| - 1;
    if k == n {
      NoMention(file[..n], file[k].title);
      NoEntryNoFlags(file[..n], file[k].title, flags, files);
    } else {
      assert forall i :: 0 <= i < n ==> file[..n][i] == file[i];
      OnlyEntry(file[..n], k, flags, files);
    }
  }

  lemma {:induction false} NoMention(file: seq<Entry>, title: string)
    requires forall i :: 0 <= i < |file| ==> file[i].title != title
    ensures LastEntry(file, title).None?
  {
    if file != [] {
      NoMention(file[..|file| - 1], title);
    }
  }

  ghost predicate Restored(c: Row, withData: bool, d: Row) {
    && d.(flags := [], files := []) == c.(flags := [], files := [])
    && Permuted(c.flags, d.flags)
    && Permuted(Map(Kept(withData), c.files), d.files)
  }

  /**
   * A clean event's own export, imported back into it, changes nothing but the order of flags and files. An export
   * without data (?files=meta) does the same, except that it empties every file.
   */
  lemma ReimportIntoSameEvent(sha: Sha, rows: seq<Row>, withData: bool, x: seq<IoChallenge>, stamps: Stamps)
    requires Clean(rows) && IsExport(rows, withData, x)
    ensures var t := Imported(rows, Entries(sha, x), stamps);
            && |t| == |rows|
            && forall i :: 0 <= i < |rows| ==> Restored(rows[i], withData, t[i])
  {
    var list: seq<Row> :| Listing(rows, list) && WrittenAll(list, withData, x);
    PermutedClean(rows, list);
    var file := Entries(sha, x);
    var t := Imported(rows, file, stamps);
    forall k | 0 <= k < |file| ensures HasTitle(rows, file[k].title) {
      assert Written(list[k], withData, x[k]) && list[k] in list;
      PermutedMember(rows, list, list[k]);
    }
    NothingNew(rows, file, stamps);
    ImportedTitles(rows, file, stamps);
    forall i | 0 <= i < |rows| ensures Restored(rows[i], withData, t[i]) {
      ReimportAt(sha, rows, list, withData, x, stamps, i);
      UniqueAfter(rows, file, stamps);
      FindUnique(t, i);
    }
  }

  lemma UniqueAfter(rows: seq<Row>, file: seq<Entry>, stamps: Stamps)
    requires UniqueTitles(rows)
    ensures UniqueTitles(Imported(rows, file, stamps))
  {
    ImportedRow(rows, file, stamps, "");
  }

  lemma ReimportAt(sha: Sha, rows: seq<Row>, list: seq<Row>, withData: bool, x: seq<IoChallenge>,
                   stamps: Stamps, i: nat)
    requires Clean(rows) && Clean(list) && Permuted(rows, list) && WrittenAll(list, withData, x) && i < |rows|
    ensures var after := RowOf(Imported(rows, Entries(sha, x), stamps), rows[i].title);
            after.Some? && Restored(rows[i], withData, after.value)
  {
    var file := Entries(sha, x);
    PermutedMember(rows, list, rows[i]);
    var k :| 0 <= k < |list| && list[k] == rows[i];
    assert CleanRow(rows[i]);
    assert Written(list[k], withData, x[k]);
    forall j | 0 <= j < |file| && j != k ensures file[j].title != file[k].title {
      assert Written(list[j], withData, x[j]);
    }
    OneEntryOutcome(rows, file, k, stamps, i);
    ReimportRow(sha, rows[i], withData, x[k]);
  }

  /** An import that names row i once updates it from that entry. */
  lemma OneEntryOutcome(rows: seq<Row>, file: seq<Entry>, k: nat, stamps: Stamps, i: nat)
    requires UniqueTitles(rows) && i < |rows| && k < |file| && file[k].title == rows[i].title != ""
    requires forall j :: 0 <= j < |file| && j != k ==> file[j].title != file[k].title
    ensures RowOf(Imported(rows, file, stamps), rows[i].title) == Some(Updated(rows[i], file[k]))
  {
    ImportedRow(rows, file, stamps, rows[i].title);
    FindUnique(rows, i);
    OnlyEntry(file, k, rows[i].flags, rows[i].files);
  }

  lemma ReimportFlags(sha: Sha, flags: seq<Flag>, x: seq<IoFlag>)
    requires CleanFlags(flags) && FlagsOut(flags, x)
    ensures Permuted(flags, if StoreFlags(sha, x) == [] then flags else StoreFlags(sha, x))
  {
    var fs: seq<Flag> :| Permuted(flags, fs) && x == Map(ToIoFlag, fs);
    CleanPermutedFlags(flags, fs);
    FlagsBack(sha, fs);
  }

  lemma ReimportFiles(files: seq<File>, withData: bool, x: seq<IoFile>)
    requires CleanFiles(files) && FilesOut(files, withData, x)
    ensures Permuted(Map(Kept(withData), files), if StoreFiles(x) == [] then files else StoreFiles(x))
  {
    var gs: seq<File> :| Permuted(files, gs) && Ordered(gs, NamedBefore) && x == Map(ToIoFile(withData), gs);
    CleanPermutedFiles(files, gs);
    FilesBack(gs, withData);
    SameEmptiness(files, gs);
    MapPermuted(Kept(withData), files, gs);
    assert files == [] ==> Map(Kept(withData), files) == files;
    assert files != [] ==> |Map(Kept(withData), gs)| == |gs| > 0;
  }

  lemma ReimportRow(sha: Sha, c: Row, withData: bool, x: IoChallenge)
    requires CleanRow(c) && Written(c, withData, x)
    ensures Restored(c, withData, Updated(c, Converted(sha, x)))
  {
    ReimportFlags(sha, c.flags, x.flags);
    ReimportFiles(c.files, withData, x.files);
  }
}
