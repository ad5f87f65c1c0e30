/** What an import leaves behind: the last value, nothing more the second time; and how far to trust a dry run. */
module ImportFacts {
  import opened Common
  import opened Import

  ghost predicate UniqueTitles(rows: seq<Row>) {
    forall i, j :: 0 <= i < j < |rows| ==> rows[i].title != rows[j].title
  }

  ghost predicate Mentions(file: seq<Entry>, title: string) { exists i :: 0 <= i < |file| && file[i].title == title }

  function RowOf(rows: seq<Row>, title: string): Option<Row> {
    if HasTitle(rows, title) then Some(rows[Find(rows, title)]) else None
  }

  lemma FindUnique(rows: seq<Row>, i: nat)
    requires UniqueTitles(rows) && i < |rows|
    ensures HasTitle(rows, rows[i].title) && Find(rows, rows[i].title) == i &&
            RowOf(rows, rows[i].title) == Some(rows[i])
  {
    assert rows[i].title == rows[i].title;
  }

  // ---------------------------------------------------------------- the last value wins

  /** The last entry of the file with the title. */
  function LastEntry(file: seq<Entry>, title: string): Option<Entry> {
    if file == [] then None
    else if file[|file| - 1].title == title then Some(file[|file| - 1])
    else LastEntry(file[..|file| - 1], title)
  }

  function LastFlags(file: seq<Entry>, title: string, base: seq<Flag>): seq<Flag> {
    if file == [] then base
    else
      var e := file[|file| - 1];
      if e.title == title && e.flags != [] then e.flags else LastFlags(file[..|file| - 1], title, base)
  }

  function LastFiles(file: seq<Entry>, title: string, base: seq<File>): seq<File> {
    if file == [] then base
    else
      var e := file[|file| - 1];
      if e.title == title && e.files != [] then e.files else LastFiles(file[..|file| - 1], title, base)
  }

  /** The position of the first entry with the title. */
  function First(file: seq<Entry>, title: string): nat {
    if file == [] then 0
    else
      var n := |file| - 1;
      if LastEntry(file[..n], title).Some? then First(file[..n], title) else n
  }

  /** What the import makes of a title: content of its last entry, its last flags and files that are not empty. */
  function Outcome(before: Option<Row>, file: seq<Entry>, title: string, stamps: Stamps): Option<Row> {
    var last := LastEntry(file, title);
    if last.None? || title == "" then before
    else
      var created := Created(stamps(First(file, title)), last.value.(flags := [], files := []));
      var base := if before.Some? then before.value else created;
      Some(Row(base.id, title, last.value.category, last.value.description, last.value.state, last.value.scoring,
               last.value.tags, LastFlags(file, title, base.flags), LastFiles(file, title, base.files),
               base.position, base.createdAt))
  }

  lemma {:induction false} NoEntryNoFlags(file: seq<Entry>, title: string, flags: seq<Flag>, files: seq<File>)
    requires LastEntry(file, title).None?
    ensures LastFlags(file, title, flags) == flags && LastFiles(file, title, files) == files
  {
    if file != [] {
      NoEntryNoFlags(file[..|file| - 1], title, flags, files);
    }
  }

  lemma UpsertTitles(rows: seq<Row>, e: Entry, s: Stamp)
    ensures var t := Upsert(rows, e, s);
            |rows| <= |t| && forall i :: 0 <= i < |rows| ==> t[i].title == rows[i].title && t[i].id == rows[i].id
    ensures UniqueTitles(rows) ==> UniqueTitles(Upsert(rows, e, s))
  {
  }

  lemma UpsertRow(rows: seq<Row>, e: Entry, s: Stamp, title: string)
    requires UniqueTitles(rows)
    ensures RowOf(Upsert(rows, e, s), title) ==
            if e.title != title || title == "" then RowOf(rows, title)
            else if HasTitle(rows, title) then Some(Updated(RowOf(rows, title).value, e))
            else Some(Created(s, e))
  {
    var t := Upsert(rows, e, s);
    UpsertTitles(rows, e, s);
    if HasTitle(rows, title) {
      var i := Find(rows, title);
      assert t[i].title == title;
      FindUnique(t, i);
    } else if e.title == title && title != "" {
      assert t[|rows|] == Created(s, e);
      FindUnique(t, |rows|);
    } else {
      assert !HasTitle(t, title);
    }
  }

  /** Titles are matched one by one: each row of the result is the outcome for its title. */
  lemma {:induction false} ImportedRow(rows: seq<Row>, file: seq<Entry>, stamps: Stamps, title: string)
    requires UniqueTitles(rows)
    ensures UniqueTitles(Imported(rows, file, stamps))
    ensures RowOf(Imported(rows, file, stamps), title) == Outcome(RowOf(rows, title), file, title, stamps)
  {
    if file != [] {
      var n := |file| - 1;
      var mid := Imported(rows, file[..n], stamps);
      ImportedRow(rows, file[..n], stamps, title);
      UpsertTitles(mid, file[n], stamps(n));
      UpsertRow(mid, file[n], stamps(n), title);
      NewRowOutcome(RowOf(rows, title), file, title, stamps);
    }
  }

  /** One more entry: Outcome steps the way Upsert does. */
  lemma NewRowOutcome(before: Option<Row>, file: seq<Entry>, title: string, stamps: Stamps)
    requires file != [] && (before.Some? ==> before.value.title == title)
    ensures var n := |file| - 1;
            var mid := Outcome(before, file[..n], title, stamps);
            Outcome(before, file, title, stamps) ==
            if file[n].title != title || title == "" then mid
            else if mid.Some? then Some(Updated(mid.value, file[n]))
            else Some(Created(stamps(n), file[n]))
  {
    var n := |file| - 1;
    if file[n].title == title && LastEntry(file[..n], title).None? {
      var e := file[n];
      var flags := if before.Some? then before.value.flags else [];
      var files := if before.Some? then before.value.files else [];
      NoEntryNoFlags(file[..n], title, flags, files);
    }
  }

  // ---------------------------------------------------------------- importing twice

  lemma {:induction false} ImportedTitles(rows: seq<Row>, file: seq<Entry>, stamps: Stamps)
    ensures var t := Imported(rows, file, stamps);
            |rows| <= |t| && forall i :: 0 <= i < |rows| ==> t[i].title == rows[i].title && t[i].id == rows[i].id
  {
    if file != [] {
      var n := |file| - 1;
      ImportedTitles(rows, file[..n], stamps);
      UpsertTitles(Imported(rows, file[..n], stamps), file[n], stamps(n));
    }
  }

  lemma {:induction false} ImportedHas(rows: seq<Row>, file: seq<Entry>, stamps: Stamps, title: string)
    ensures HasTitle(Imported(rows, file, stamps), title) <==>
            HasTitle(rows, title) || (title != "" && Mentions(file, title))
  {
    if file == [] {
    } else {
      var n := |file| - 1;
      var mid := Imported(rows, file[..n], stamps);
      ImportedHas(rows, file[..n], stamps, title);
      UpsertTitles(mid, file[n], stamps(n));
      MentionsSnoc(file, title);
      UpsertHas(mid, file[n], stamps(n), title);
    }
  }

  lemma UpsertHas(rows: seq<Row>, e: Entry, s: Stamp, title: string)
    ensures HasTitle(Upsert(rows, e, s), title) <==> HasTitle(rows, title) || (title != "" && e.title == title)
  {
    var t := Upsert(rows, e, s);
    UpsertTitles(rows, e, s);
    if HasTitle(rows, title) {
      var i :| 0 <= i < |rows| && rows[i].title == title;
      assert t[i].title == title;
    } else if title != "" && e.title == title {
      assert t[|rows|].title == title;
    }
  }

  lemma MentionsSnoc(file: seq<Entry>, title: string)
    requires file != []
    ensures Mentions(file, title) <==> Mentions(file[..|file| - 1], title) || file[|file| - 1].title == title
  {
    var n := |file| - 1;
    if Mentions(file, title) {
      var i :| 0 <= i < |file| && file[i].title == title;
      assert i < n ==> file[..n][i].title == title;
    }
    if Mentions(file[..n], title) {
      var i :| 0 <= i < n && file[..n][i].title == title;
      assert file[i].title == title;
    }
  }

  /** A file whose titles are all in the table creates nothing. */
  lemma {:induction false} NothingNew(rows: seq<Row>, file: seq<Entry>, stamps: Stamps)
    requires forall i :: 0 <= i < |file| && file[i].title != "" ==> HasTitle(rows, file[i].title)
    ensures |Imported(rows, file, stamps)| == |rows|
  {
    if file != [] {
      var n := |file| - 1;
      assert forall i :: 0 <= i < n ==> file[..n][i] == file[i];
      NothingNew(rows, file[..n], stamps);
      ImportedHas(rows, file[..n], stamps, file[n].title);
    }
  }

  /** An outcome is its own outcome. */
  lemma OutcomeTwice(before: Option<Row>, file: seq<Entry>, title: string, stamps: Stamps, later: Stamps)
    requires before.Some? ==> before.value.title == title
    ensures var once := Outcome(before, file, title, stamps); Outcome(once, file, title, later) == once
  {
    var once := Outcome(before, file, title, stamps);
    if LastEntry(file, title).Some? && title != "" {
      LastFlagsTwice(file, title, once.value.flags, if before.Some? then before.value.flags else []);
      LastFilesTwice(file, title, once.value.files, if before.Some? then before.value.files else []);
    }
  }

  lemma {:induction false} LastFlagsTwice(file: seq<Entry>, title: string, once: seq<Flag>, base: seq<Flag>)
    requires once == LastFlags(file, title, base)
    ensures LastFlags(file, title, once) == once
  {
    if file != [] && !(file[|file| - 1].title == title && file[|file| - 1].flags != []) {
      LastFlagsTwice(file[..|file| - 1], title, once, base);
    }
  }

  lemma {:induction false} LastFilesTwice(file: seq<Entry>, title: string, once: seq<File>, base: seq<File>)
    requires once == LastFiles(file, title, base)
    ensures LastFiles(file, title, once) == once
  {
    if file != [] && !(file[|file| - 1].title == title && file[|file| - 1].files != []) {
      LastFilesTwice(file[..|file| - 1], title, once, base);
    }
  }

  /** Importing a file again changes nothing, even when titles repeat inside the file. */
  lemma ImportTwice(rows: seq<Row>, file: seq<Entry>, stamps: Stamps, later: Stamps)
    requires UniqueTitles(rows)
    ensures Imported(Imported(rows, file, stamps), file, later) == Imported(rows, file, stamps)
  {
    var once := Imported(rows, file, stamps);
    var twice := Imported(once, file, later);
    forall i | 0 <= i < |file| && file[i].title != "" ensures HasTitle(once, file[i].title) {
      ImportedHas(rows, file, stamps, file[i].title);
    }
    NothingNew(once, file, later);
    ImportedTitles(once, file, later);
    forall i | 0 <= i < |once| ensures twice[i] == once[i] {
      var title := once[i].title;
      ImportedRow(rows, file, stamps, title);
      ImportedRow(once, file, later, title);
      FindUnique(once, i);
      FindUnique(twice, i);
      OutcomeTwice(RowOf(rows, title), file, title, stamps, later);
    }
  }

  // ---------------------------------------------------------------- dry runs

  /** Some title missing from the event comes up more than once in the file. */
  ghost predicate RepeatsNewTitle(rows: seq<Row>, file: seq<Entry>) {
    exists i, j :: 0 <= i < j < |file| && RepeatAt(rows, file, i, j)
  }

  ghost predicate RepeatAt(rows: seq<Row>, file: seq<Entry>, i: nat, j: nat)
    requires i < |file| && j < |file|
  {
    file[i].title == file[j].title && file[i].title != "" && !HasTitle(rows, file[i].title)
  }

  lemma RepeatsSnoc(rows: seq<Row>, file: seq<Entry>)
    requires file != []
    ensures var n := |file| - 1;
            RepeatsNewTitle(rows, file) <==>
            RepeatsNewTitle(rows, file[..n]) ||
            (file[n].title != "" && !HasTitle(rows, file[n].title) && Mentions(file[..n], file[n].title))
  {
    var n := |file| - 1;
    if RepeatsNewTitle(rows, file) {
      var i, j :| 0 <= i < j < |file| && RepeatAt(rows, file, i, j);
      assert file[..n][i] == file[i];
      if j < n {
        assert RepeatAt(rows, file[..n], i, j);
      }
    }
    if RepeatsNewTitle(rows, file[..n]) {
      var i, j :| 0 <= i < j < n && RepeatAt(rows, file[..n], i, j);
      assert RepeatAt(rows, file, i, j);
    }
    if file[n].title != "" && !HasTitle(rows, file[n].title) && Mentions(file[..n], file[n].title) {
      var i :| 0 <= i < n && file[..n][i].title == file[n].title;
      assert RepeatAt(rows, file, i, n);
    }
  }

  /** A dry run always has the total right, never creates too few, and is exact unless a new title is repeated. */
  lemma {:induction false} DryRunIsExactUnless(rows: seq<Row>, file: seq<Entry>, stamps: Stamps)
    ensures var dry, actual := DryPlan(rows, file), RealPlan(rows, file, stamps);
            && dry.created + dry.updated == actual.created + actual.updated
            && actual.created <= dry.created
            && (dry == actual <==> !RepeatsNewTitle(rows, file))
  {
    if file != [] {
      var n := |file| - 1;
      DryRunIsExactUnless(rows, file[..n], stamps);
      RepeatsSnoc(rows, file);
      ImportedHas(rows, file[..n], stamps, file[n].title);
    }
  }

  /** The plan of a real import counts the rows it adds. */
  lemma {:induction false} PlanCountsRows(rows: seq<Row>, file: seq<Entry>, stamps: Stamps)
    ensures |Imported(rows, file, stamps)| == |rows| + RealPlan(rows, file, stamps).created
  {
    if file != [] {
      PlanCountsRows(rows, file[..|file| - 1], stamps);
    }
  }
}
