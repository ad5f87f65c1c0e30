/** Importing challenges into an event: convert each challenge of the file, then upsert it by title. */
module Import {
  import opened Common
  import opened Text
  import opened Flags

  // ---------------------------------------------------------------- what is stored

  type Flag = Spec

  /** A stored file; its size and digest are computed from the bytes. */
  datatype File = File(name: string, contentType: string, data: seq<Byte>)

  datatype Row = Row(id: Uuid, title: string, category: string, description: string, state: string,
                     scoring: string, tags: seq<string>, flags: seq<Flag>, files: seq<File>,
                     position: int, createdAt: Time)

  /** What the database generates for a new row. */
  datatype Stamp = Stamp(id: Uuid, at: Time)

  // ---------------------------------------------------------------- what is read

  datatype IoFlag = IoFlag(value: string, hash: string, caseSensitive: Option<bool>)

  /** A trimmed base64 text: either the encoding of some bytes, padded or not, or no encoding at all. */
  datatype Base64 = Encoded(bytes: seq<Byte>) | Malformed

  datatype IoFile = IoFile(name: string, contentType: string, data: Base64)

  datatype IoChallenge = IoChallenge(title: string, category: string, description: string, state: string,
                                     scoring: Option<string>, tags: Option<seq<string>>,
                                     flags: seq<IoFlag>, files: seq<IoFile>)

  // ---------------------------------------------------------------- flags

  function StoreFlag(sha: Sha, f: IoFlag): Option<Flag> {
    var cs := f.caseSensitive.None? || f.caseSensitive.value;
    if f.hash != "" then
      var hash := HexDecode(f.hash);
      if hash.None? then None else Some(Spec(hash.value, cs))
    else if f.value == "" then None
    else Some(Spec(Hash(sha, f.value, cs), cs))
  }

  function StoreFlags(sha: Sha, flags: seq<IoFlag>): seq<Flag> {
    if flags == [] then []
    else
      var f := StoreFlag(sha, flags[|flags| - 1]);
      StoreFlags(sha, flags[..|flags| - 1]) + if f.None? then [] else [f.value]
  }

  method ConvertFlags(sha: Sha, flags: seq<IoFlag>) returns (out: seq<Flag>)
    ensures out == StoreFlags(sha, flags)
  {
    out := [];
    for n := 0 to |flags|
      invariant out == StoreFlags(sha, flags[..n])
    {
      assert flags[..n + 1][..n] == flags[..n];
      var f := StoreFlag(sha, flags[n]);
      if f.Some? {
        out := out + [f.value];
      }
    }
    assert flags[..|flags|] == flags;
  }

  // ---------------------------------------------------------------- files

  const MaxFileBytes := 25 * 1024 * 1024

  datatype FileError = EmptyName | InvalidBase64 | TooLarge

  datatype FileOutcome = Stored(file: File) | Refused(why: FileError)

  function StoreFile(f: IoFile): FileOutcome {
    var name, contentType := TrimSpace(f.name), TrimSpace(f.contentType);
    if name == "" then Refused(EmptyName)
    else if f.data.Malformed? then Refused(InvalidBase64)
    else if |f.data.bytes| > MaxFileBytes then Refused(TooLarge)
    else Stored(File(name, if contentType == "" then "application/octet-stream" else contentType, f.data.bytes))
  }

  function StoreFiles(files: seq<IoFile>): seq<File> {
    if files == [] then []
    else
      var f := StoreFile(files[|files| - 1]);
      StoreFiles(files[..|files| - 1]) + if f.Refused? then [] else [f.file]
  }

  datatype Problem = EmptyTitle | BadFile(title: string, why: FileError)

  function FileProblems(title: string, files: seq<IoFile>): seq<Problem> {
    if files == [] then []
    else
      var f := StoreFile(files[|files| - 1]);
      FileProblems(title, files[..|files| - 1]) + if f.Refused? then [BadFile(title, f.why)] else []
  }

  method ConvertFiles(title: string, files: seq<IoFile>) returns (out: seq<File>, problems: seq<Problem>)
    ensures out == StoreFiles(files) && problems == FileProblems(title, files)
  {
    out, problems := [], [];
    for n := 0 to |files|
      invariant out == StoreFiles(files[..n]) && problems == FileProblems(title, files[..n])
    {
      assert files[..n + 1][..n] == files[..n];
      var f := StoreFile(files[n]);
      if f.Refused? {
        problems := problems + [BadFile(title, f.why)];
        continue;
      }
      out := out + [f.file];
    }
    assert files[..|files|] == files;
  }

  // ---------------------------------------------------------------- one converted challenge

  /** What one challenge of the file asks for, with every default filled in. */
  datatype Entry = Entry(title: string, category: string, description: string, state: string,
                         scoring: string, tags: seq<string>, flags: seq<Flag>, files: seq<File>)

  function Converted(sha: Sha, ch: IoChallenge): Entry {
    Entry(ch.title,
          if ch.category == "" then "misc" else ch.category,
          ch.description,
          if ch.state == "" then "draft" else ch.state,
          if ch.scoring.None? || ch.scoring.value == "" then DefaultScoring else ch.scoring.value,
          if ch.tags.None? then [] else ch.tags.value,
          StoreFlags(sha, ch.flags), StoreFiles(ch.files))
  }

  function Entries(sha: Sha, file: seq<IoChallenge>): seq<Entry> {
    seq(|file|, i requires 0 <= i < |file| => Converted(sha, file[i]))
  }

  method Convert(sha: Sha, ch: IoChallenge) returns (e: Entry, problems: seq<Problem>)
    ensures e == Converted(sha, ch) && problems == FileProblems(ch.title, ch.files)
  {
    var category, state, scoring, tags := ch.category, ch.state, DefaultScoring, [];
    if category == "" {
      category := "misc";
    }
    if state == "" {
      state := "draft";
    }
    if ch.scoring.Some? && ch.scoring.value != "" {
      scoring := ch.scoring.value;
    }
    if ch.tags.Some? {
      tags := ch.tags.value;
    }
    var flags := ConvertFlags(sha, ch.flags);
    var files, refused := ConvertFiles(ch.title, ch.files);
    e, problems := Entry(ch.title, category, ch.description, state, scoring, tags, flags, files), refused;
  }

  function Problems(file: seq<IoChallenge>): seq<Problem> {
    if file == [] then []
    else
      var ch := file[|file| - 1];
      Problems(file[..|file| - 1]) + if ch.title == "" then [EmptyTitle] else FileProblems(ch.title, ch.files)
  }

  // ---------------------------------------------------------------- the upsert

  /** CreateChallengeWithFlags and, when there are files, ReplaceChallengeFiles. */
  function Created(s: Stamp, e: Entry): Row {
    Row(s.id, e.title, e.category, e.description, e.state, e.scoring, e.tags, e.flags, e.files, 0, s.at)
  }

  /** UpdateChallengeContent, then flags and files only if the entry brings any. */
  function Updated(r: Row, e: Entry): Row {
    r.(category := e.category, description := e.description, state := e.state, scoring := e.scoring, tags := e.tags,
       flags := if e.flags == [] then r.flags else e.flags, files := if e.files == [] then r.files else e.files)
  }

  predicate HasTitle(rows: seq<Row>, title: string) { exists i :: 0 <= i < |rows| && rows[i].title == title }

  /** FindECByTitle: some row with the title; the first, where there are several. */
  function Find(rows: seq<Row>, title: string): (i: nat)
    requires HasTitle(rows, title)
    ensures i < |rows| && rows[i].title == title
  {
    if rows[0].title == title then 0
    else
      assert HasTitle(rows[1..], title) by {
        var j :| 0 <= j < |rows| && rows[j].title == title;
        assert rows[1..][j - 1] == rows[j];
      }
      1 + Find(rows[1..], title)
  }

  /** The event's table, in insertion order. */
  function Upsert(rows: seq<Row>, e: Entry, s: Stamp): seq<Row> {
    if e.title == "" then rows
    else if HasTitle(rows, e.title) then rows[Find(rows, e.title) := Updated(rows[Find(rows, e.title)], e)]
    else rows + [Created(s, e)]
  }

  type Stamps = nat -> Stamp

  /** The table after importing the entries; the n-th entry's row, if it needs a new one, gets `stamps(n)`. */
  function Imported(rows: seq<Row>, file: seq<Entry>, stamps: Stamps): seq<Row> {
    if file == [] then rows
    else Upsert(Imported(rows, file[..|file| - 1], stamps), file[|file| - 1], stamps(|file| - 1))
  }

  datatype Plan = Plan(created: nat, updated: nat)

  function Counted(p: Plan, rows: seq<Row>, e: Entry): Plan {
    if e.title == "" then p
    else if HasTitle(rows, e.title) then p.(updated := p.updated + 1)
    else p.(created := p.created + 1)
  }

  function RealPlan(rows: seq<Row>, file: seq<Entry>, stamps: Stamps): Plan {
    if file == [] then Plan(0, 0)
    else
      var before := file[..|file| - 1];
      Counted(RealPlan(rows, before, stamps), Imported(rows, before, stamps), file[|file| - 1])
  }

  function DryPlan(rows: seq<Row>, file: seq<Entry>): Plan {
    if file == [] then Plan(0, 0) else Counted(DryPlan(rows, file[..|file| - 1]), rows, file[|file| - 1])
  }

  lemma OneMoreEntry(rows: seq<Row>, file: seq<Entry>, n: nat, stamps: Stamps)
    requires n < |file|
    ensures Imported(rows, file[..n + 1], stamps) == Upsert(Imported(rows, file[..n], stamps), file[n], stamps(n))
    ensures RealPlan(rows, file[..n + 1], stamps) ==
            Counted(RealPlan(rows, file[..n], stamps), Imported(rows, file[..n], stamps), file[n])
    ensures DryPlan(rows, file[..n + 1]) == Counted(DryPlan(rows, file[..n]), rows, file[n])
  {
    assert file[..n + 1][..n] == file[..n];
  }

  lemma OneMoreChallenge(file: seq<IoChallenge>, n: nat)
    requires n < |file|
    ensures Problems(file[..n + 1]) ==
            Problems(file[..n]) +
            if file[n].title == "" then [EmptyTitle] else FileProblems(file[n].title, file[n].files)
  {
    assert file[..n + 1][..n] == file[..n];
  }

  // ---------------------------------------------------------------- the handler

  class Event {
    var rows: seq<Row>

    constructor (rows: seq<Row>)
      ensures this.rows == rows
    {
      this.rows := rows;
    }

    method CreateChallengeWithFlags(s: Stamp, e: Entry)
      modifies this
      ensures rows == old(rows) + [Created(s, e.(files := []))]
    {
      rows := rows + [Row(s.id, e.title, e.category, e.description, e.state, e.scoring, e.tags, e.flags, [], 0, s.at)];
    }

    method UpdateChallengeContent(i: nat, e: Entry)
      requires i < |rows|
      modifies this
      ensures rows == old(rows)[i := Updated(old(rows)[i], e.(flags := [], files := []))]
    {
      rows := rows[i := rows[i].(category := e.category, description := e.description, state := e.state,
                                 scoring := e.scoring, tags := e.tags)];
    }

    method ReplaceFlags(i: nat, flags: seq<Flag>)
      requires i < |rows|
      modifies this
      ensures rows == old(rows)[i := old(rows)[i].(flags := flags)]
    {
      rows := rows[i := rows[i].(flags := flags)];
    }

    method ReplaceChallengeFiles(i: nat, files: seq<File>)
      requires i < |rows|
      modifies this
      ensures rows == old(rows)[i := old(rows)[i].(files := files)]
    {
      rows := rows[i := rows[i].(files := files)];
    }

    /** The store calls for one challenge of a real import. */
    method Write(e: Entry, s: Stamp)
      requires e.title != ""
      modifies this
      ensures rows == Upsert(old(rows), e, s)
    {
      if HasTitle(rows, e.title) {
        var i := Find(rows, e.title);
        UpdateChallengeContent(i, e);
        if e.flags != [] {
          ReplaceFlags(i, e.flags);
        }
        if e.files != [] {
          ReplaceChallengeFiles(i, e.files);
        }
      } else {
        CreateChallengeWithFlags(s, e);
        if e.files != [] {
          ReplaceChallengeFiles(|rows| - 1, e.files);
        }
      }
    }

    /** The loop of handleImport, with no store error. */
    method Import(sha: Sha, file: seq<IoChallenge>, dryRun: bool, stamps: Stamps)
      returns (plan: Plan, problems: seq<Problem>)
      modifies this
      ensures rows == if dryRun then old(rows) else Imported(old(rows), Entries(sha, file), stamps)
      ensures plan == if dryRun then DryPlan(old(rows), Entries(sha, file))
                      else RealPlan(old(rows), Entries(sha, file), stamps)
      ensures problems == Problems(file)
    {
      var created: nat, updated: nat := 0, 0;
      problems := [];
      ghost var all := Entries(sha, file);
      for n := 0 to |file|
        invariant rows == if dryRun then old(rows) else Imported(old(rows), all[..n], stamps)
        invariant Plan(created, updated) == if dryRun then DryPlan(old(rows), all[..n])
                                            else RealPlan(old(rows), all[..n], stamps)
        invariant problems == Problems(file[..n])
      {
        OneMoreEntry(old(rows), all, n, stamps);
        OneMoreChallenge(file, n);
        var ch := file[n];
        if ch.title == "" {
          problems := problems + [EmptyTitle];
          continue;
        }
        var e, refused := Convert(sha, ch);
        problems := problems + refused;
        if HasTitle(rows, ch.title) {
          updated := updated + 1;
        } else {
          created := created + 1;
        }
        if !dryRun {
          Write(e, stamps(n));
        }
      }
      assert file[..|file|] == file && all[..|file|] == all;
      plan := Plan(created, updated);
    }
  }
}
