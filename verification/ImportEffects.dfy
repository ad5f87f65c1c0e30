/** What one challenge of an import file leaves in the event, and what its flags accept. */
module ImportEffects {
  import opened Common
  import opened Text
  import opened Flags
  import opened Import

  // ---------------------------------------------------------------- flags

  /** A flag given as text is matched as it was typed; case counts unless the file says it does not. */
  ghost predicate MatchesText(submission: string, f: IoFlag) {
    f.hash == "" && f.value != "" &&
    exists given, typed :: IsCore(submission, given) && IsCore(f.value, typed) &&
                           if f.caseSensitive == Some(false) then SameLetters(given, typed) else given == typed
  }

  /** A flag given as a digest is matched by it, and its text, if any, is ignored. */
  ghost predicate MatchesDigest(sha: Sha, submission: string, f: IoFlag) {
    f.hash != "" && HexDecode(f.hash) == Some(sha(Normalize(submission, f.caseSensitive != Some(false))))
  }

  /** The submission and the text of the flag do not collide under the hash. */
  ghost predicate NoCollision(sha: Sha, submission: string, f: IoFlag) {
    var strict := f.caseSensitive != Some(false);
    var given, typed := Normalize(submission, strict), Normalize(f.value, strict);
    sha(given) == sha(typed) ==> given == typed
  }

  lemma MatchesTextIs(submission: string, f: IoFlag)
    ensures MatchesText(submission, f) <==>
            f.hash == "" && f.value != "" &&
            Normalize(submission, f.caseSensitive != Some(false)) == Normalize(f.value, f.caseSensitive != Some(false))
  {
    var given, typed := TrimSpace(submission), TrimSpace(f.value);
    forall core ensures IsCore(submission, core) <==> core == given { CoreIsTrimmed(submission, core); }
    forall core ensures IsCore(f.value, core) <==> core == typed { CoreIsTrimmed(f.value, core); }
    assert IsCore(submission, given) && IsCore(f.value, typed);
    SameForm(submission, given, f.value, typed);
  }

  lemma StoredFlagAccepts(sha: Sha, submission: string, f: IoFlag)
    requires NoCollision(sha, submission, f)
    ensures var s := StoreFlag(sha, f);
            (s.Some? && s.value.hash == Hash(sha, submission, s.value.caseSensitive)) <==>
            MatchesText(submission, f) || MatchesDigest(sha, submission, f)
  {
    MatchesTextIs(submission, f);
  }

  ghost predicate SomeMatches(sha: Sha, submission: string, flags: seq<IoFlag>) {
    exists i :: 0 <= i < |flags| &&
                (MatchesText(submission, flags[i]) || MatchesDigest(sha, submission, flags[i]))
  }

  lemma SomeMatchesSnoc(sha: Sha, submission: string, init: seq<IoFlag>, f: IoFlag)
    ensures SomeMatches(sha, submission, init + [f]) <==>
            SomeMatches(sha, submission, init) || MatchesText(submission, f) || MatchesDigest(sha, submission, f)
  {
    var all := init + [f];
    if i :| 0 <= i < |all| && (MatchesText(submission, all[i]) || MatchesDigest(sha, submission, all[i])) {
      assert i < |init| ==> init[i] == all[i];
    }
    if i :| 0 <= i < |init| && (MatchesText(submission, init[i]) || MatchesDigest(sha, submission, init[i])) {
      assert all[i] == init[i];
    }
    assert all[|init|] == f;
  }

  lemma VerifiesSnoc(sha: Sha, submission: string, specs: seq<Spec>, s: Spec)
    ensures Verifies(sha, submission, specs + [s]) <==>
            Verifies(sha, submission, specs) || s.hash == Hash(sha, submission, s.caseSensitive)
  {
    var all := specs + [s];
    if i :| 0 <= i < |all| && all[i].hash == Hash(sha, submission, all[i].caseSensitive) {
      assert i < |specs| ==> specs[i] == all[i];
    }
    if i :| 0 <= i < |specs| && specs[i].hash == Hash(sha, submission, specs[i].caseSensitive) {
      assert all[i] == specs[i];
    }
    assert all[|specs|] == s;
  }

  lemma StoreFlagsSnoc(sha: Sha, init: seq<IoFlag>, f: IoFlag)
    ensures StoreFlags(sha, init + [f]) ==
            StoreFlags(sha, init) + if StoreFlag(sha, f).None? then [] else [StoreFlag(sha, f).value]
  {
    assert (init + [f])[..|init|] == init;
  }

  /** Imported flags accept a submission exactly when one of the file's does, barring hash collisions. */
  lemma {:induction false} ImportedFlagsAccept(sha: Sha, submission: string, flags: seq<IoFlag>)
    requires forall f :: f in flags ==> NoCollision(sha, submission, f)
    ensures Verifies(sha, submission, StoreFlags(sha, flags)) <==> SomeMatches(sha, submission, flags)
  {
    if flags != [] {
      var init, f := flags[..|flags| - 1], flags[|flags| - 1];
      assert flags == init + [f];
      ImportedFlagsAccept(sha, submission, init);
      StoredFlagAccepts(sha, submission, f);
      SomeMatchesSnoc(sha, submission, init, f);
      StoreFlagsSnoc(sha, init, f);
      if StoreFlag(sha, f).Some? {
        VerifiesSnoc(sha, submission, StoreFlags(sha, init), StoreFlag(sha, f).value);
      } else {
        assert StoreFlags(sha, init) + [] == StoreFlags(sha, init);
      }
    }
  }

  /** A flag of nothing but padding is kept, and matched by any other such text. */
  lemma BlankFlagIsKept(sha: Sha, f: IoFlag, submission: string)
    requires f.hash == "" && f.value != "" && Padding(f.value) && Padding(submission)
    ensures StoreFlag(sha, f).Some? && MatchesText(submission, f)
  {
    assert submission == submission + "" + "" && f.value == f.value + "" + "";
    TrimSpaceOnly(submission, "", "");
    TrimSpaceOnly(f.value, "", "");
    CoreIsTrimmed(submission, "");
    CoreIsTrimmed(f.value, "");
  }

  // ---------------------------------------------------------------- files

  /** Why a file is refused, the name checked first, and what is stored of one that is not. */
  lemma FileFates(f: IoFile, name: string, contentType: string)
    requires IsCore(f.name, name) && IsCore(f.contentType, contentType)
    ensures StoreFile(f) ==
            if name == "" then Refused(EmptyName)
            else if f.data == Malformed then Refused(InvalidBase64)
            else if |f.data.bytes| > 26_214_400 then Refused(TooLarge)
            else Stored(File(name, if contentType == "" then "application/octet-stream" else contentType, f.data.bytes))
  {
    CoreIsTrimmed(f.name, name);
    CoreIsTrimmed(f.contentType, contentType);
  }

  /** One more file is stored after the others, or reported after the others' problems, never both. */
  lemma OneMoreFile(title: string, files: seq<IoFile>, f: IoFile)
    ensures StoreFiles([]) == [] && FileProblems(title, []) == []
    ensures StoreFile(f).Stored? ==>
              StoreFiles(files + [f]) == StoreFiles(files) + [StoreFile(f).file] &&
              FileProblems(title, files + [f]) == FileProblems(title, files)
    ensures StoreFile(f).Refused? ==>
              StoreFiles(files + [f]) == StoreFiles(files) &&
              FileProblems(title, files + [f]) == FileProblems(title, files) + [BadFile(title, StoreFile(f).why)]
  {
    assert (files + [f])[..|files|] == files;
    assert StoreFiles(files) + [] == StoreFiles(files) && FileProblems(title, files) + [] == FileProblems(title, files);
  }

  // ---------------------------------------------------------------- one challenge

  /** What the file leaves out is filled in. */
  ghost predicate Fits(c: Row, ch: IoChallenge) {
    && c.title == ch.title && c.description == ch.description
    && c.category == (if ch.category == "" then "misc" else ch.category)
    && c.state == (if ch.state == "" then "draft" else ch.state)
    && (ch.scoring.Some? && ch.scoring.value != "" ==> c.scoring == ch.scoring.value)
    && (ch.scoring.None? || ch.scoring.value == "" ==> c.scoring == "{\"type\":\"static\",\"points\":100}")
    && c.tags == (if ch.tags == None then [] else ch.tags.value)
  }

  ghost predicate Titled(rows: seq<Row>, i: nat, title: string) {
    i < |rows| && rows[i].title == title && forall j :: 0 <= j < i ==> rows[j].title != title
  }

  lemma FindIsFirst(rows: seq<Row>, i: nat, title: string)
    requires Titled(rows, i, title)
    ensures HasTitle(rows, title) && Find(rows, title) == i
  {
    if rows[0].title != title {
      assert forall j :: 0 <= j < |rows[1..]| ==> rows[1..][j] == rows[j + 1];
      FindIsFirst(rows[1..], i - 1, title);
    }
  }

  /** A title the event has not got becomes a new last row, with the flags and files of the file. */
  lemma ImportCreates(sha: Sha, rows: seq<Row>, ch: IoChallenge, s: Stamp)
    requires ch.title != "" && forall j :: 0 <= j < |rows| ==> rows[j].title != ch.title
    ensures var t := Upsert(rows, Converted(sha, ch), s);
            && |t| == |rows| + 1 && t[..|rows|] == rows
            && Fits(t[|rows|], ch) && t[|rows|].id == s.id && t[|rows|].createdAt == s.at && t[|rows|].position == 0
            && t[|rows|].flags == StoreFlags(sha, ch.flags) && t[|rows|].files == StoreFiles(ch.files)
  {
    var e := Converted(sha, ch);
    assert Upsert(rows, e, s) == rows + [Created(s, e)];
  }

  /**
   * A title it has keeps its row, place, id and creation time, and also its flags or files where the file brings none
   * that are any good.
   */
  lemma ImportUpdates(sha: Sha, rows: seq<Row>, ch: IoChallenge, s: Stamp, i: nat)
    requires ch.title != "" && Titled(rows, i, ch.title)
    ensures var t := Upsert(rows, Converted(sha, ch), s);
            && |t| == |rows| && (forall j :: 0 <= j < |rows| && j != i ==> t[j] == rows[j])
            && Fits(t[i], ch)
            && t[i].id == rows[i].id && t[i].createdAt == rows[i].createdAt && t[i].position == rows[i].position
            && t[i].flags == (if StoreFlags(sha, ch.flags) == [] then rows[i].flags else StoreFlags(sha, ch.flags))
            && t[i].files == if StoreFiles(ch.files) == [] then rows[i].files else StoreFiles(ch.files)
  {
    var e := Converted(sha, ch);
    FindIsFirst(rows, i, ch.title);
    assert Upsert(rows, e, s) == rows[i := Updated(rows[i], e)];
  }

  /** A challenge without a title is reported and changes nothing. */
  lemma UntitledIsSkipped(sha: Sha, rows: seq<Row>, file: seq<IoChallenge>, ch: IoChallenge, s: Stamp)
    ensures Problems([]) == []
    ensures ch.title == "" ==> Upsert(rows, Converted(sha, ch), s) == rows
    ensures Problems(file + [ch]) ==
            Problems(file) + if ch.title == "" then [EmptyTitle] else FileProblems(ch.title, ch.files)
  {
    var all := file + [ch];
    assert all[..|all| - 1] == file && all[|all| - 1] == ch;
  }

  function WithTitle(file: seq<Entry>): set<int> { set i | 0 <= i < |file| && file[i].title != "" }

  lemma WithTitleSnoc(init: seq<Entry>, e: Entry)
    ensures |WithTitle(init + [e])| == |WithTitle(init)| + if e.title != "" then 1 else 0
  {
    var all := init + [e];
    assert forall i :: 0 <= i < |init| ==> all[i] == init[i];
    assert WithTitle(all) == WithTitle(init) + if e.title != "" then {|init|} else {};
  }

  /** The plan counts every challenge that has a title, once. */
  lemma {:induction false} PlanCountsTitles(rows: seq<Row>, file: seq<Entry>, stamps: Stamps)
    ensures RealPlan(rows, file, stamps).created + RealPlan(rows, file, stamps).updated == |WithTitle(file)|
  {
    if file != [] {
      var n := |file| - 1;
      PlanCountsTitles(rows, file[..n], stamps);
      WithTitleSnoc(file[..n], file[n]);
      assert file == file[..n] + [file[n]];
    }
  }
}
