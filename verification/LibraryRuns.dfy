/** Whole runs of the library: revisions never change, and an embedded challenge accepts what its author meant. */
module LibraryRuns {
  import opened Common
  import opened Text
  import opened Flags
  import opened Library

  /** What a caller asks for: content arrives with its flags in plain text. */
  datatype Call =
    | Author(id: Uuid, challenge: Challenge, description: string, scoring: string,
             connection: Option<string>, flags: seq<FlagInput>)
    | Rewrite(c: Uuid, description: string, scoring: string, connection: Option<string>, flags: seq<FlagInput>)
    | Copy(src: Uuid, id: Uuid, slug: string, title: string)
    | Place(id: Uuid, event: Uuid, c: Uuid, rev: int)

  function Stored(sha: Sha, call: Call): Op {
    match call
    case Author(id, c, d, s, k, flags) => Create(id, c, Revision(d, s, Hashed(sha, flags), k))
    case Rewrite(c, d, s, k, flags) => Revise(c, Revision(d, s, Hashed(sha, flags), k))
    case Copy(src, id, slug, title) => Clone(src, id, slug, title)
    case Place(id, event, c, rev) => Embed(id, event, c, rev)
  }

  function Run(sha: Sha, calls: seq<Call>): Tables {
    if calls == [] then Empty
    else Step(Run(sha, calls[..|calls| - 1]), Stored(sha, calls[|calls| - 1]))
  }

  // ---------------------------------------------------------------- where each flag list came from

  /** The plain-text list behind every revision and behind every embedded challenge. */
  datatype Origin = Origin(revisions: map<RevisionKey, seq<FlagInput>>, embedded: map<Uuid, seq<FlagInput>>)

  ghost function Traced(s: Tables, o: Origin, call: Call): Origin {
    match call
    case Author(id, c, _, _, _, flags) =>
      if Taken(s.challenges, id, c.org, c.slug) then o else o.(revisions := o.revisions[(id, 1) := flags])
    case Rewrite(c, _, _, _, flags) =>
      if c !in s.challenges then o else o.(revisions := o.revisions[(c, s.challenges[c].currentRev + 1) := flags])
    case Copy(src, id, slug, _) =>
      if src !in s.challenges || (src, s.challenges[src].currentRev) !in o.revisions then o
      else if Taken(s.challenges, id, s.challenges[src].org, slug) then o
      else o.(revisions := o.revisions[(id, 1) := o.revisions[(src, s.challenges[src].currentRev)]])
    case Place(id, _, c, rev) =>
      if !CanEmbed(s, id, c, rev) || (c, Pinned(s.challenges[c], rev)) !in o.revisions then o
      else o.(embedded := o.embedded[id := o.revisions[(c, Pinned(s.challenges[c], rev))]])
  }

  ghost function Origins(sha: Sha, calls: seq<Call>): Origin {
    if calls == [] then Origin(map[], map[])
    else
      var before := calls[..|calls| - 1];
      Traced(Run(sha, before), Origins(sha, before), calls[|calls| - 1])
  }

  /** Every revision holds the hashed form of its origin, every embedded challenge the decoded form. */
  ghost predicate Faithful(sha: Sha, s: Tables, o: Origin) {
    && o.revisions.Keys == s.revisions.Keys
    && (forall k :: k in s.revisions ==> s.revisions[k].flags == Hashed(sha, o.revisions[k]))
    && o.embedded.Keys == s.embedded.Keys
    && (forall e :: e in s.embedded ==> s.embedded[e].flags == Decoded(Hashed(sha, o.embedded[e])))
  }

  lemma {:induction false} RunFaithful(sha: Sha, calls: seq<Call>)
    ensures Sound(Run(sha, calls))
    ensures Faithful(sha, Run(sha, calls), Origins(sha, calls))
  {
    if calls != [] {
      var before := calls[..|calls| - 1];
      RunFaithful(sha, before);
      StepSound(Run(sha, before), Stored(sha, calls[|calls| - 1]));
      StepFaithful(sha, Run(sha, before), Origins(sha, before), calls[|calls| - 1]);
    }
  }

  lemma InsertFaithful(sha: Sha, s: Tables, o: Origin, cs: map<Uuid, Challenge>, k: RevisionKey, r: Revision,
                       flags: seq<FlagInput>)
    requires Faithful(sha, s, o) && r.flags == Hashed(sha, flags)
    ensures Faithful(sha, s.(challenges := cs, revisions := s.revisions[k := r]),
                     o.(revisions := o.revisions[k := flags]))
  {
    assert o.revisions[k := flags].Keys == s.revisions[k := r].Keys;
  }

  lemma EmbedFaithful(sha: Sha, s: Tables, o: Origin, id: Uuid, e: EventChallenge, flags: seq<FlagInput>)
    requires Faithful(sha, s, o) && e.flags == Decoded(Hashed(sha, flags))
    ensures Faithful(sha, s.(embedded := s.embedded[id := e]), o.(embedded := o.embedded[id := flags]))
  {
    assert o.embedded[id := flags].Keys == s.embedded[id := e].Keys;
  }

  lemma StepFaithful(sha: Sha, s: Tables, o: Origin, call: Call)
    requires Sound(s) && Faithful(sha, s, o)
    ensures Faithful(sha, Step(s, Stored(sha, call)), Traced(s, o, call))
  {
    match call
    case Author(id, c, d, sc, k, flags) =>
      InsertFaithful(sha, s, o, Step(s, Stored(sha, call)).challenges, (id, 1),
                     Revision(d, sc, Hashed(sha, flags), k), flags);
    case Rewrite(c, d, sc, k, flags) =>
      if c in s.challenges {
        InsertFaithful(sha, s, o, Step(s, Stored(sha, call)).challenges, (c, s.challenges[c].currentRev + 1),
                       Revision(d, sc, Hashed(sha, flags), k), flags);
      }
    case Copy(src, id, slug, title) =>
      if src in s.challenges {
        var at := (src, s.challenges[src].currentRev);
        InsertFaithful(sha, s, o, Step(s, Stored(sha, call)).challenges, (id, 1), s.revisions[at], o.revisions[at]);
      }
    case Place(id, event, c, rev) =>
      if CanEmbed(s, id, c, rev) {
        var at: RevisionKey := (c, Pinned(s.challenges[c], rev));
        EmbedFaithful(sha, s, o, id, Step(s, Embed(id, event, c, rev)).embedded[id], o.revisions[at]);
      }
  }

  // ---------------------------------------------------------------- nothing written ever changes

  /** Everything of s is still in t, unchanged; challenges may only gain revisions. */
  ghost predicate Kept(s: Tables, t: Tables) {
    && (forall k :: k in s.revisions ==> k in t.revisions && t.revisions[k] == s.revisions[k])
    && (forall e :: e in s.embedded ==> e in t.embedded && t.embedded[e] == s.embedded[e])
    && (forall c :: c in s.challenges ==>
          c in t.challenges && s.challenges[c].currentRev <= t.challenges[c].currentRev &&
          t.challenges[c].(currentRev := s.challenges[c].currentRev) == s.challenges[c])
  }

  lemma StepKeeps(s: Tables, op: Op)
    requires Sound(s)
    ensures Kept(s, Step(s, op))
  {
  }

  /** Revisions are exactly 1 … current_rev, and neither they nor embedded copies change later in any run. */
  lemma {:induction false} WrittenOnce(sha: Sha, calls: seq<Call>, later: seq<Call>)
    ensures Sound(Run(sha, calls))
    ensures Kept(Run(sha, calls), Run(sha, calls + later))
    ensures KeptOrigins(Origins(sha, calls), Origins(sha, calls + later))
  {
    RunFaithful(sha, calls);
    if later == [] {
      assert calls + later == calls;
    } else {
      var n := |later| - 1;
      WrittenOnce(sha, calls, later[..n]);
      RunFaithful(sha, calls + later[..n]);
      assert (calls + later)[..|calls + later| - 1] == calls + later[..n];
      assert (calls + later)[|calls + later| - 1] == later[n];
      StepKeeps(Run(sha, calls + later[..n]), Stored(sha, later[n]));
      TracedKeeps(sha, Run(sha, calls + later[..n]), Origins(sha, calls + later[..n]), later[n]);
    }
  }

  ghost predicate KeptOrigins(o: Origin, p: Origin) {
    && (forall k :: k in o.revisions ==> k in p.revisions && p.revisions[k] == o.revisions[k])
    && (forall e :: e in o.embedded ==> e in p.embedded && p.embedded[e] == o.embedded[e])
  }

  /** The revision a call writes has a new key. */
  lemma NewKeys(sha: Sha, s: Tables, o: Origin, c: Uuid)
    requires Sound(s) && Faithful(sha, s, o)
    ensures c !in s.challenges ==> (c, 1) !in o.revisions
    ensures c in s.challenges ==> (c, s.challenges[c].currentRev + 1) !in o.revisions
  {
  }

  lemma KeptByNew(o: Origin, k: RevisionKey, flags: seq<FlagInput>)
    requires k !in o.revisions
    ensures KeptOrigins(o, o.(revisions := o.revisions[k := flags]))
  {
  }

  lemma TracedKeeps(sha: Sha, s: Tables, o: Origin, call: Call)
    requires Sound(s) && Faithful(sha, s, o)
    ensures KeptOrigins(o, Traced(s, o, call))
  {
    match call
    case Author(id, _, _, _, _, flags) =>
      NewKeys(sha, s, o, id);
      if id !in s.challenges {
        KeptByNew(o, (id, 1), flags);
      }
    case Rewrite(c, _, _, _, flags) =>
      NewKeys(sha, s, o, c);
      if c in s.challenges {
        KeptByNew(o, (c, s.challenges[c].currentRev + 1), flags);
      }
    case Copy(src, id, _, _) =>
      NewKeys(sha, s, o, id);
      if src in s.challenges && id !in s.challenges {
        KeptByNew(o, (id, 1), o.revisions[(src, s.challenges[src].currentRev)]);
      }
    case Place(id, _, _, _) =>
  }

  // ---------------------------------------------------------------- what an embedded challenge accepts

  /**
   * The submission is the flag its author typed, up to padding around either and, only where the author said that case
   * does not count, up to the case of letters. A flag of nothing but padding is no flag.
   */
  ghost predicate Meant(submission: string, f: FlagInput) {
    exists given, typed :: IsCore(submission, given) && IsCore(f.value, typed) && typed != "" &&
                           if f.caseSensitive == Some(false) then SameLetters(given, typed) else given == typed
  }

  lemma MeantIs(submission: string, f: FlagInput)
    ensures Meant(submission, f) <==>
            !Blank(f) && Normalize(submission, Sensitive(f)) == Normalize(f.value, Sensitive(f))
  {
    var given, typed := TrimSpace(submission), TrimSpace(f.value);
    forall core ensures IsCore(submission, core) <==> core == given { CoreIsTrimmed(submission, core); }
    forall core ensures IsCore(f.value, core) <==> core == typed { CoreIsTrimmed(f.value, core); }
    assert IsCore(submission, given) && IsCore(f.value, typed);
    SameForm(submission, given, f.value, typed);
  }

  ghost predicate Holds<T>(s: seq<T>, p: T -> bool) { exists i :: 0 <= i < |s| && p(s[i]) }

  ghost predicate Accepts(submission: string, inputs: seq<FlagInput>) {
    Holds(inputs, Meaning(submission))
  }

  ghost function Meaning(submission: string): FlagInput -> bool { (f: FlagInput) => Meant(submission, f) }

  /** No flag of the list collides with the submission under the hash. */
  ghost predicate CollisionFree(sha: Sha, submission: string, inputs: seq<FlagInput>) {
    forall i :: 0 <= i < |inputs| ==>
      var typed, given := Normalize(inputs[i].value, Sensitive(inputs[i])), Normalize(submission, Sensitive(inputs[i]));
      sha(given) == sha(typed) ==> given == typed
  }

  function SpecOf(sha: Sha, f: FlagInput): Spec { Spec(Hash(sha, f.value, Sensitive(f)), Sensitive(f)) }

  function Specs(sha: Sha, inputs: seq<FlagInput>): seq<Spec> {
    if inputs == [] then []
    else
      var f := inputs[|inputs| - 1];
      Specs(sha, inputs[..|inputs| - 1]) + if Blank(f) then [] else [SpecOf(sha, f)]
  }

  /** Hexadecimal on the way in and decoding on the way out cancel: no flag is lost. */
  lemma {:induction false} DecodedHashed(sha: Sha, inputs: seq<FlagInput>)
    ensures Decoded(Hashed(sha, inputs)) == Specs(sha, inputs)
  {
    if inputs != [] {
      var n := |inputs| - 1;
      var f, h := inputs[n], Hashed(sha, inputs[..n]);
      DecodedHashed(sha, inputs[..n]);
      if !Blank(f) {
        var hash := Hash(sha, f.value, Sensitive(f));
        HexRoundTrip(hash);
        var r := RevisionFlag(HexEncode(hash), Sensitive(f));
        assert (h + [r])[..|h + [r]| - 1] == h && (h + [r])[|h + [r]| - 1] == r;
        assert Hashed(sha, inputs) == h + [r];
      } else {
        assert Hashed(sha, inputs) == h + [] == h;
      }
    }
  }

  lemma {:induction false} SpecsVerify(sha: Sha, submission: string, inputs: seq<FlagInput>)
    requires CollisionFree(sha, submission, inputs)
    ensures Verifies(sha, submission, Specs(sha, inputs)) <==> Accepts(submission, inputs)
  {
    if inputs != [] {
      var n := |inputs| - 1;
      var f := inputs[n];
      var init := inputs[..n];
      assert CollisionFree(sha, submission, init) by {
        forall i | 0 <= i < n ensures init[i] == inputs[i] {}
      }
      SpecsVerify(sha, submission, init);
      AcceptsSnoc(submission, inputs);
      if Blank(f) {
        assert Specs(sha, inputs) == Specs(sha, init) + [] == Specs(sha, init);
      } else {
        VerifiesSnoc(sha, submission, Specs(sha, init), SpecOf(sha, f));
      }
    }
  }

  lemma ExistsSnoc<T>(s: seq<T>, p: T -> bool)
    requires s != []
    ensures Holds(s, p) <==> Holds(s[..|s| - 1], p) || p(s[|s| - 1])
  {
    var n := |s| - 1;
    if Holds(s, p) {
      var i :| 0 <= i < |s| && p(s[i]);
      assert i < n ==> s[..n][i] == s[i];
    }
    if Holds(s[..n], p) {
      var i :| 0 <= i < n && p(s[..n][i]);
      assert s[i] == s[..n][i];
    }
  }

  lemma AcceptsSnoc(submission: string, inputs: seq<FlagInput>)
    requires inputs != []
    ensures Accepts(submission, inputs) <==>
            var f := inputs[|inputs| - 1];
            Accepts(submission, inputs[..|inputs| - 1]) ||
            (!Blank(f) && Normalize(submission, Sensitive(f)) == Normalize(f.value, Sensitive(f)))
  {
    MeantIs(submission, inputs[|inputs| - 1]);
    ExistsSnoc(inputs, Meaning(submission));
  }

  lemma VerifiesSnoc(sha: Sha, submission: string, specs: seq<Spec>, s: Spec)
    ensures Verifies(sha, submission, specs + [s]) <==>
            Verifies(sha, submission, specs) || s.hash == Hash(sha, submission, s.caseSensitive)
  {
    var all := specs + [s];
    if Verifies(sha, submission, all) {
      var i :| 0 <= i < |all| && all[i].hash == Hash(sha, submission, all[i].caseSensitive);
      assert i < |specs| ==> specs[i] == all[i];
    }
    if Verifies(sha, submission, specs) {
      var i :| 0 <= i < |specs| && specs[i].hash == Hash(sha, submission, specs[i].caseSensitive);
      assert all[i] == specs[i];
    }
    if s.hash == Hash(sha, submission, s.caseSensitive) {
      assert all[|specs|] == s;
    }
  }

  /**
   * Through hashing, any clones, the embedding, and anything done to the library afterwards: checking a submission
   * against the embedded challenge accepts it exactly when it is one of the flags its author typed.
   */
  lemma EmbeddedAcceptsOriginals(sha: Sha, calls: seq<Call>, later: seq<Call>, e: Uuid, submission: string)
    requires e in Run(sha, calls).embedded
    ensures e in Origins(sha, calls).embedded && e in Run(sha, calls + later).embedded
    ensures CollisionFree(sha, submission, Origins(sha, calls).embedded[e]) ==>
              (Verifies(sha, submission, Run(sha, calls + later).embedded[e].flags) <==>
               Accepts(submission, Origins(sha, calls).embedded[e]))
  {
    RunFaithful(sha, calls);
    WrittenOnce(sha, calls, later);
    var inputs := Origins(sha, calls).embedded[e];
    DecodedHashed(sha, inputs);
    if CollisionFree(sha, submission, inputs) {
      SpecsVerify(sha, submission, inputs);
    }
  }

  /** A clone's first revision is the source's current one, and goes back to the same plain-text flags. */
  lemma CloneKeepsOrigin(sha: Sha, calls: seq<Call>, src: Uuid, id: Uuid, slug: string, title: string)
    requires var s := Run(sha, calls); src in s.challenges && !Taken(s.challenges, id, s.challenges[src].org, slug)
    ensures var s, t := Run(sha, calls), Run(sha, calls + [Copy(src, id, slug, title)]);
            && (src, s.challenges[src].currentRev) in s.revisions
            && (src, s.challenges[src].currentRev) in Origins(sha, calls).revisions
            && t.revisions == s.revisions[(id, 1) := s.revisions[(src, s.challenges[src].currentRev)]]
            && Origins(sha, calls + [Copy(src, id, slug, title)]).revisions ==
               Origins(sha, calls).revisions[(id, 1) :=
                 Origins(sha, calls).revisions[(src, s.challenges[src].currentRev)]]
  {
    RunFaithful(sha, calls);
    var call := Copy(src, id, slug, title);
    assert (calls + [call])[..|calls|] == calls;
  }
}
