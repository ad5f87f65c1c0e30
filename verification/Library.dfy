/** The challenge library: revisions, clones, and pinning a revision into an event. */
module Library {
  import opened Common
  import opened Text
  import opened Flags

  // ---------------------------------------------------------------- flags on the way in and out

  datatype FlagInput = FlagInput(value: string, caseSensitive: Option<bool>)

  /** A flag as a revision stores it: the digest in hexadecimal. */
  datatype RevisionFlag = RevisionFlag(hash: string, caseSensitive: bool)

  function Sensitive(f: FlagInput): bool { f.caseSensitive.None? || f.caseSensitive.value }

  predicate Blank(f: FlagInput) { TrimSpace(f.value) == "" }

  function Hashed(sha: Sha, inputs: seq<FlagInput>): seq<RevisionFlag> {
    if inputs == [] then []
    else
      var f := inputs[|inputs| - 1];
      Hashed(sha, inputs[..|inputs| - 1]) +
      if Blank(f) then [] else [RevisionFlag(HexEncode(Hash(sha, f.value, Sensitive(f))), Sensitive(f))]
  }

  /** hashedFlagsJSON */
  method HashedFlags(sha: Sha, inputs: seq<FlagInput>) returns (out: seq<RevisionFlag>)
    ensures out == Hashed(sha, inputs)
  {
    out := [];
    for n := 0 to |inputs|
      invariant out == Hashed(sha, inputs[..n])
    {
      assert inputs[..n + 1][..n] == inputs[..n];
      var f := inputs[n];
      if TrimSpace(f.value) == "" {
        continue;
      }
      var cs := true;
      if f.caseSensitive.Some? {
        cs := f.caseSensitive.value;
      }
      out := out + [RevisionFlag(HexEncode(Hash(sha, f.value, cs)), cs)];
    }
    assert inputs[..|inputs|] == inputs;
  }

  /** The flag rows written when a revision is embedded: digests that do not decode are skipped. */
  function Decoded(flags: seq<RevisionFlag>): seq<Spec> {
    if flags == [] then []
    else
      var f := flags[|flags| - 1];
      var hash := HexDecode(f.hash);
      Decoded(flags[..|flags| - 1]) + if hash.None? then [] else [Spec(hash.value, f.caseSensitive)]
  }

  // ---------------------------------------------------------------- tables

  datatype Challenge = Challenge(org: Uuid, slug: string, title: string, category: string, tags: seq<string>,
                                 currentRev: nat)

  datatype Revision = Revision(description: string, scoring: string, flags: seq<RevisionFlag>,
                               connection: Option<string>)

  /** An event's own copy: content, flags, and the revision it was taken from. */
  datatype EventChallenge = EventChallenge(event: Uuid, title: string, category: string, description: string,
                                           scoring: string, state: string, challenge: Uuid, rev: nat,
                                           tags: seq<string>, flags: seq<Spec>)

  type RevisionKey = (Uuid, nat)

  datatype Tables = Tables(challenges: map<Uuid, Challenge>, revisions: map<RevisionKey, Revision>,
                           embedded: map<Uuid, EventChallenge>)

  const Empty := Tables(map[], map[], map[])

  function ScoringOr(scoring: Option<string>): string { if scoring.None? then DefaultScoring else scoring.value }

  /** UNIQUE (org_id, slug) and the primary key. */
  predicate Taken(challenges: map<Uuid, Challenge>, id: Uuid, org: Uuid, slug: string) {
    id in challenges || exists c :: c in challenges && challenges[c].org == org && challenges[c].slug == slug
  }

  // ---------------------------------------------------------------- operations

  datatype Op =
    | Create(id: Uuid, challenge: Challenge, revision: Revision)
    | Revise(c: Uuid, revision: Revision)
    | Clone(src: Uuid, id: Uuid, slug: string, title: string)
    | Embed(id: Uuid, event: Uuid, c: Uuid, rev: int)

  function Inserted(s: Tables, id: Uuid, c: Challenge, r: Revision): Tables {
    if Taken(s.challenges, id, c.org, c.slug) then s
    else s.(challenges := s.challenges[id := c.(currentRev := 1)], revisions := s.revisions[(id, 1) := r])
  }

  function CopyOf(c: Challenge, slug: string, title: string): Challenge {
    c.(slug := slug, title := if title == "" then c.title + " (copy)" else title)
  }

  /** The revision an embedding pins: 0 asks for the current one. */
  function Pinned(c: Challenge, rev: int): int { if rev == 0 then c.currentRev else rev }

  predicate CanEmbed(s: Tables, id: Uuid, c: Uuid, rev: int) {
    && id !in s.embedded && c in s.challenges
    && Pinned(s.challenges[c], rev) >= 0 && (c, Pinned(s.challenges[c], rev)) in s.revisions
  }

  function Step(s: Tables, op: Op): Tables {
    match op
    case Create(id, c, r) => Inserted(s, id, c, r)
    case Revise(c, r) =>
      if c !in s.challenges then s
      else
        var next := s.challenges[c].currentRev + 1;
        s.(challenges := s.challenges[c := s.challenges[c].(currentRev := next)],
           revisions := s.revisions[(c, next) := r])
    case Clone(src, id, slug, title) =>
      if src !in s.challenges || (src, s.challenges[src].currentRev) !in s.revisions then s
      else Inserted(s, id, CopyOf(s.challenges[src], slug, title), s.revisions[(src, s.challenges[src].currentRev)])
    case Embed(id, event, c, rev) =>
      if !CanEmbed(s, id, c, rev) then s
      else
        var lib, n: nat := s.challenges[c], Pinned(s.challenges[c], rev);
        var r := s.revisions[(c, n)];
        s.(embedded := s.embedded[id := EventChallenge(event, lib.title, lib.category, r.description, r.scoring,
                                                       "draft", c, n, lib.tags, Decoded(r.flags))])
  }

  /** Each challenge has exactly the revisions 1 … current_rev. */
  ghost predicate Sound(s: Tables) {
    && (forall c, n: nat :: (c, n) in s.revisions <==> c in s.challenges && 1 <= n <= s.challenges[c].currentRev)
    && (forall c :: c in s.challenges ==> s.challenges[c].currentRev >= 1)
  }

  lemma StepSound(s: Tables, op: Op)
    requires Sound(s)
    ensures Sound(Step(s, op))
  {
  }

  // ---------------------------------------------------------------- the store

  class Store {
    var challenges: map<Uuid, Challenge>
    var revisions: map<RevisionKey, Revision>
    var embedded: map<Uuid, EventChallenge>

    ghost function State(): Tables reads this { Tables(challenges, revisions, embedded) }

    constructor ()
      ensures State() == Empty
    {
      challenges, revisions, embedded := map[], map[], map[];
    }

    /** `id` is the id the database generates. */
    method CreateLibraryChallenge(id: Uuid, org: Uuid, slug: string, title: string, category: string,
                                  tags: Option<seq<string>>, description: string, scoring: Option<string>,
                                  flags: seq<RevisionFlag>, connection: Option<string>)
      returns (res: Result<Uuid>)
      requires Sound(State())
      modifies this
      ensures Sound(State())
      ensures State() == Step(old(State()),
                          Create(id, Challenge(org, slug, title, category, if tags.None? then [] else tags.value, 1),
                                                   Revision(description, ScoringOr(scoring), flags, connection)))
      ensures res == if Taken(old(challenges), id, org, slug) then Err(Conflict) else Ok(id)
    {
      var stored := [];
      if tags.Some? {
        stored := tags.value;
      }
      var points := DefaultScoring;
      if scoring.Some? {
        points := scoring.value;
      }
      if Taken(challenges, id, org, slug) {
        return Err(Conflict);
      }
      challenges := challenges[id := Challenge(org, slug, title, category, stored, 1)];
      revisions := revisions[(id, 1) := Revision(description, points, flags, connection)];
      res := Ok(id);
    }

    /** The insert's primary-key conflict is in the body and never happens. */
    method NewRevision(c: Uuid, description: string, scoring: Option<string>, flags: seq<RevisionFlag>,
                       connection: Option<string>)
      returns (res: Result<nat>)
      requires Sound(State())
      modifies this
      ensures Sound(State())
      ensures State() == Step(old(State()), Revise(c, Revision(description, ScoringOr(scoring), flags, connection)))
      ensures res == if c !in old(challenges) then Err(NotFound) else Ok(old(challenges)[c].currentRev + 1)
    {
      if c !in challenges {
        return Err(NotFound);
      }
      var next := challenges[c].currentRev + 1;
      if (c, next) in revisions {
        return Err(DbError);
      }
      var points := DefaultScoring;
      if scoring.Some? {
        points := scoring.value;
      }
      challenges := challenges[c := challenges[c].(currentRev := next)];
      revisions := revisions[(c, next) := Revision(description, points, flags, connection)];
      res := Ok(next);
    }

    method CloneChallenge(src: Uuid, id: Uuid, slug: string, title: string) returns (res: Result<Uuid>)
      requires Sound(State())
      modifies this
      ensures Sound(State())
      ensures State() == Step(old(State()), Clone(src, id, slug, title))
      ensures res.Err? && res.error == NotFound <==> src !in old(challenges)
      ensures res.Ok? ==> res.value == id
    {
      if src !in challenges {
        return Err(NotFound);
      }
      var c := challenges[src];
      if (src, c.currentRev) !in revisions {
        return Err(NotFound);
      }
      var r := revisions[(src, c.currentRev)];
      var name := title;
      if name == "" {
        name := c.title + " (copy)";
      }
      res := CreateLibraryChallenge(id, c.org, slug, name, c.category, Some(c.tags), r.description, Some(r.scoring),
                                    r.flags, r.connection);
    }

    method EmbedFromLibrary(id: Uuid, event: Uuid, c: Uuid, rev: int) returns (res: Result<nat>)
      modifies this
      ensures State() == Step(old(State()), Embed(id, event, c, rev))
      ensures res.Ok? <==> CanEmbed(old(State()), id, c, rev)
      ensures res.Ok? ==> res.value == Pinned(old(challenges)[c], rev)
    {
      if c !in challenges {
        return Err(NotFound);
      }
      var lib := challenges[c];
      var n := rev;
      if n == 0 {
        n := lib.currentRev;
      }
      if n < 0 || (c, n) !in revisions {
        return Err(NotFound);
      }
      if id in embedded {
        return Err(DbError);
      }
      var r := revisions[(c, n)];
      var flags: seq<Spec> := [];
      for i := 0 to |r.flags|
        invariant flags == Decoded(r.flags[..i])
        invariant State() == old(State())
      {
        assert r.flags[..i + 1][..i] == r.flags[..i];
        var hash := HexDecode(r.flags[i].hash);
        if hash.None? {
          continue;
        }
        flags := flags + [Spec(hash.value, r.flags[i].caseSensitive)];
      }
      assert r.flags[..|r.flags|] == r.flags;
      embedded := embedded[id := EventChallenge(event, lib.title, lib.category, r.description, r.scoring, "draft", c, n,
                                                lib.tags, flags)];
      res := Ok(n);
    }
  }
}
