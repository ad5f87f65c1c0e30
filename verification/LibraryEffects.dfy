/** What the library's calls write, and what every embedded challenge is a copy of. */
module LibraryEffects {
  import opened Common
  import Flags
  import opened Library
  import opened LibraryRuns

  // ---------------------------------------------------------------- one call

  /** Another challenge of the organisation has the slug, or the id is in use. */
  ghost predicate Clashes(s: Tables, id: Uuid, org: Uuid, slug: string) {
    id in s.challenges || exists c :: c in s.challenges && s.challenges[c].org == org && s.challenges[c].slug == slug
  }

  /** The only thing new is the challenge `id` as given, with one revision. */
  ghost predicate Starts(s: Tables, t: Tables, id: Uuid, c: Challenge, r: Revision) {
    && t.challenges == s.challenges[id := c] && c.currentRev == 1
    && t.revisions == s.revisions[(id, 1) := r] && t.embedded == s.embedded
  }

  lemma CreateStarts(s: Tables, id: Uuid, c: Challenge, r: Revision)
    ensures var t := Step(s, Create(id, c, r));
            if Clashes(s, id, c.org, c.slug) then t == s
            else Starts(s, t, id, Challenge(c.org, c.slug, c.title, c.category, c.tags, 1), r)
  {
  }

  /** A clone is a new challenge of the same organisation, category and tags, starting from the source's current one. */
  lemma CloneCopies(s: Tables, src: Uuid, id: Uuid, slug: string, title: string)
    requires Sound(s)
    ensures var t := Step(s, Clone(src, id, slug, title));
            if src !in s.challenges || Clashes(s, id, s.challenges[src].org, slug) then t == s
            else
              var from := s.challenges[src];
              && (src, from.currentRev) in s.revisions
              && Starts(s, t, id, Challenge(from.org, slug, if title == "" then from.title + " (copy)" else title,
                                            from.category, from.tags, 1), s.revisions[(src, from.currentRev)])
  {
  }

  /** A revision is added after the current one and becomes it; nothing else about the challenge changes. */
  lemma ReviseAdds(s: Tables, c: Uuid, r: Revision)
    ensures var t := Step(s, Revise(c, r));
            if c !in s.challenges then t == s
            else
              var was, next := s.challenges[c], s.challenges[c].currentRev + 1;
              && t.embedded == s.embedded && t.revisions == s.revisions[(c, next) := r]
              && t.challenges ==
                 s.challenges[c := Challenge(was.org, was.slug, was.title, was.category, was.tags, next)]
  {
  }

  /** Embedding copies title, category and tags of the challenge and the content of the revision, as a draft. */
  lemma EmbedCopies(s: Tables, id: Uuid, event: Uuid, c: Uuid, rev: int)
    requires Sound(s)
    ensures var t, n := Step(s, Embed(id, event, c, rev)), if rev == 0 && c in s.challenges then Current(s, c) else rev;
            if id in s.embedded || c !in s.challenges || n < 1 || n > Current(s, c) then t == s
            else
              && (c, n) in s.revisions
              && var lib, r := s.challenges[c], s.revisions[(c, n)];
                 t == s.(embedded := s.embedded[id := EventChallenge(event, lib.title, lib.category, r.description,
                                                                     r.scoring, "draft", c, n, lib.tags,
                                                                     Decoded(r.flags))])
  {
  }

  function Current(s: Tables, c: Uuid): nat
    requires c in s.challenges
  {
    s.challenges[c].currentRev
  }

  // ---------------------------------------------------------------- every run

  /** An event's copy shows the title, category and tags of its library challenge and the content of its revision. */
  ghost predicate Mirrors(s: Tables, e: EventChallenge) {
    && e.challenge in s.challenges && 1 <= e.rev <= s.challenges[e.challenge].currentRev
    && (e.challenge, e.rev) in s.revisions
    && var lib, r := s.challenges[e.challenge], s.revisions[(e.challenge, e.rev)];
       && e.title == lib.title && e.category == lib.category && e.tags == lib.tags
       && e.description == r.description && e.scoring == r.scoring && e.flags == Decoded(r.flags)
  }

  ghost predicate AllMirror(s: Tables) { forall e :: e in s.embedded ==> Mirrors(s, s.embedded[e]) }

  lemma MirrorStays(s: Tables, t: Tables, e: EventChallenge)
    requires Mirrors(s, e) && Kept(s, t)
    ensures Mirrors(t, e)
  {
  }

  lemma StepMirrors(s: Tables, op: Op)
    requires Sound(s) && AllMirror(s)
    ensures AllMirror(Step(s, op))
  {
    var t := Step(s, op);
    StepKeeps(s, op);
    forall e | e in t.embedded ensures Mirrors(t, t.embedded[e]) {
      if e in s.embedded {
        MirrorStays(s, t, s.embedded[e]);
      }
    }
  }

  /** After any run, whatever was revised or cloned since: each embedded copy still mirrors the revision it pins. */
  lemma {:induction false} CopiesMirror(sha: Flags.Sha, calls: seq<Call>)
    ensures AllMirror(Run(sha, calls))
  {
    if calls != [] {
      var before := calls[..|calls| - 1];
      CopiesMirror(sha, before);
      RunFaithful(sha, before);
      StepMirrors(Run(sha, before), Stored(sha, calls[|calls| - 1]));
    }
  }
}
