/** Every transaction keeps the scoreboard equal to the ledger. */
module LedgerInvariant {
  import opened Common
  import opened Ledger
  import opened LedgerFacts

  // ---------------------------------------------------------------- the invariant

  /** solves_unique, and the foreign key of submissions to event_challenges. */
  ghost predicate SolvesSound(db: Db) {
    && db.challenges.Keys <= db.minted
    && (forall x :: x in db.submissions ==> x.ec in db.challenges)
    && SolvesUnique(db.submissions)
  }

  ghost predicate SolvesUnique(s: seq<Submission>) {
    forall i, j :: 0 <= i < j < |s| && s[i].correct && s[j].correct
      ==> s[i].ec != s[j].ec || s[i].team != s[j].team
  }

  /** The id was handed out, and while its challenge exists somebody has solved it. */
  ghost predicate Marked(db: Db, ec: Uuid) {
    ec in db.minted && (ec in db.challenges ==> SolveCount(db.submissions, ec) > 0)
  }

  ghost predicate SolveMarked(db: Db, text: string, team: Uuid) {
    ParseUuid(text).Some? && ParseUuid(text).value in db.minted &&
    (ParseUuid(text).value in db.challenges ==> HasSolve(db.submissions, ParseUuid(text).value, team))
  }

  /** What a core reference in the ledger says about the submissions. */
  ghost predicate RefSettled(db: Db, r: ScoreEvent) {
    && (forall text, team :: r.ref == SolveRef(text, team) ==> SolveMarked(db, text, team))
    && (forall text :: r.ref == FirstBloodRef(text) ==> ParseUuid(text).Some? && Marked(db, ParseUuid(text).value))
  }

  ghost predicate RefsSettled(db: Db) {
    forall r :: r in db.ledger && r.source == Core ==> RefSettled(db, r)
  }

  /** The projection: one team's board entry is the sum and the solve count of its ledger rows. */
  ghost predicate ProjectedAt(db: Db, at: Spot) {
    View(db.board, at).points == Points(db.ledger, at) && View(db.board, at).solves == SolveRows(db.ledger, at)
  }

  ghost predicate Projected(db: Db) { forall at: Spot :: ProjectedAt(db, at) }

  /** Every team with a ledger row has a board row. */
  ghost predicate BoardRows(db: Db) { forall r :: r in db.ledger ==> (r.event, r.team) in db.board }

  /** Only the solve transaction writes `solve` rows. */
  ghost predicate SolvesAreCore(l: seq<ScoreEvent>) {
    forall r :: r in l && r.kind.SolveKind? ==> r.source == Core
  }

  ghost predicate Inv(db: Db) {
    SolvesSound(db) && KeysUnique(db.ledger) && RefsSettled(db) && SolvesAreCore(db.ledger) &&
    Projected(db) && BoardRows(db)
  }

  // ---------------------------------------------------------------- conflict clauses never fire

  /** When a solve gets past solves_unique, neither of its ledger keys is taken. */
  lemma SolveKeysFree(db: Db, op: Op)
    requires Inv(db) && op.Solve? && Accepted(db, op)
    ensures !HasKey(db.ledger, KeyOf(SolveRow(op)))
    ensures TakesFirstBlood(db, op) ==> !HasKey(db.ledger, KeyOf(BonusRow(op)))
  {
    forall i | 0 <= i < |db.ledger|
      ensures KeyOf(db.ledger[i]) != KeyOf(SolveRow(op))
      ensures TakesFirstBlood(db, op) ==> KeyOf(db.ledger[i]) != KeyOf(BonusRow(op))
    {
      var r := db.ledger[i];
      if r.source == Core {
        assert RefSettled(db, r);
        assert r.ref == SolveRef(op.ecText, op.team) ==> SolveMarked(db, op.ecText, op.team);
        assert r.ref == FirstBloodRef(op.ecText) ==> Marked(db, ParseUuid(op.ecText).value);
      }
    }
  }

  // ---------------------------------------------------------------- preservation

  /** A mark survives every transaction: ids are never minted twice and solves only go with their challenge. */
  lemma MarkPersists(db: Db, op: Op, ec: Uuid)
    requires Marked(db, ec)
    ensures Marked(Apply(db, op), ec)
  {
    match op
    case Solve(_, _, ecText, team, _, _) =>
      if Accepted(db, op) {
        SolveCountAppend(db.submissions, Submission(op.event, ParseUuid(ecText).value, team, true), ec);
      }
    case Wrong(event, ecText, team) =>
      if ParseUuid(ecText).Some? {
        SolveCountAppend(db.submissions, Submission(event, ParseUuid(ecText).value, team, false), ec);
      }
    case DeleteChallenges(ids) => SurvivingCount(db.submissions, ids, ec);
    case _ =>
  }

  lemma SolveMarkPersists(db: Db, op: Op, text: string, team: Uuid)
    requires SolveMarked(db, text, team)
    ensures SolveMarked(Apply(db, op), text, team)
  {
    var ec := ParseUuid(text).value;
    match op
    case Solve(_, _, ecText, m, _, _) =>
      if Accepted(db, op) {
        HasSolveAppend(db.submissions, Submission(op.event, ParseUuid(ecText).value, m, true), ec, team);
      }
    case Wrong(event, ecText, m) =>
      if ParseUuid(ecText).Some? {
        HasSolveAppend(db.submissions, Submission(event, ParseUuid(ecText).value, m, false), ec, team);
      }
    case DeleteChallenges(ids) => SurvivingSolve(db.submissions, ids, ec, team);
    case _ =>
  }

  lemma RefSettledPersists(db: Db, op: Op, r: ScoreEvent)
    requires RefSettled(db, r)
    ensures RefSettled(Apply(db, op), r)
  {
    forall text, team | r.ref == SolveRef(text, team) ensures SolveMarked(Apply(db, op), text, team) {
      SolveMarkPersists(db, op, text, team);
    }
    forall text | r.ref == FirstBloodRef(text)
      ensures ParseUuid(text).Some? && Marked(Apply(db, op), ParseUuid(text).value)
    {
      MarkPersists(db, op, ParseUuid(text).value);
    }
  }

  /** The rows a solve writes are settled by the submission it writes. */
  lemma NewRefsSettled(db: Db, op: Op)
    requires op.Solve? && Accepted(db, op) && SolvesSound(db)
    ensures RefSettled(Apply(db, op), SolveRow(op)) && RefSettled(Apply(db, op), BonusRow(op))
  {
    var db' := Apply(db, op);
    var ec := ParseUuid(op.ecText).value;
    var x := Submission(op.event, ec, op.team, true);
    HasSolveAppend(db.submissions, x, ec, op.team);
    SolveCountAppend(db.submissions, x, ec);
    assert SolveMarked(db', op.ecText, op.team) && Marked(db', ec);
    forall text, team | SolveRow(op).ref == SolveRef(text, team) ensures SolveMarked(db', text, team) {
      SolveRefInjective(text, team, op.ecText, op.team);
    }
    forall text | SolveRow(op).ref == FirstBloodRef(text) ensures false {
      RefsDiffer(op.ecText, op.team, text);
    }
    forall text, team | BonusRow(op).ref == SolveRef(text, team) ensures false {
      RefsDiffer(text, team, op.ecText);
    }
    forall text | BonusRow(op).ref == FirstBloodRef(text) ensures text == op.ecText {
      FirstBloodRefInjective(text, op.ecText);
    }
  }

  lemma RefsStay(db: Db, op: Op)
    requires Inv(db)
    ensures RefsSettled(Apply(db, op))
  {
    var db' := Apply(db, op);
    if op.Award? {
      SourcesDiffer(op.plugin);
    } else if op.Revoke? {
      WithoutMembers(db.ledger, Key(op.event, PluginSource(op.plugin), op.ref));
    }
    forall r | r in db'.ledger && r.source == Core ensures RefSettled(db', r) {
      if r in db.ledger {
        RefSettledPersists(db, op, r);
      } else {
        assert op.Solve?;
        NewRefsSettled(db, op);
      }
    }
  }

  lemma SolvesStay(db: Db, op: Op)
    requires SolvesSound(db)
    ensures SolvesSound(Apply(db, op))
  {
    match op
    case Solve(_, _, ecText, team, _, _) =>
      if Accepted(db, op) {
        SolvesUniqueAppend(db.submissions, Submission(op.event, ParseUuid(ecText).value, team, true));
      }
    case DeleteChallenges(ids) =>
      SurvivingMembers(db.submissions, ids);
      SurvivingUnique(db.submissions, ids);
    case _ =>
  }

  lemma SolvesUniqueAppend(s: seq<Submission>, x: Submission)
    requires SolvesUnique(s) && !HasSolve(s, x.ec, x.team)
    ensures SolvesUnique(s + [x])
  {
    forall i | 0 <= i < |s| && s[i].correct ensures s[i].ec != x.ec || s[i].team != x.team {
      assert s[i].ec == x.ec && s[i].team == x.team ==> HasSolve(s, x.ec, x.team);
    }
  }

  lemma {:induction false} SurvivingUnique(s: seq<Submission>, gone: set<Uuid>)
    requires SolvesUnique(s)
    ensures SolvesUnique(Surviving(s, gone))
  {
    if s != [] {
      var n := |s| - 1;
      SurvivingUnique(s[..n], gone);
      SurvivingMembers(s[..n], gone);
      var t := Surviving(s[..n], gone);
      forall i | 0 <= i < |t| && t[i].correct && s[n].correct ensures t[i].ec != s[n].ec || t[i].team != s[n].team {
        assert t[i] in s[..n];
      }
    }
  }

  lemma KeysStay(db: Db, op: Op)
    requires Inv(db)
    ensures KeysUnique(Apply(db, op).ledger)
  {
    match op
    case Solve(_, _, _, _, _, _) =>
      if Accepted(db, op) {
        SolveKeysFree(db, op);
        KeysUniqueAppend(db.ledger, SolveRow(op));
        HasKeyAppend(db.ledger, SolveRow(op), KeyOf(BonusRow(op)));
        RefsDiffer(op.ecText, op.team, op.ecText);
        if EarnedBonus(db, op) > 0 {
          KeysUniqueAppend(db.ledger + [SolveRow(op)], BonusRow(op));
          assert Apply(db, op).ledger == db.ledger + [SolveRow(op)] + [BonusRow(op)];
        } else {
          assert Apply(db, op).ledger == db.ledger + [SolveRow(op)];
        }
      }
    case Award(_, _, _, _, _, _) =>
    case Revoke(event, plugin, ref) => KeysUniqueWithout(db.ledger, Key(event, PluginSource(plugin), ref));
    case _ =>
  }

  lemma SolveProjects(db: Db, op: Op, at: Spot)
    requires op.Solve? && Accepted(db, op) && ProjectedAt(db, at)
    ensures ProjectedAt(AfterSolve(db, op), at)
  {
    var l := db.ledger + [SolveRow(op)];
    PointsAppend(db.ledger, SolveRow(op), at);
    PointsAppend(l, BonusRow(op), at);
    assert AfterSolve(db, op).ledger == if EarnedBonus(db, op) > 0 then l + [BonusRow(op)] else l;
  }

  /** A revoke takes out of the board exactly what it takes out of the ledger, and never a solve. */
  lemma RevokeProjects(db: Db, k: Key, at: Spot)
    requires KeysUnique(db.ledger) && SolvesAreCore(db.ledger) && ProjectedAt(db, at)
    requires HasKey(db.ledger, k) && k.source != Core
    ensures ProjectedAt(AfterRevoke(db, k), at)
  {
    WithoutSums(db.ledger, k, at);
  }

  lemma ProjectsAt(db: Db, op: Op, at: Spot)
    requires KeysUnique(db.ledger) && SolvesAreCore(db.ledger) && ProjectedAt(db, at)
    ensures ProjectedAt(Apply(db, op), at)
  {
    match op
    case Solve(_, _, _, _, _, _) =>
      if Accepted(db, op) {
        SolveProjects(db, op, at);
      }
    case Award(_, _, _, _, _, _) => PointsAppend(db.ledger, AwardRow(op), at);
    case Revoke(event, plugin, ref) =>
      SourcesDiffer(plugin);
      if HasKey(db.ledger, Key(event, PluginSource(plugin), ref)) {
        RevokeProjects(db, Key(event, PluginSource(plugin), ref), at);
      }
    case _ =>
  }

  lemma BoardRowsStay(db: Db, op: Op)
    requires BoardRows(db)
    ensures BoardRows(Apply(db, op))
  {
    if op.Revoke? {
      WithoutMembers(db.ledger, Key(op.event, PluginSource(op.plugin), op.ref));
    }
  }

  lemma CoreSolvesStay(db: Db, op: Op)
    requires SolvesAreCore(db.ledger)
    ensures SolvesAreCore(Apply(db, op).ledger)
  {
    if op.Revoke? {
      WithoutMembers(db.ledger, Key(op.event, PluginSource(op.plugin), op.ref));
    }
  }

  /** One committed transaction keeps the invariant. */
  lemma Preserved(db: Db, op: Op)
    requires Inv(db)
    ensures Inv(Apply(db, op))
  {
    SolvesStay(db, op);
    KeysStay(db, op);
    RefsStay(db, op);
    CoreSolvesStay(db, op);
    BoardRowsStay(db, op);
    forall at: Spot ensures ProjectedAt(Apply(db, op), at) {
      ProjectsAt(db, op, at);
    }
  }
}
