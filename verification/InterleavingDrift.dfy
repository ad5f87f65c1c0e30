/** The board cannot drift while solves of one challenge do not overlap, and does drift when they do. */
module InterleavingDrift {
  import opened Common
  import opened Ledger
  import opened Interleaving
  import opened InterleavingSums
  import opened InterleavingInvariant
  import opened InterleavingRuns
  import opened InterleavingTheorems
  import opened InterleavingBonus
  import Facts = LedgerFacts

  /** Two open solve calls hold pending submissions for one challenge. */
  ghost predicate Overlap(s: State) {
    exists t, u :: t in s.txs && u in s.txs && t != u && HasMark(s, t) && HasMark(s, u) &&
                   ParseUuid(s.txs[t].op.ecText) == ParseUuid(s.txs[u].op.ecText)
  }

  ghost predicate NeverOverlaps(schedule: seq<Action>) {
    forall i :: 0 <= i <= |schedule| ==> !Overlap(Play(Init, schedule[..i]))
  }

  // ---------------------------------------------------------------- the quiet invariant

  predicate Hopeful(x: Tx) {
    x.op.Solve? && ParseUuid(x.op.ecText).Some? && (x.phase == Scoring(true) || x.phase.Rewarding?)
  }

  /** Nobody's solve of the challenge has been committed. */
  ghost predicate NoRival(s: State, ec: Uuid) {
    forall k :: k in s.solves && k.0 == ec ==> s.solves[k] != Committed
  }

  predicate Plain(p: Phase) { (p.Boarding? || p.Committing?) ==> p.surplus == 0 }

  ghost predicate Quiet(s: State) {
    && (forall t :: t in s.txs && Hopeful(s.txs[t]) ==> NoRival(s, ParseUuid(s.txs[t].op.ecText).value))
    && (forall t :: t in s.txs ==> Plain(s.txs[t].phase))
    && (forall i :: 0 <= i < |s.log| ==> s.log[i].surplus == 0)
  }

  // ---------------------------------------------------------------- ending a transaction

  lemma RollbackQuiet(s: State, t: TxId)
    requires Inv(s) && Quiet(s) && t in s.txs
    ensures Quiet(Rollback(s, t))
  {
    var s' := Rollback(s, t);
    forall u | u in s'.txs && Hopeful(s'.txs[u]) ensures NoRival(s', ParseUuid(s'.txs[u].op.ecText).value) {
      assert NoRival(s, ParseUuid(s.txs[u].op.ecText).value);
    }
  }

  /** Without overlap, a commit is no rival of anybody still hoping for first blood. */
  lemma CommitNoRival(s: State, t: TxId, u: TxId)
    requires Inv(s) && !Overlap(s) && t in s.txs && s.txs[t].phase.Committing? && u in s.txs && u != t
    requires Hopeful(s.txs[u]) && NoRival(s, ParseUuid(s.txs[u].op.ecText).value)
    ensures NoRival(Commit(s, t), ParseUuid(s.txs[u].op.ecText).value)
  {
    var s', ec := Commit(s, t), ParseUuid(s.txs[u].op.ecText).value;
    assert TxOk(s, t) && TxOk(s, u);
    assert HasMark(s, u) && (s.txs[t].op.Solve? ==> HasMark(s, t));
    forall k | k in s'.solves && k.0 == ec ensures s'.solves[k] != Committed {
      assert MarkOk(s, k);
    }
  }

  lemma CommitQuiet(s: State, t: TxId)
    requires Inv(s) && Quiet(s) && !Overlap(s) && t in s.txs && s.txs[t].phase.Committing?
    ensures Quiet(Commit(s, t))
  {
    var s' := Commit(s, t);
    forall u | u in s'.txs && Hopeful(s'.txs[u]) ensures NoRival(s', ParseUuid(s'.txs[u].op.ecText).value) {
      CommitNoRival(s, t, u);
    }
    assert Plain(s.txs[t].phase);
  }

  // ---------------------------------------------------------------- going on

  /** A statement that leaves the submissions alone. */
  lemma MoveQuiet(s: State, t: TxId, p: Phase, s': State)
    requires Quiet(s) && t in s.txs && s'.txs == s.txs[t := s.txs[t].(phase := p)] && s'.solves == s.solves
    requires s'.log == s.log && Plain(p)
    requires Hopeful(s'.txs[t]) ==> NoRival(s', ParseUuid(s.txs[t].op.ecText).value)
    ensures Quiet(s')
  {
    forall u | u in s'.txs && Hopeful(s'.txs[u]) ensures NoRival(s', ParseUuid(s'.txs[u].op.ecText).value) {
      assert u != t ==> NoRival(s, ParseUuid(s.txs[u].op.ecText).value);
    }
  }

  lemma InsertSubmissionQuiet(s: State, t: TxId)
    requires Inv(s) && Quiet(s) && t in s.txs && s.txs[t].op.Solve? && s.txs[t].phase.Begun?
    ensures Quiet(InsertSubmission(s, t))
  {
    var op := s.txs[t].op;
    if CannotSubmit(s, op) {
      RollbackQuiet(s, t);
    } else {
      var s' := InsertSubmission(s, t);
      forall u | u in s'.txs && Hopeful(s'.txs[u]) ensures NoRival(s', ParseUuid(s'.txs[u].op.ecText).value) {
        assert NoRival(s, ParseUuid(s.txs[u].op.ecText).value);
      }
    }
  }

  /** A count of one means the call's own submission is the only one it can see. */
  lemma CountOfOne(s: State, t: TxId)
    requires Structure(s) && t in s.txs && HasMark(s, t)
    ensures var ec := ParseUuid(s.txs[t].op.ecText).value; |Seen(s.solves, s.gone, ec, t)| == 1 ==> NoRival(s, ec)
  {
    var ec := ParseUuid(s.txs[t].op.ecText).value;
    var seen, mine := Seen(s.solves, s.gone, ec, t), (ec, s.txs[t].op.team);
    assert MarkOk(s, mine) && mine in seen;
    if |seen| == 1 {
      assert |seen - {mine}| == 0;
      forall k | k in s.solves && k.0 == ec ensures s.solves[k] != Committed {
        assert k in seen && k != mine ==> k in seen - {mine};
      }
    }
  }

  lemma CountSolvesQuiet(s: State, t: TxId)
    requires Inv(s) && Quiet(s) && t in s.txs && s.txs[t].op.Solve? && s.txs[t].phase.Counting?
    ensures Quiet(CountSolves(s, t))
  {
    assert TxOk(s, t);
    CountOfOne(s, t);
    var ec := ParseUuid(s.txs[t].op.ecText).value;
    var p := Scoring(|Seen(s.solves, s.gone, ec, t)| == 1);
    var s' := CountSolves(s, t);
    assert NoRival(s, ec) ==> NoRival(s', ec);
    MoveQuiet(s, t, p, s');
  }

  lemma ScoringQuiet(s: State, t: TxId)
    requires Inv(s) && Quiet(s) && t in s.txs && s.txs[t].op.Solve? && s.txs[t].phase.Scoring?
    ensures Quiet(Statement(s, t))
  {
    var op, p := s.txs[t].op, AfterScoring(s.txs[t].op, s.txs[t].phase.firstBlood, 0);
    assert TxOk(s, t);
    SolveKeyFree(s, t);
    var s' := Statement(s, t);
    if Hopeful(s'.txs[t]) {
      assert Hopeful(s.txs[t]) && NoRival(s, ParseUuid(op.ecText).value);
      assert NoRival(s', ParseUuid(op.ecText).value);
    }
    MoveQuiet(s, t, p, s');
  }

  /** A hopeful call finds no first-blood row of its challenge, in any spelling. */
  lemma NoEarlierBonus(s: State, t: TxId, q: Row, text: string)
    requires Inv(s) && BonusesOk(s) && Quiet(s) && !Overlap(s)
    requires t in s.txs && s.txs[t].op.Solve? && s.txs[t].phase.Rewarding?
    requires q in s.ledger && ParseUuid(text) == ParseUuid(s.txs[t].op.ecText)
    ensures !IsBonusOf(q.row, text)
  {
    var op := s.txs[t].op;
    assert TxOk(s, t) && RowOk(s, q) && BonusOk(s, q);
    if IsBonusOf(q.row, text) {
      assert NoRival(s, ParseUuid(op.ecText).value);
      var k := (ParseUuid(text).value, q.row.team);
      assert MarkOk(s, k);
      var u := s.solves[k].tx;
      assert TxOk(s, u);
      assert u != t ==> HasMark(s, t) && HasMark(s, u);
      Facts.RefsDiffer(op.ecText, op.team, text);
    }
  }

  lemma RewardingQuiet(s: State, t: TxId)
    requires Inv(s) && BonusesOk(s) && Quiet(s) && !Overlap(s)
    requires t in s.txs && s.txs[t].op.Solve? && s.txs[t].phase.Rewarding?
    ensures Quiet(Statement(s, t))
  {
    var op, s' := s.txs[t].op, Statement(s, t);
    forall q | q in s.ledger ensures KeyOf(q.row) != KeyOf(BonusRow(op)) {
      NoEarlierBonus(s, t, q, op.ecText);
    }
    assert TxOk(s, t);
    MoveQuiet(s, t, s'.txs[t].phase, s');
  }

  lemma AwardQuiet(s: State, t: TxId)
    requires Inv(s) && Quiet(s) && t in s.txs && s.txs[t].phase.Begun? && s.txs[t].op.Award?
    ensures Quiet(Statement(s, t))
  {
    var op, s' := s.txs[t].op, Statement(s, t);
    if KeyWith(s.ledger, KeyOf(AwardRow(op)), Committed) {
      RollbackQuiet(s, t);
    } else {
      MoveQuiet(s, t, s'.txs[t].phase, s');
    }
  }

  lemma DeletedQuiet(s: State, t: TxId, k: Key)
    requires Inv(s) && Quiet(s) && t in s.txs && KeyWith(s.ledger, k, Committed)
    ensures Quiet(Deleted(s, t, k))
  {
    var s' := Deleted(s, t, k);
    MoveQuiet(s, t, s'.txs[t].phase, s');
  }

  lemma BegunQuiet(s: State, t: TxId)
    requires Inv(s) && Quiet(s) && t in s.txs && s.txs[t].phase.Begun? && !s.txs[t].op.Solve?
    ensures Quiet(Statement(s, t))
  {
    var op := s.txs[t].op;
    if op.Award? {
      AwardQuiet(s, t);
    } else {
      RollbackQuiet(s, t);
      if op.Revoke? && KeyWith(s.ledger, Key(op.event, PluginSource(op.plugin), op.ref), Committed) {
        DeletedQuiet(s, t, Key(op.event, PluginSource(op.plugin), op.ref));
      }
    }
  }

  lemma StatementQuiet(s: State, t: TxId)
    requires Inv(s) && BonusesOk(s) && Quiet(s) && !Overlap(s) && t in s.txs
    ensures Quiet(Statement(s, t))
  {
    var x := s.txs[t];
    assert TxOk(s, t);
    match x.phase
    case Begun =>
      if x.op.Solve? {
        InsertSubmissionQuiet(s, t);
      } else {
        BegunQuiet(s, t);
      }
    case Counting => CountSolvesQuiet(s, t);
    case Scoring(_) => ScoringQuiet(s, t);
    case Rewarding(_) => RewardingQuiet(s, t);
    case Boarding(at, _, _, _) =>
      if at !in s.locks {
        MoveQuiet(s, t, Statement(s, t).txs[t].phase, Statement(s, t));
      }
    case Committing(_, _, _, _, _) => CommitQuiet(s, t);
  }

  lemma StepQuiet(s: State, a: Action)
    requires Inv(s) && BonusesOk(s) && Quiet(s) && !Overlap(s)
    ensures Quiet(Step(s, a))
  {
    match a
    case Begin(t, op) =>
      if t !in s.txs {
        var s' := Step(s, a);
        forall u | u in s'.txs && Hopeful(s'.txs[u]) ensures NoRival(s', ParseUuid(s'.txs[u].op.ecText).value) {
          assert NoRival(s, ParseUuid(s.txs[u].op.ecText).value);
        }
      }
    case Exec(t) =>
      if t in s.txs {
        StatementQuiet(s, t);
      }
    case Abort(t) =>
      if t in s.txs {
        RollbackQuiet(s, t);
      }
    case Remove(_) =>
  }

  lemma {:induction false} QuietRun(schedule: seq<Action>)
    requires NeverOverlaps(schedule)
    ensures Quiet(Play(Init, schedule))
  {
    if schedule != [] {
      var n := |schedule| - 1;
      var before := schedule[..n];
      forall i | 0 <= i <= |before| ensures !Overlap(Play(Init, before[..i])) {
        assert before[..i] == schedule[..i];
      }
      QuietRun(before);
      RunKeeps(before);
      RunBonuses(before);
      assert schedule[..n] == before;
      StepQuiet(Play(Init, before), schedule[n]);
    }
  }

  lemma {:induction false} NoSurplusNoDrift(log: seq<Receipt>, at: Spot)
    requires forall i :: 0 <= i < |log| ==> log[i].surplus == 0
    ensures Drift(log, at) == 0
  {
    if log != [] {
      NoSurplusNoDrift(log[..|log| - 1], at);
    }
  }

  /**
   * If solves of the same challenge never overlap, the committed board is the visible ledger at every
   * point of the schedule, for every team.
   */
  lemma NoOverlapNoDrift(schedule: seq<Action>, at: Spot)
    requires NeverOverlaps(schedule)
    ensures var s := Play(Init, schedule);
            && Drift(s.log, at) == 0
            && BoardAt(s.board, at) ==
               Tally(Total(s.ledger, at, Visible, PointsOf), Total(s.ledger, at, Visible, SolvesOf))
  {
    QuietRun(schedule);
    RunKeeps(schedule);
    NoSurplusNoDrift(Play(Init, schedule).log, at);
    assert BalancedAt(Play(Init, schedule), at);
  }
}
