/** One first-blood row per challenge, whatever the spelling, while solves of one challenge do not overlap. */
module InterleavingFirstBlood {
  import opened Common
  import opened Ledger
  import opened Interleaving
  import opened InterleavingInvariant
  import opened InterleavingRuns
  import opened InterleavingTheorems
  import opened InterleavingBonus
  import opened InterleavingDrift
  import Facts = LedgerFacts

  /** A first-blood row of the challenge, under any spelling of its id. */
  ghost predicate IsBonusFor(r: ScoreEvent, ec: Uuid) {
    exists text :: IsBonusOf(r, text) && ParseUuid(text) == Some(ec)
  }

  ghost predicate OneBonusRow(l: seq<Row>) {
    forall r, q, ec :: r in l && q in l && IsBonusFor(r.row, ec) && IsBonusFor(q.row, ec) ==> r.row == q.row
  }

  lemma AwardIsNoBonus(op: Op, ec: Uuid)
    ensures op.Award? ==> !IsBonusFor(AwardRow(op), ec)
  {
    if op.Award? {
      Facts.SourcesDiffer(op.plugin);
    }
  }

  /** Of the rows a call writes, only the bonus row is a first-blood row, and only of its own challenge. */
  lemma WrittenBonus(s: State, t: TxId, r: ScoreEvent, ec: Uuid)
    requires t in s.txs && Writes(s, t, r) && IsBonusFor(r, ec)
    ensures s.txs[t].op.Solve? && s.txs[t].phase.Rewarding? && r == BonusRow(s.txs[t].op)
    ensures ParseUuid(s.txs[t].op.ecText) == Some(ec)
  {
    var op := s.txs[t].op;
    AwardIsNoBonus(op, ec);
    var text :| IsBonusOf(r, text) && ParseUuid(text) == Some(ec);
    if op.Solve? {
      Facts.RefsDiffer(op.ecText, op.team, text);
      if r == BonusRow(op) {
        Facts.FirstBloodRefInjective(text, op.ecText);
      }
    }
  }

  lemma NewBonusIsFirst(s: State, t: TxId, r: ScoreEvent, ec: Uuid)
    requires Inv(s) && BonusesOk(s) && Quiet(s) && !Overlap(s) && t in s.txs && Writes(s, t, r) && IsBonusFor(r, ec)
    ensures r == BonusRow(s.txs[t].op) && forall q :: q in s.ledger ==> !IsBonusFor(q.row, ec)
  {
    WrittenBonus(s, t, r, ec);
    forall q, text | q in s.ledger && ParseUuid(text) == Some(ec) ensures !IsBonusOf(q.row, text) {
      NoEarlierBonus(s, t, q, text);
    }
  }

  lemma OneBonusRowStep(s: State, a: Action)
    requires Inv(s) && BonusesOk(s) && Quiet(s) && !Overlap(s) && OneBonusRow(s.ledger)
    ensures OneBonusRow(Step(s, a).ledger)
  {
    var l := Step(s, a).ledger;
    forall r, q, ec | r in l && q in l && IsBonusFor(r.row, ec) && IsBonusFor(q.row, ec) ensures r.row == q.row {
      StepRows(s, a, r.row);
      StepRows(s, a, q.row);
      if !Held(s.ledger, r.row) {
        NewBonusIsFirst(s, a.tx, r.row, ec);
      } else if !Held(s.ledger, q.row) {
        NewBonusIsFirst(s, a.tx, q.row, ec);
      }
    }
  }

  lemma {:induction false} OneBonusRowRun(schedule: seq<Action>)
    requires NeverOverlaps(schedule)
    ensures OneBonusRow(Play(Init, schedule).ledger)
  {
    if schedule != [] {
      var n := |schedule| - 1;
      var before := schedule[..n];
      forall i | 0 <= i <= |before| ensures !Overlap(Play(Init, before[..i])) {
        assert before[..i] == schedule[..i];
      }
      assert before[..n] == before;
      QuietRun(before);
      RunKeeps(before);
      RunBonuses(before);
      OneBonusRowRun(before);
      OneBonusRowStep(Play(Init, before), schedule[n]);
    }
  }

  /** If solves of one challenge never overlap, the ledger never holds two first-blood rows for it, in any spelling. */
  lemma OneFirstBloodRow(schedule: seq<Action>, i: nat, j: nat, ec: Uuid)
    requires NeverOverlaps(schedule) && i < |Play(Init, schedule).ledger| && j < |Play(Init, schedule).ledger|
    ensures var l := Play(Init, schedule).ledger; IsBonusFor(l[i].row, ec) && IsBonusFor(l[j].row, ec) ==> i == j
  {
    var l := Play(Init, schedule).ledger;
    OneBonusRowRun(schedule);
    RunKeeps(schedule);
    assert l[i] in l && l[j] in l;
    assert i < j ==> KeyOf(l[i].row) != KeyOf(l[j].row);
    assert j < i ==> KeyOf(l[j].row) != KeyOf(l[i].row);
  }
}
