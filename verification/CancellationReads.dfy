/** Databases that differ only by zero board rows answer every reader alike. */
module CancellationReads {
  import opened Common
  import opened Ledger
  import opened LedgerInvariant
  import opened Cancellation
  import Scoreboard
  import Gating
  import Series
  import Permutations

  lemma {:induction false} SameJoin(a: Db, b: Db, event: Uuid, roster: seq<Spot>)
    requires Indistinguishable(a, b)
    ensures Scoreboard.Joined(a, event, roster) == Scoreboard.Joined(b, event, roster)
  {
    if roster != [] {
      SameJoin(a, b, event, roster[1..]);
      assert View(a.board, (event, roster[0].1)) == View(b.board, (event, roster[0].1));
    }
  }

  lemma {:induction false} SameSolved(a: Db, b: Db, event: Uuid, team: Uuid, subs: seq<Submission>)
    requires Indistinguishable(a, b)
    ensures Gating.SolvedBy(a, event, team, subs) == Gating.SolvedBy(b, event, team, subs)
  {
    if subs != [] {
      SameSolved(a, b, event, team, subs[..|subs| - 1]);
    }
  }

  lemma SameGateState(a: Db, b: Db, event: Uuid, team: Uuid, st: Gating.GateState)
    requires Indistinguishable(a, b) && Gating.IsGateState(a, event, team, st)
    ensures Gating.IsGateState(b, event, team, st)
  {
    SameSolved(a, b, event, team, a.submissions);
    assert View(a.board, (event, team)) == View(b.board, (event, team));
    forall c ensures Gating.InBlock(a, st.solvedEC, c) == Gating.InBlock(b, st.solvedEC, c) {
      Gating.InBlockSame(a, b, st.solvedEC, c);
    }
  }

  lemma SameListed(a: Db, b: Db, event: Uuid, all: seq<Uuid>)
    requires Indistinguishable(a, b) && Series.Listed(a, event, all)
    ensures Series.Listed(b, event, all)
  {
    forall m ensures Series.Scored(a, event, m) <==> Series.Scored(b, event, m) {
      assert View(a.board, (event, m)) == View(b.board, (event, m));
    }
    forall x: Uuid, y: Uuid ensures Series.TopBefore(a, event)(x, y) == Series.TopBefore(b, event)(x, y) {
      assert View(a.board, (event, x)) == View(b.board, (event, x));
      assert View(a.board, (event, y)) == View(b.board, (event, y));
    }
  }

  lemma SameSelection(a: Db, b: Db, event: Uuid, topN: nat, selected: seq<Series.TeamSeries>)
    requires Indistinguishable(a, b) && Series.IsSelection(a, event, topN, selected)
    ensures Series.IsSelection(b, event, topN, selected)
  {
    var all: seq<Uuid> :| Series.Listed(a, event, all) &&
                          selected == Permutations.Map(Series.Line(a, event), Scoreboard.Limited(all, topN));
    SameListed(a, b, event, all);
    var lines := Permutations.Map(Series.Line(b, event), Scoreboard.Limited(all, topN));
    forall i | 0 <= i < |selected| ensures selected[i] == lines[i] {
      assert View(a.board, (event, all[i])) == View(b.board, (event, all[i]));
    }
    assert selected == lines;
  }

  lemma SameSeries(a: Db, b: Db, event: Uuid, topN: nat, teams: seq<Series.TeamSeries>)
    requires Indistinguishable(a, b) && Series.IsSeries(a, event, topN, teams)
    ensures Series.IsSeries(b, event, topN, teams)
  {
    var selected, rows, t0 :| Series.DrawnFrom(a, event, topN, teams, selected, rows, t0);
    SameSelection(a, b, event, topN, selected);
    assert Series.DrawnFrom(b, event, topN, teams, selected, rows, t0);
  }

  /** Taking an award and its reversal out of a run changes no scoreboard, chart or gate state. */
  lemma CancelledAwardIsInvisible(db: Db, before: seq<Op>, award: Op, middle: seq<Op>, revoke: Op, after: seq<Op>,
                                  event: Uuid, team: Uuid, st: Gating.GateState)
    requires Inv(db) && award.Award? && revoke.Revoke? && Uses(revoke, KeyOf(AwardRow(award)))
    requires AnswerOf(Run(db, before), award) == Applied(true)
    requires forall op :: op in middle ==> !Uses(op, KeyOf(AwardRow(award)))
    requires Gating.IsGateState(Run(db, before + [award] + middle + [revoke] + after), event, team, st)
    ensures var a, b := Run(db, before + [award] + middle + [revoke] + after), Run(db, before + middle + after);
            && a.ledger == b.ledger
            && Scoreboard.Ranking(a, event) == Scoreboard.Ranking(b, event)
            && (forall topN, teams ::
                  Series.IsSeries(a, event, topN, teams) <==> Series.IsSeries(b, event, topN, teams))
            && Gating.IsGateState(b, event, team, st)
  {
    AwardThenRevokeCancels(db, before, award, middle, revoke, after);
    var a, b := Run(db, before + [award] + middle + [revoke] + after), Run(db, before + middle + after);
    SameJoin(a, b, event, a.roster);
    forall topN, teams
      ensures Series.IsSeries(a, event, topN, teams) <==> Series.IsSeries(b, event, topN, teams)
    {
      if Series.IsSeries(a, event, topN, teams) { SameSeries(a, b, event, topN, teams); }
      if Series.IsSeries(b, event, topN, teams) { SameSeries(b, a, event, topN, teams); }
    }
    SameGateState(a, b, event, team, st);
  }
}
