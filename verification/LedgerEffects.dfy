/** What each transaction does, on the rows themselves: who is paid what, and what stays as it was. */
module LedgerEffects {
  import opened Common
  import opened Ledger
  import opened LedgerFacts
  import opened LedgerInvariant

  // ---------------------------------------------------------------- on the rows

  ghost predicate SomebodySolved(db: Db, ec: Uuid) { exists x :: x in db.submissions && x.correct && x.ec == ec }

  ghost predicate TeamSolved(db: Db, ec: Uuid, team: Uuid) {
    exists x :: x in db.submissions && x.correct && x.ec == ec && x.team == team
  }

  ghost predicate Stands(db: Db, event: Uuid, ec: Uuid, team: Uuid) {
    event in db.events && team in db.teams && ec in db.challenges
  }

  /** A ledger row with this event, source and reference. */
  ghost predicate InLedger(db: Db, event: Uuid, source: string, ref: string) {
    exists r :: r in db.ledger && r.event == event && r.source == source && r.ref == ref
  }

  /** One board row moves, from zero if it is missing, and a time given becomes its last solve; the others stay. */
  ghost predicate Moved(was: map<Spot, Entry>, after: map<Spot, Entry>, at: Spot, points: int, solves: int,
                        last: Option<Time>)
  {
    && at in after
    && after[at].points == (if at in was then was[at].points else 0) + points
    && after[at].solves == (if at in was then was[at].solves else 0) + solves
    && after[at].last == (if last.Some? then last else if at in was then was[at].last else None)
    && forall k :: k != at ==> (k in after <==> k in was) && (k in was ==> after[k] == was[k])
  }

  // ---------------------------------------------------------------- solves

  lemma {:induction false} CountsNobody(s: seq<Submission>, ec: Uuid)
    ensures SolveCount(s, ec) == 0 <==> !exists x :: x in s && x.correct && x.ec == ec
  {
    if s != [] {
      var n := |s| - 1;
      CountsNobody(s[..n], ec);
      assert s == s[..n] + [s[n]];
      if x :| x in s && x.correct && x.ec == ec {
        assert x in s[..n] || x == s[n];
      }
      if x :| x in s[..n] && x.correct && x.ec == ec {
        assert x in s;
      }
      assert s[n] in s;
    }
  }

  lemma AcceptedIff(db: Db, op: Op, ec: Uuid)
    requires op.Solve? && ParseUuid(op.ecText) == Some(ec)
    ensures Accepted(db, op) <==> Stands(db, op.event, ec, op.team) && !TeamSolved(db, ec, op.team)
    ensures Accepted(db, op) ==> (TakesFirstBlood(db, op) <==> !SomebodySolved(db, ec))
  {
    HasSolveIn(db.submissions, ec, op.team);
    CountsNobody(db.submissions, ec);
  }

  /** The call adds these ledger rows and one correct submission, pays them to the team, and nothing else. */
  ghost predicate Paid(db: Db, db': Db, op: Op, ec: Uuid, rows: seq<ScoreEvent>, total: int)
    requires op.Solve?
  {
    && db' == db.(submissions := db'.submissions, ledger := db'.ledger, board := db'.board)
    && db'.submissions == db.submissions + [Submission(op.event, ec, op.team, true)]
    && db'.ledger == db.ledger + rows
    && Moved(db.board, db'.board, (op.event, op.team), total, 1, Some(op.now))
  }

  /** The first solve of a challenge is answered and paid its points and the bonus, and both are in the ledger. */
  lemma FirstSolvePays(db: Db, op: Op, ec: Uuid)
    requires op.Solve? && ParseUuid(op.ecText) == Some(ec) && Stands(db, op.event, ec, op.team)
    requires !SomebodySolved(db, ec)
    ensures AnswerOf(db, op) == Solved(false, true, op.points + Max(op.bonus, 0))
    ensures var ref := "solve:" + op.ecText + ":" + op.team;
            var solve := ScoreEvent(op.event, op.team, SolveKind, "core", ref, op.points, op.now);
            var bonus := ScoreEvent(op.event, op.team, AwardKind, "core", "firstblood:" + op.ecText, op.bonus, op.now);
            Paid(db, Apply(db, op), op, ec, if op.bonus > 0 then [solve, bonus] else [solve],
                 op.points + Max(op.bonus, 0))
  {
    AcceptedIff(db, op, ec);
  }

  /** A later solve by another team is answered and paid its points alone. */
  lemma LaterSolvePays(db: Db, op: Op, ec: Uuid)
    requires op.Solve? && ParseUuid(op.ecText) == Some(ec) && Stands(db, op.event, ec, op.team)
    requires SomebodySolved(db, ec) && !TeamSolved(db, ec, op.team)
    ensures AnswerOf(db, op) == Solved(false, false, op.points)
    ensures var ref := "solve:" + op.ecText + ":" + op.team;
            var solve := ScoreEvent(op.event, op.team, SolveKind, "core", ref, op.points, op.now);
            Paid(db, Apply(db, op), op, ec, [solve], op.points)
  {
    AcceptedIff(db, op, ec);
  }

  /** A team's second solve is told so, and one that names nothing fails; neither changes anything. */
  lemma OtherSolvesPayNothing(db: Db, op: Op)
    requires op.Solve?
    ensures forall ec :: ParseUuid(op.ecText) == Some(ec) && TeamSolved(db, ec, op.team) ==>
              Apply(db, op) == db && AnswerOf(db, op) == Solved(true, false, op.points)
    ensures ParseUuid(op.ecText).None? ==> Apply(db, op) == db && AnswerOf(db, op) == Failed
    ensures forall ec :: ParseUuid(op.ecText) == Some(ec) && !Stands(db, op.event, ec, op.team)
                         && !TeamSolved(db, ec, op.team) ==>
              Apply(db, op) == db && AnswerOf(db, op) == Failed
  {
    if ParseUuid(op.ecText).Some? {
      AcceptedIff(db, op, ParseUuid(op.ecText).value);
      HasSolveIn(db.submissions, ParseUuid(op.ecText).value, op.team);
    }
  }

  lemma WrongIsOnlyRecorded(db: Db, op: Op)
    requires op.Wrong?
    ensures forall ec :: ParseUuid(op.ecText) == Some(ec) && Stands(db, op.event, ec, op.team) ==>
              AnswerOf(db, op) == Done &&
              Apply(db, op) == db.(submissions := db.submissions + [Submission(op.event, ec, op.team, false)])
    ensures (forall ec :: ParseUuid(op.ecText) == Some(ec) ==> !Stands(db, op.event, ec, op.team)) ==>
              AnswerOf(db, op) == Failed && Apply(db, op) == db
  {
  }

  // ---------------------------------------------------------------- awards

  lemma InLedgerIff(db: Db, event: Uuid, source: string, ref: string)
    ensures InLedger(db, event, source, ref) <==> HasKey(db.ledger, Key(event, source, ref))
  {
    HasKeyIn(db.ledger, Key(event, source, ref));
  }

  /** An award with a new reference is paid once; one with a used reference is not, whoever it was for. */
  lemma AwardPaysOnce(db: Db, op: Op)
    requires op.Award?
    ensures var db', source := Apply(db, op), "plugin:" + op.plugin;
            var row := ScoreEvent(op.event, op.team, AwardKind, source, op.ref, op.points, op.now);
            if InLedger(db, op.event, source, op.ref) then db' == db && AnswerOf(db, op) == Applied(false)
            else if op.event !in db.events || op.team !in db.teams then db' == db && AnswerOf(db, op) == Failed
            else
              && AnswerOf(db, op) == Applied(true)
              && db' == db.(ledger := db.ledger + [row], board := db'.board)
              && Moved(db.board, db'.board, (op.event, op.team), op.points, 0, None)
  {
    InLedgerIff(db, op.event, "plugin:" + op.plugin, op.ref);
  }

  lemma {:induction false} WithoutConcat(a: seq<ScoreEvent>, b: seq<ScoreEvent>, k: Key)
    ensures Without(a + b, k) == Without(a, k) + Without(b, k)
  {
    if b == [] {
      assert a + b == a;
    } else {
      var n := |b| - 1;
      WithoutConcat(a, b[..n], k);
      assert a + b == (a + b[..n]) + [b[n]] && b == b[..n] + [b[n]];
      WithoutAppend(a + b[..n], b[n], k);
    }
  }

  lemma KeyIsElsewhere(l: seq<ScoreEvent>, i: nat)
    requires i < |l| && KeysUnique(l)
    ensures !HasKey(l[..i], KeyOf(l[i])) && !HasKey(l[i + 1..], KeyOf(l[i])) && HasKey(l, KeyOf(l[i]))
    ensures RowOf(l, KeyOf(l[i])) == l[i]
  {
    assert KeyOf(l[i]) == KeyOf(l[i]);
    var j :| 0 <= j < |l| && l[j] == RowOf(l, KeyOf(l[i]));
  }

  lemma WithoutFrontOnly(a: seq<ScoreEvent>, b: seq<ScoreEvent>, k: Key)
    requires !HasKey(b, k)
    ensures Without(a + b, k) == Without(a, k) + b
  {
    WithoutConcat(a, b, k);
    WithoutMembers(b, k);
  }

  lemma WithoutLast(a: seq<ScoreEvent>, r: ScoreEvent)
    requires !HasKey(a, KeyOf(r))
    ensures Without(a + [r], KeyOf(r)) == a
  {
    WithoutAppend(a, r, KeyOf(r));
    WithoutMembers(a, KeyOf(r));
    assert a + [] == a;
  }

  lemma WithoutMiddle(a: seq<ScoreEvent>, r: ScoreEvent, b: seq<ScoreEvent>)
    requires !HasKey(a, KeyOf(r)) && !HasKey(b, KeyOf(r))
    ensures Without(a + [r] + b, KeyOf(r)) == a + b
  {
    WithoutLast(a, r);
    WithoutFrontOnly(a + [r], b, KeyOf(r));
  }

  lemma SplitAt(l: seq<ScoreEvent>, i: nat)
    requires i < |l|
    ensures l == l[..i] + [l[i]] + l[i + 1..]
  {
  }

  /** A reversal takes the one row of its reference out of the ledger and its points from the team that had them. */
  lemma RevokeTakesBack(db: Db, op: Op, i: nat)
    requires op.Revoke? && Inv(db) && i < |db.ledger|
    requires var r := db.ledger[i]; r.event == op.event && r.source == "plugin:" + op.plugin && r.ref == op.ref
    ensures AnswerOf(db, op) == Applied(true)
    ensures var db', r := Apply(db, op), db.ledger[i];
            && db' == db.(ledger := db.ledger[..i] + db.ledger[i + 1..], board := db'.board)
            && Moved(db.board, db'.board, (r.event, r.team), -r.points, 0, None)
  {
    KeyIsElsewhere(db.ledger, i);
    SplitAt(db.ledger, i);
    WithoutMiddle(db.ledger[..i], db.ledger[i], db.ledger[i + 1..]);
  }

  lemma RevokeOfNothing(db: Db, op: Op)
    requires op.Revoke? && !InLedger(db, op.event, "plugin:" + op.plugin, op.ref)
    ensures AnswerOf(db, op) == Applied(false) && Apply(db, op) == db
  {
    InLedgerIff(db, op.event, "plugin:" + op.plugin, op.ref);
  }

  // ---------------------------------------------------------------- challenges and rosters

  /** The same challenges, the listed ones with one column set. */
  lemma EditsSetOneColumn(db: Db, op: Op)
    requires op.SetState? || op.AssignBlock?
    ensures var db', cs, cs' := Apply(db, op), db.challenges, Apply(db, op).challenges;
            && db' == db.(challenges := cs') && cs'.Keys == cs.Keys
            && (forall c :: c in cs && c !in op.ids ==> cs'[c] == cs[c])
            && (forall c :: c in cs && c in op.ids ==>
                  && cs'[c].event == cs[c].event
                  && cs'[c].state == (if op.SetState? then op.state else cs[c].state)
                  && cs'[c].block == if op.AssignBlock? then op.block else cs[c].block)
  {
  }

  /** A new challenge gets an id that was never used; a delete takes the submissions of its challenges with it. */
  lemma ChallengesComeAndGo(db: Db, op: Op)
    requires op.AddChallenge? || op.DeleteChallenges?
    ensures var db' := Apply(db, op);
            op.AddChallenge? ==>
              if op.id in db.minted || op.row.event !in db.events then db' == db
              else db' == db.(minted := db.minted + {op.id}, challenges := db.challenges[op.id := op.row])
    ensures var db' := Apply(db, op);
            op.DeleteChallenges? ==>
              && db' == db.(challenges := db'.challenges, submissions := db'.submissions)
              && (forall c :: c in db'.challenges <==> c in db.challenges && c !in op.ids)
              && (forall c :: c in db'.challenges ==> db'.challenges[c] == db.challenges[c])
              && forall x :: multiset(db'.submissions)[x] == if x.ec in op.ids then 0 else multiset(db.submissions)[x]
  {
    if op.DeleteChallenges? {
      SurvivingCounts(db.submissions, op.ids);
    }
  }

  lemma {:induction false} SurvivingCounts(s: seq<Submission>, gone: set<Uuid>)
    ensures forall x :: multiset(Surviving(s, gone))[x] == if x.ec in gone then 0 else multiset(s)[x]
  {
    if s != [] {
      var n := |s| - 1;
      SurvivingCounts(s[..n], gone);
      assert s == s[..n] + [s[n]];
    }
  }

  lemma {:induction false} DroppedCounts(roster: seq<Spot>, at: Spot)
    ensures forall x :: multiset(Dropped(roster, at))[x] == if x == at then 0 else multiset(roster)[x]
  {
    if roster != [] {
      var n := |roster| - 1;
      DroppedCounts(roster[..n], at);
      assert roster == roster[..n] + [roster[n]];
    }
  }

  /** Assigning a team adds it to the roster once; removing it leaves the others, and its points, where they are. */
  lemma TeamsComeAndGo(db: Db, op: Op)
    requires op.AssignTeam? || op.UnassignTeam?
    ensures var db', at := Apply(db, op), (op.event, op.team);
            && db' == db.(roster := db'.roster)
            && (op.AssignTeam? && op.event in db.events && op.team in db.teams && at !in db.roster ==>
                  db'.roster == db.roster + [at])
            && (op.AssignTeam? && !(op.event in db.events && op.team in db.teams && at !in db.roster) ==> db' == db)
            && (op.UnassignTeam? ==>
                  forall x :: multiset(db'.roster)[x] == if x == at then 0 else multiset(db.roster)[x])
  {
    if op.UnassignTeam? {
      DroppedCounts(db.roster, (op.event, op.team));
    }
  }
}
