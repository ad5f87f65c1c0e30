/** The store's scoring transactions, statement by statement, conflict clauses included. */
module LedgerStore {
  import opened Common
  import opened Ledger
  import opened LedgerFacts
  import opened LedgerInvariant

  class Store {
    var events: set<Uuid>
    var teams: map<Uuid, string>
    var roster: seq<Spot>
    var challenges: map<Uuid, Challenge>
    var minted: set<Uuid>
    var submissions: seq<Submission>
    var ledger: seq<ScoreEvent>
    var board: map<Spot, Entry>

    ghost function State(): Db
      reads this
    {
      Db(events, teams, roster, challenges, minted, submissions, ledger, board)
    }

    /** A fresh database: events and teams exist, nothing has been played. */
    constructor (events: set<Uuid>, teams: map<Uuid, string>)
      ensures State() == Db(events, teams, [], map[], {}, [], [], map[])
      ensures Inv(State())
    {
      this.events, this.teams, this.roster := events, teams, [];
      this.challenges, this.minted := map[], {};
      this.submissions, this.ledger, this.board := [], [], map[];
    }

    /** INSERT INTO score_events … ON CONFLICT (event_id, source, ref_id) DO NOTHING */
    method InsertScoreEvent(r: ScoreEvent) returns (inserted: bool)
      modifies this`ledger
      ensures inserted == !HasKey(old(ledger), KeyOf(r))
      ensures ledger == if inserted then old(ledger) + [r] else old(ledger)
    {
      inserted := !HasKey(ledger, KeyOf(r));
      if inserted {
        ledger := ledger + [r];
      }
    }

    /** INSERT INTO scoreboard_entries … ON CONFLICT (event_id, team_id) DO UPDATE, adding to the row. */
    method UpsertEntry(at: Spot, points: int, solves: int, last: Option<Time>)
      modifies this`board
      ensures board == old(board)[at := Entry(View(old(board), at).points + points,
                                              View(old(board), at).solves + solves,
                                              if last.Some? then last else View(old(board), at).last)]
    {
      if at in board {
        var e := board[at];
        board := board[at := Entry(e.points + points, e.solves + solves, if last.Some? then last else e.last)];
      } else {
        board := board[at := Entry(points, solves, last)];
      }
    }

    /**
     * The solve transaction. Its two ledger inserts carry conflict clauses and the bonus is added to
     * `total` whether or not the second one wrote; the state reached is the one without any conflict.
     */
    method RecordSolve(event: Uuid, bonus: int, ecText: string, team: Uuid, points: int, now: Time)
      returns (res: Answer)
      requires Inv(State())
      modifies this
      ensures State() == Apply(old(State()), Solve(event, bonus, ecText, team, points, now))
      ensures res == AnswerOf(old(State()), Solve(event, bonus, ecText, team, points, now))
      ensures Inv(State())
    {
      ghost var op := Solve(event, bonus, ecText, team, points, now);
      ghost var db := State();
      Preserved(db, op);
      var parsed := ParseUuid(ecText);
      if parsed.None? {
        return Failed;
      }
      var ec := parsed.value;
      if HasSolve(submissions, ec, team) {
        return Solved(true, false, points);
      }
      if ec !in challenges || event !in events || team !in teams {
        return Failed;
      }
      SolveKeysFree(db, op);
      res := WriteSolve(event, bonus, ecText, ec, team, points, now);
    }

    /** The statements of RecordSolve once the submission is known to be new. */
    method WriteSolve(event: Uuid, bonus: int, ecText: string, ec: Uuid, team: Uuid, points: int, now: Time)
      returns (res: Answer)
      requires ParseUuid(ecText) == Some(ec) && Accepted(State(), Solve(event, bonus, ecText, team, points, now))
      requires var op := Solve(event, bonus, ecText, team, points, now);
               !HasKey(ledger, KeyOf(SolveRow(op))) &&
               (TakesFirstBlood(State(), op) ==> !HasKey(ledger, KeyOf(BonusRow(op))))
      modifies this
      ensures State() == AfterSolve(old(State()), Solve(event, bonus, ecText, team, points, now))
      ensures res == AnswerOf(old(State()), Solve(event, bonus, ecText, team, points, now))
    {
      SolveCountAppend(submissions, Submission(event, ec, team, true), ec);
      submissions := submissions + [Submission(event, ec, team, true)];
      var n := SolveCount(submissions, ec);
      var firstBlood := n == 1;
      var total := WriteScores(Solve(event, bonus, ecText, team, points, now), firstBlood);
      UpsertEntry((event, team), total, 1, Some(now));
      res := Solved(false, firstBlood, total);
    }

    /** The ledger inserts of a solve, and the total it adds to the board. */
    method WriteScores(op: Op, firstBlood: bool) returns (total: int)
      requires op.Solve? && !HasKey(ledger, KeyOf(SolveRow(op))) &&
               (firstBlood ==> !HasKey(ledger, KeyOf(BonusRow(op))))
      modifies this`ledger
      ensures total == op.points + if firstBlood && op.bonus > 0 then op.bonus else 0
      ensures ledger == old(ledger) + [SolveRow(op)] + if firstBlood && op.bonus > 0 then [BonusRow(op)] else []
    {
      total := op.points;
      var solveRow := ScoreEvent(op.event, op.team, SolveKind, Core, SolveRef(op.ecText, op.team), op.points, op.now);
      var _ := InsertScoreEvent(solveRow);
      if firstBlood && op.bonus > 0 {
        var bonusRow := ScoreEvent(op.event, op.team, AwardKind, Core, FirstBloodRef(op.ecText), op.bonus, op.now);
        HasKeyAppend(old(ledger), solveRow, KeyOf(bonusRow));
        RefsDiffer(op.ecText, op.team, op.ecText);
        var _ := InsertScoreEvent(bonusRow);
        total := total + op.bonus;
      }
    }

    method RecordWrong(event: Uuid, ecText: string, team: Uuid) returns (res: Answer)
      requires Inv(State())
      modifies this`submissions
      ensures State() == Apply(old(State()), Wrong(event, ecText, team))
      ensures res == AnswerOf(old(State()), Wrong(event, ecText, team))
      ensures Inv(State())
    {
      Preserved(State(), Wrong(event, ecText, team));
      var parsed := ParseUuid(ecText);
      if parsed.None? || parsed.value !in challenges || event !in events || team !in teams {
        return Failed;
      }
      submissions := submissions + [Submission(event, parsed.value, team, false)];
      res := Done;
    }

    /** A plugin's award; `plugin` is the authenticated plugin id, which the handler turns into the source. */
    method PluginAward(event: Uuid, team: Uuid, plugin: string, ref: string, points: int, now: Time)
      returns (res: Answer)
      requires Inv(State())
      modifies this
      ensures State() == Apply(old(State()), Award(event, team, plugin, ref, points, now))
      ensures res == AnswerOf(old(State()), Award(event, team, plugin, ref, points, now))
      ensures Inv(State())
    {
      Preserved(State(), Award(event, team, plugin, ref, points, now));
      var row := ScoreEvent(event, team, AwardKind, PluginSource(plugin), ref, points, now);
      if HasKey(ledger, KeyOf(row)) {
        return Applied(false);
      }
      if event !in events || team !in teams {
        return Failed;
      }
      var inserted := InsertScoreEvent(row);
      if !inserted {
        return Applied(false);
      }
      UpsertEntry((event, team), points, 0, None);
      res := Applied(true);
    }

    /** Reverses an award; the final UPDATE touches the board row only if there is one. */
    method DeletePluginAward(event: Uuid, plugin: string, ref: string) returns (res: Answer)
      requires Inv(State())
      modifies this
      ensures State() == Apply(old(State()), Revoke(event, plugin, ref))
      ensures res == AnswerOf(old(State()), Revoke(event, plugin, ref))
      ensures Inv(State())
    {
      ghost var db := State();
      Preserved(db, Revoke(event, plugin, ref));
      var k := Key(event, PluginSource(plugin), ref);
      if !HasKey(ledger, k) {
        return Applied(false);
      }
      var row := RowOf(ledger, k);
      ledger := Without(ledger, k);
      var at := (event, row.team);
      if at in board {
        var e := board[at];
        board := board[at := Entry(e.points - row.points, e.solves, e.last)];
      }
      res := Applied(true);
    }

    /** A bulk delete; submissions go with their challenges, ledger and board rows stay. */
    method DeleteChallengeRows(ids: set<Uuid>)
      requires Inv(State())
      modifies this`challenges, this`submissions
      ensures State() == Apply(old(State()), DeleteChallenges(ids))
      ensures Inv(State())
    {
      Preserved(State(), DeleteChallenges(ids));
      challenges := challenges - ids;
      submissions := Surviving(submissions, ids);
    }
  }
}
