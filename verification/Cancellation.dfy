/** An award and its later reversal leave no trace that any reader can see. */
module Cancellation {
  import opened Ledger
  import opened LedgerFacts
  import opened LedgerInvariant
  import opened LedgerRuns

  /** Equal in every table but the ledger and the board. */
  ghost predicate SameElsewhere(a: Db, b: Db) {
    && a.events == b.events && a.teams == b.teams && a.roster == b.roster
    && a.challenges == b.challenges && a.minted == b.minted && a.submissions == b.submissions
  }

  ghost predicate ShiftedAt(x: map<Spot, Entry>, y: map<Spot, Entry>, s: Spot, d: int, at: Spot) {
    View(x, at) == Plus(View(y, at), if at == s then d else 0)
  }

  /** The boards read the same, except that `x` shows `d` more points at `s`. */
  ghost predicate Shifted(x: map<Spot, Entry>, y: map<Spot, Entry>, s: Spot, d: int) {
    forall at: Spot :: ShiftedAt(x, y, s, d, at)
  }

  function Plus(e: Entry, points: int): Entry { e.(points := e.points + points) }

  /** Equal in every table, except that board rows may differ by a zero row. */
  ghost predicate Indistinguishable(a: Db, b: Db) {
    SameElsewhere(a, b) && a.ledger == b.ledger && forall at: Spot :: View(a.board, at) == View(b.board, at)
  }

  /** `a` is `b` with the award row `r` still applied. */
  ghost predicate Shadow(a: Db, b: Db, r: ScoreEvent) {
    && SameElsewhere(a, b)
    && r in a.ledger && r.source != Core
    && KeysUnique(a.ledger)
    && b.ledger == Without(a.ledger, KeyOf(r))
    && Shifted(a.board, b.board, (r.event, r.team), r.points)
  }

  /** The call writes or deletes the ledger row of key `k`. */
  predicate Uses(op: Op, k: Key) {
    (op.Award? && KeyOf(AwardRow(op)) == k) || (op.Revoke? && Key(op.event, PluginSource(op.plugin), op.ref) == k)
  }

  // ---------------------------------------------------------------- one step

  lemma ShiftedUpdate(x: map<Spot, Entry>, y: map<Spot, Entry>, s: Spot, d: int, at: Spot, e: Entry, f: Entry)
    requires Shifted(x, y, s, d) && e == Plus(f, if at == s then d else 0)
    ensures Shifted(x[at := e], y[at := f], s, d)
  {
    var x', y' := x[at := e], y[at := f];
    forall p: Spot ensures ShiftedAt(x', y', s, d, p) {
      assert ShiftedAt(x, y, s, d, p);
    }
  }

  lemma KeyDetermines(l: seq<ScoreEvent>, r: ScoreEvent, q: ScoreEvent)
    requires KeysUnique(l) && r in l && q in l && KeyOf(r) == KeyOf(q)
    ensures r == q
  {
    var i :| 0 <= i < |l| && l[i] == r;
    var j :| 0 <= j < |l| && l[j] == q;
  }

  lemma {:induction false} WithoutCommutes(l: seq<ScoreEvent>, k: Key, m: Key)
    ensures Without(Without(l, k), m) == Without(Without(l, m), k)
  {
    if l != [] {
      var n := |l| - 1;
      WithoutCommutes(l[..n], k, m);
      WithoutAppend(Without(l[..n], k), l[n], m);
      WithoutAppend(Without(l[..n], m), l[n], k);
      assert Without(l[..n], k) + [] == Without(l[..n], k);
      assert Without(l[..n], m) + [] == Without(l[..n], m);
    }
  }

  lemma ShadowSolveLedger(a: Db, b: Db, r: ScoreEvent, op: Op)
    requires Shadow(a, b, r) && op.Solve? && Accepted(a, op)
    ensures Accepted(b, op) && EarnedBonus(b, op) == EarnedBonus(a, op)
    ensures AfterSolve(b, op).ledger == Without(AfterSolve(a, op).ledger, KeyOf(r))
  {
    var k := KeyOf(r);
    var l := a.ledger + [SolveRow(op)];
    WithoutAppend(a.ledger, SolveRow(op), k);
    WithoutAppend(l, BonusRow(op), k);
    assert AfterSolve(a, op).ledger == if EarnedBonus(a, op) > 0 then l + [BonusRow(op)] else l;
  }

  lemma ShadowSolve(a: Db, b: Db, r: ScoreEvent, op: Op)
    requires Shadow(a, b, r) && op.Solve? && Accepted(a, op) && KeysUnique(AfterSolve(a, op).ledger)
    ensures Accepted(b, op) && Shadow(AfterSolve(a, op), AfterSolve(b, op), r)
  {
    var at := (op.event, op.team);
    ShadowSolveLedger(a, b, r, op);
    assert ShiftedAt(a.board, b.board, (r.event, r.team), r.points, at);
    ShiftedUpdate(a.board, b.board, (r.event, r.team), r.points, at,
                  AfterSolve(a, op).board[at], AfterSolve(b, op).board[at]);
  }

  lemma ShadowAward(a: Db, b: Db, r: ScoreEvent, op: Op)
    requires Shadow(a, b, r) && op.Award? && KeyOf(AwardRow(op)) != KeyOf(r) && !HasKey(a.ledger, KeyOf(AwardRow(op)))
    ensures Shadow(AfterAward(a, op), AfterAward(b, op), r)
  {
    var at := (op.event, op.team);
    KeysUniqueAppend(a.ledger, AwardRow(op));
    WithoutAppend(a.ledger, AwardRow(op), KeyOf(r));
    assert ShiftedAt(a.board, b.board, (r.event, r.team), r.points, at);
    ShiftedUpdate(a.board, b.board, (r.event, r.team), r.points, at,
                  AfterAward(a, op).board[at], AfterAward(b, op).board[at]);
  }

  lemma SameRow(l: seq<ScoreEvent>, k: Key, m: Key)
    requires KeysUnique(l) && HasKey(l, m) && m != k
    ensures HasKey(Without(l, k), m) && RowOf(Without(l, k), m) == RowOf(l, m)
  {
    WithoutHasKey(l, k, m);
    WithoutMembers(l, k);
    KeyDetermines(l, RowOf(l, m), RowOf(Without(l, k), m));
  }

  lemma ShadowRevoke(a: Db, b: Db, r: ScoreEvent, m: Key)
    requires Shadow(a, b, r) && HasKey(a.ledger, m) && m != KeyOf(r)
    ensures HasKey(b.ledger, m) && Shadow(AfterRevoke(a, m), AfterRevoke(b, m), r)
  {
    SameRow(a.ledger, KeyOf(r), m);
    WithoutMembers(a.ledger, m);
    WithoutCommutes(a.ledger, KeyOf(r), m);
    KeysUniqueWithout(a.ledger, m);
    var row := RowOf(a.ledger, m);
    var at := (row.event, row.team);
    assert ShiftedAt(a.board, b.board, (r.event, r.team), r.points, at);
    ShiftedUpdate(a.board, b.board, (r.event, r.team), r.points, at,
                  AfterRevoke(a, m).board[at], AfterRevoke(b, m).board[at]);
  }

  /** Transactions that read neither the ledger nor the board. */
  /** Calls that do not score leave the scores. */
  lemma ScoresStay(db: Db, op: Op)
    requires !op.Solve? && !op.Award? && !op.Revoke?
    ensures Apply(db, op).ledger == db.ledger && Apply(db, op).board == db.board
  {
  }

  lemma ShadowElsewhere(a: Db, b: Db, r: ScoreEvent, op: Op)
    requires Shadow(a, b, r) && !op.Solve? && !op.Award? && !op.Revoke?
    ensures Shadow(Apply(a, op), Apply(b, op), r) && AnswerOf(a, op) == AnswerOf(b, op)
  {
    ScoresStay(a, op);
    ScoresStay(b, op);
    assert SameElsewhere(Apply(a, op), Apply(b, op));
  }

  lemma ShadowStep(a: Db, b: Db, r: ScoreEvent, op: Op)
    requires Shadow(a, b, r) && !Uses(op, KeyOf(r)) && KeysUnique(Apply(a, op).ledger)
    ensures Shadow(Apply(a, op), Apply(b, op), r) && AnswerOf(a, op) == AnswerOf(b, op)
  {
    if op.Solve? {
      if Accepted(a, op) {
        ShadowSolve(a, b, r, op);
      }
    } else if op.Award? {
      WithoutHasKey(a.ledger, KeyOf(r), KeyOf(AwardRow(op)));
      if !HasKey(a.ledger, KeyOf(AwardRow(op))) {
        ShadowAward(a, b, r, op);
      }
    } else if op.Revoke? {
      var m := Key(op.event, PluginSource(op.plugin), op.ref);
      WithoutHasKey(a.ledger, KeyOf(r), m);
      if HasKey(a.ledger, m) {
        ShadowRevoke(a, b, r, m);
      }
    } else {
      ShadowElsewhere(a, b, r, op);
    }
  }

  lemma IndistinguishableStep(a: Db, b: Db, op: Op)
    requires Indistinguishable(a, b)
    ensures Indistinguishable(Apply(a, op), Apply(b, op)) && AnswerOf(a, op) == AnswerOf(b, op)
  {
    assert SameElsewhere(Apply(a, op), Apply(b, op));
    forall at: Spot ensures View(Apply(a, op).board, at) == View(Apply(b, op).board, at) {
      SameViewAfter(a, b, op, at);
    }
  }

  lemma SameViewAfter(a: Db, b: Db, op: Op, at: Spot)
    requires Indistinguishable(a, b)
    ensures View(Apply(a, op).board, at) == View(Apply(b, op).board, at)
  {
    assert View(a.board, at) == View(b.board, at);
  }

  // ---------------------------------------------------------------- whole runs

  lemma {:induction false} ShadowRun(a: Db, b: Db, r: ScoreEvent, ops: seq<Op>)
    requires Inv(a) && Shadow(a, b, r) && forall op :: op in ops ==> !Uses(op, KeyOf(r))
    ensures Shadow(Run(a, ops), Run(b, ops), r)
    ensures Answers(a, ops) == Answers(b, ops)
  {
    if ops != [] {
      var n := |ops| - 1;
      ShadowRun(a, b, r, ops[..n]);
      RunKeepsInv(a, ops[..n]);
      Preserved(Run(a, ops[..n]), ops[n]);
      ShadowStep(Run(a, ops[..n]), Run(b, ops[..n]), r, ops[n]);
    }
  }

  lemma {:induction false} IndistinguishableRun(a: Db, b: Db, ops: seq<Op>)
    requires Indistinguishable(a, b)
    ensures Indistinguishable(Run(a, ops), Run(b, ops))
    ensures Answers(a, ops) == Answers(b, ops)
  {
    if ops != [] {
      IndistinguishableRun(a, b, ops[..|ops| - 1]);
      IndistinguishableStep(Run(a, ops[..|ops| - 1]), Run(b, ops[..|ops| - 1]), ops[|ops| - 1]);
    }
  }

  lemma AwardShadows(db: Db, op: Op)
    requires Inv(db) && op.Award? && AnswerOf(db, op) == Applied(true)
    ensures Shadow(Apply(db, op), db, AwardRow(op))
  {
    var r := AwardRow(op);
    KeysUniqueAppend(db.ledger, r);
    WithoutAppend(db.ledger, r, KeyOf(r));
    WithoutMembers(db.ledger, KeyOf(r));
    SourcesDiffer(op.plugin);
    assert Apply(db, op).ledger == db.ledger + [r];
    assert r in db.ledger + [r];
  }

  lemma RevokeLifts(a: Db, b: Db, r: ScoreEvent, op: Op)
    requires Shadow(a, b, r) && op.Revoke? && Uses(op, KeyOf(r))
    ensures Indistinguishable(Apply(a, op), b) && AnswerOf(a, op) == Applied(true)
  {
    HasKeyIn(a.ledger, KeyOf(r));
    KeyDetermines(a.ledger, r, RowOf(a.ledger, KeyOf(r)));
    forall at: Spot ensures View(Apply(a, op).board, at) == View(b.board, at) {
      assert ShiftedAt(a.board, b.board, (r.event, r.team), r.points, at);
    }
  }

  /**
   * In any run, an applied award and its later reversal, with no other use of that reference between
   * them, can both be taken out: every table but the board ends up equal, so does every board entry as it
   * is read, and no other call is answered differently.
   */
  lemma AwardThenRevokeCancels(db: Db, before: seq<Op>, award: Op, middle: seq<Op>, revoke: Op, after: seq<Op>)
    requires Inv(db) && award.Award? && revoke.Revoke? && Uses(revoke, KeyOf(AwardRow(award)))
    requires AnswerOf(Run(db, before), award) == Applied(true)
    requires forall op :: op in middle ==> !Uses(op, KeyOf(AwardRow(award)))
    ensures Indistinguishable(Run(db, before + [award] + middle + [revoke] + after), Run(db, before + middle + after))
    ensures Answers(db, before + [award] + middle + [revoke] + after) ==
            Answers(db, before) + [Applied(true)] + Answers(Run(db, before), middle) + [Applied(true)] +
            Answers(Run(db, before + middle), after)
  {
    var r := AwardRow(award);
    var b0 := Run(db, before);
    RunKeepsInv(db, before);
    AwardShadows(b0, award);
    Preserved(b0, award);
    RunStep(db, before, award);
    RunConcat(db, before + [award], middle);
    RunConcat(db, before, middle);
    ShadowRun(Apply(b0, award), b0, r, middle);
    var a1, b1 := Run(db, before + [award] + middle), Run(db, before + middle);
    RevokeLifts(a1, b1, r, revoke);
    RunStep(db, before + [award] + middle, revoke);
    RunConcat(db, before + [award] + middle + [revoke], after);
    RunConcat(db, before + middle, after);
    IndistinguishableRun(Apply(a1, revoke), b1, after);
  }

  lemma RunStep(db: Db, ops: seq<Op>, op: Op)
    ensures Run(db, ops + [op]) == Apply(Run(db, ops), op)
    ensures Answers(db, ops + [op]) == Answers(db, ops) + [AnswerOf(Run(db, ops), op)]
  {
    assert (ops + [op])[..|ops|] == ops;
  }
}
