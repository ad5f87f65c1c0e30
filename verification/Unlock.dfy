/** Unlock rules: a recursive condition evaluated on one team's state. */
module Unlock {
  import opened Common

  datatype TeamState = TeamState(
    solvedEC: set<Uuid>,
    points: int,
    solvedTotal: int,
    blockSolved: map<Uuid, int>,
    blockTotal: map<Uuid, int>,
    now: Time)

  /** A JSON node. Several fields may be present; the first one in this order decides. */
  datatype Rule = Rule(
    all: seq<Rule>,
    any: seq<Rule>,
    negated: Option<Rule>,
    solved: Option<Uuid>,
    teamPointsGte: Option<int>,
    solvedCountGte: Option<int>,
    after: Option<Time>,
    blockCompleted: Option<Uuid>)

  const Empty := Rule([], [], None, None, None, None, None, None)

  /** Go's map read: zero when absent. */
  function Count(m: map<Uuid, int>, k: Uuid): int { if k in m then m[k] else 0 }

  predicate Eval(r: Rule, st: TeamState) {
    if |r.all| > 0 then forall c :: c in r.all ==> Eval(c, st)
    else if |r.any| > 0 then exists c :: c in r.any && Eval(c, st)
    else if r.negated.Some? then !Eval(r.negated.value, st)
    else if r.solved.Some? then r.solved.value in st.solvedEC
    else if r.teamPointsGte.Some? then st.points >= r.teamPointsGte.value
    else if r.solvedCountGte.Some? then st.solvedTotal >= r.solvedCountGte.value
    else if r.after.Some? then !(st.now < r.after.value)
    else if r.blockCompleted.Some? then
      var total := Count(st.blockTotal, r.blockCompleted.value);
      total > 0 && Count(st.blockSolved, r.blockCompleted.value) >= total
    else true
  }

  /** An absent rule unlocks. */
  predicate Unlocked(rule: Option<Rule>, st: TeamState) { rule.None? || Eval(rule.value, st) }

  // ---------------------------------------------------------------- polarity

  /** Every predicate that can decide the rule lies under an even (or, for `even == false`, odd) number of nots. */
  predicate Polarized(r: Rule, even: bool) {
    if |r.all| > 0 then forall c :: c in r.all ==> Polarized(c, even)
    else if |r.any| > 0 then forall c :: c in r.any ==> Polarized(c, even)
    else if r.negated.Some? then Polarized(r.negated.value, !even)
    else if r.solved.Some? || r.teamPointsGte.Some? || r.solvedCountGte.Some? || r.after.Some? || r.blockCompleted.Some?
    then even
    else true
  }

  /** The team has gained: more solves, at least as many points, a later clock, the same blocks to complete. */
  ghost predicate Grows(st: TeamState, later: TeamState) {
    && st.solvedEC <= later.solvedEC
    && st.points <= later.points
    && st.solvedTotal <= later.solvedTotal
    && st.now <= later.now
    && st.blockTotal == later.blockTotal
    && forall b :: Count(st.blockSolved, b) <= Count(later.blockSolved, b)
  }

  /** Progress keeps a positive rule true, and a negative rule false. */
  lemma {:induction false} ProgressKeeps(r: Rule, even: bool, st: TeamState, later: TeamState)
    requires Polarized(r, even) && Grows(st, later)
    ensures even ==> (Eval(r, st) ==> Eval(r, later))
    ensures !even ==> (Eval(r, later) ==> Eval(r, st))
  {
    if |r.all| > 0 {
      forall c | c in r.all ensures even ==> (Eval(c, st) ==> Eval(c, later))
                            ensures !even ==> (Eval(c, later) ==> Eval(c, st)) {
        ProgressKeeps(c, even, st, later);
      }
    } else if |r.any| > 0 {
      forall c | c in r.any ensures even ==> (Eval(c, st) ==> Eval(c, later))
                            ensures !even ==> (Eval(c, later) ==> Eval(c, st)) {
        ProgressKeeps(c, even, st, later);
      }
    } else if r.negated.Some? {
      ProgressKeeps(r.negated.value, !even, st, later);
    }
  }
}
