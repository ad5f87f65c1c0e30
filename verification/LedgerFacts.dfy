/** How the table queries respond to single-row changes. */
module LedgerFacts {
  import opened Common
  import opened Ledger

  // ---------------------------------------------------------------- references

  /** A solve reference determines the spelling and the team, and is never a first-blood reference. */
  lemma {:induction false} SolveRefInjective(t1: string, m1: Uuid, t2: string, m2: Uuid)
    requires SolveRef(t1, m1) == SolveRef(t2, m2)
    ensures t1 == t2 && m1 == m2
  {
    var a, b := SolveRef(t1, m1), SolveRef(t2, m2);
    assert |a| == 7 + |t1| + 36 && |b| == 7 + |t2| + 36;
    assert a[6..6 + |t1|] == t1 && b[6..6 + |t2|] == t2;
    assert a[|a| - 36..] == m1 && b[|b| - 36..] == m2;
  }

  lemma FirstBloodRefInjective(t1: string, t2: string)
    requires FirstBloodRef(t1) == FirstBloodRef(t2)
    ensures t1 == t2
  {
    assert FirstBloodRef(t1)[11..] == t1 && FirstBloodRef(t2)[11..] == t2;
  }

  lemma RefsDiffer(t1: string, m: Uuid, t2: string)
    ensures SolveRef(t1, m) != FirstBloodRef(t2)
  {
    assert SolveRef(t1, m)[0] == 's' && FirstBloodRef(t2)[0] == 'f';
  }

  lemma SourcesDiffer(plugin: string)
    ensures PluginSource(plugin) != Core
  {
    assert PluginSource(plugin)[0] == 'p' && Core[0] == 'c';
  }

  // ---------------------------------------------------------------- appending rows

  lemma PointsAppend(l: seq<ScoreEvent>, r: ScoreEvent, at: Spot)
    ensures Points(l + [r], at) == Points(l, at) + if (r.event, r.team) == at then r.points else 0
    ensures SolveRows(l + [r], at) ==
            SolveRows(l, at) + if (r.event, r.team) == at && r.kind.SolveKind? then 1 else 0
  {
    assert (l + [r])[..|l|] == l;
  }

  lemma SolveCountAppend(s: seq<Submission>, x: Submission, ec: Uuid)
    ensures SolveCount(s + [x], ec) == SolveCount(s, ec) + if x.correct && x.ec == ec then 1 else 0
  {
    assert (s + [x])[..|s|] == s;
  }

  lemma HasSolveAppend(s: seq<Submission>, x: Submission, ec: Uuid, team: Uuid)
    ensures HasSolve(s + [x], ec, team) <==>
            HasSolve(s, ec, team) || (x.correct && x.ec == ec && x.team == team)
  {
    if HasSolve(s, ec, team) {
      var i :| 0 <= i < |s| && s[i].correct && s[i].ec == ec && s[i].team == team;
      assert (s + [x])[i] == s[i];
    }
    if x.correct && x.ec == ec && x.team == team {
      assert (s + [x])[|s|] == x;
    }
  }

  lemma HasKeyAppend(l: seq<ScoreEvent>, r: ScoreEvent, k: Key)
    ensures HasKey(l + [r], k) <==> HasKey(l, k) || KeyOf(r) == k
  {
    if HasKey(l, k) {
      var i :| 0 <= i < |l| && KeyOf(l[i]) == k;
      assert (l + [r])[i] == l[i];
    }
    if KeyOf(r) == k {
      assert (l + [r])[|l|] == r;
    }
  }

  /** A solve of some team is counted, and a positive count comes from some team's solve. */
  lemma {:induction false} CountedSolve(s: seq<Submission>, ec: Uuid)
    ensures SolveCount(s, ec) > 0 <==> exists team :: HasSolve(s, ec, team)
  {
    if s != [] {
      var n := |s| - 1;
      CountedSolve(s[..n], ec);
      assert s == s[..n] + [s[n]];
      forall team {
        HasSolveAppend(s[..n], s[n], ec, team);
      }
      if s[n].correct && s[n].ec == ec {
        assert HasSolve(s, ec, s[n].team);
      }
      if SolveCount(s[..n], ec) > 0 {
        var team :| HasSolve(s[..n], ec, team);
        assert HasSolve(s, ec, team);
      }
    }
  }

  // ---------------------------------------------------------------- deleting rows

  /** Deleting an absent key changes nothing; afterwards the key is absent. */
  lemma {:induction false} WithoutMembers(l: seq<ScoreEvent>, k: Key)
    ensures forall r :: r in Without(l, k) <==> r in l && KeyOf(r) != k
    ensures !HasKey(l, k) ==> Without(l, k) == l
  {
    if l != [] {
      var n := |l| - 1;
      WithoutMembers(l[..n], k);
      assert l == l[..n] + [l[n]];
      HasKeyAppend(l[..n], l[n], k);
    }
  }

  lemma HasKeyIn(l: seq<ScoreEvent>, k: Key)
    ensures HasKey(l, k) <==> exists r :: r in l && KeyOf(r) == k
  {
    if r :| r in l && KeyOf(r) == k {
      var i :| 0 <= i < |l| && l[i] == r;
      assert KeyOf(l[i]) == k;
    }
  }

  lemma WithoutHasKey(l: seq<ScoreEvent>, k: Key, other: Key)
    ensures HasKey(Without(l, k), other) <==> HasKey(l, other) && other != k
  {
    WithoutMembers(l, k);
    HasKeyIn(l, other);
    HasKeyIn(Without(l, k), other);
  }

  lemma WithoutAppend(l: seq<ScoreEvent>, r: ScoreEvent, k: Key)
    ensures Without(l + [r], k) == Without(l, k) + if KeyOf(r) == k then [] else [r]
  {
    assert (l + [r])[..|l|] == l;
  }

  /** No two rows share a key. */
  ghost predicate KeysUnique(l: seq<ScoreEvent>) {
    forall i, j :: 0 <= i < j < |l| ==> KeyOf(l[i]) != KeyOf(l[j])
  }

  lemma KeysUniqueAppend(l: seq<ScoreEvent>, r: ScoreEvent)
    requires KeysUnique(l) && !HasKey(l, KeyOf(r))
    ensures KeysUnique(l + [r])
  {
  }

  lemma {:induction false} KeysUniqueWithout(l: seq<ScoreEvent>, k: Key)
    requires KeysUnique(l)
    ensures KeysUnique(Without(l, k))
  {
    if l != [] {
      var n := |l| - 1;
      KeysUniqueWithout(l[..n], k);
      if KeyOf(l[n]) != k {
        WithoutHasKey(l[..n], k, KeyOf(l[n]));
        assert !HasKey(Without(l[..n], k), KeyOf(l[n]));
      }
    }
  }

  /** With unique keys, deleting a key removes exactly its one row. */
  lemma {:induction false} WithoutSums(l: seq<ScoreEvent>, k: Key, at: Spot)
    requires KeysUnique(l) && HasKey(l, k)
    ensures var r := RowOf(l, k);
            Points(Without(l, k), at) == Points(l, at) - (if (r.event, r.team) == at then r.points else 0) &&
            SolveRows(Without(l, k), at) ==
            SolveRows(l, at) - if (r.event, r.team) == at && r.kind.SolveKind? then 1 else 0
  {
    var n := |l| - 1;
    if KeyOf(l[n]) == k {
      assert !HasKey(l[..n], k);
      WithoutMembers(l[..n], k);
      assert Without(l, k) == l[..n];
    } else {
      var i :| 0 <= i < |l| && KeyOf(l[i]) == k;
      assert KeyOf(l[..n][i]) == k;
      WithoutSums(l[..n], k, at);
      PointsAppend(Without(l[..n], k), l[n], at);
    }
  }

  /** A team without ledger rows has no points in it. */
  lemma {:induction false} NoRowsNoPoints(l: seq<ScoreEvent>, at: Spot)
    requires forall r :: r in l ==> (r.event, r.team) != at
    ensures Points(l, at) == 0 && SolveRows(l, at) == 0
  {
    if l != [] {
      assert l[|l| - 1] in l;
      NoRowsNoPoints(l[..|l| - 1], at);
    }
  }

  // ---------------------------------------------------------------- the cascade

  lemma {:induction false} SurvivingMembers(s: seq<Submission>, gone: set<Uuid>)
    ensures forall x :: x in Surviving(s, gone) <==> x in s && x.ec !in gone
  {
    if s != [] {
      SurvivingMembers(s[..|s| - 1], gone);
    }
  }

  lemma HasSolveIn(s: seq<Submission>, ec: Uuid, team: Uuid)
    ensures HasSolve(s, ec, team) <==> exists x :: x in s && x.correct && x.ec == ec && x.team == team
  {
    if x :| x in s && x.correct && x.ec == ec && x.team == team {
      var i :| 0 <= i < |s| && s[i] == x;
      assert s[i].correct;
    }
  }

  /** Solves of the challenges that stay are untouched; those of deleted ones are gone. */
  lemma SurvivingSolve(s: seq<Submission>, gone: set<Uuid>, ec: Uuid, team: Uuid)
    ensures HasSolve(Surviving(s, gone), ec, team) <==> HasSolve(s, ec, team) && ec !in gone
  {
    SurvivingMembers(s, gone);
    HasSolveIn(s, ec, team);
    HasSolveIn(Surviving(s, gone), ec, team);
  }

  lemma {:induction false} SurvivingCount(s: seq<Submission>, gone: set<Uuid>, ec: Uuid)
    ensures SolveCount(Surviving(s, gone), ec) == if ec in gone then 0 else SolveCount(s, ec)
  {
    if s != [] {
      var n := |s| - 1;
      SurvivingCount(s[..n], gone, ec);
      SolveCountAppend(Surviving(s[..n], gone), s[n], ec);
      assert s[n].ec in gone ==> Surviving(s, gone) == Surviving(s[..n], gone);
    }
  }
}
