/** Sums over a ledger whose rows may still be uncommitted. */
module InterleavingSums {
  import opened Ledger
  import opened Interleaving

  datatype Measure = PointsOf | SolvesOf

  function Value(r: ScoreEvent, m: Measure): int {
    match m
    case PointsOf => r.points
    case SolvesOf => if r.kind.SolveKind? then 1 else 0
  }

  /** What every other transaction counts, and what the open transaction t would change. */
  datatype Share = Visible | Pending(tx: TxId)

  function Weight(st: Status, w: Share): int {
    match w
    case Visible => if st.Inserting? then 0 else 1
    case Pending(t) => if st == Inserting(t) then 1 else if st == Deleting(t) then -1 else 0
  }

  function Part(r: Row, at: Spot, w: Share, m: Measure): int {
    if (r.row.event, r.row.team) != at then 0
    else if Weight(r.status, w) == 1 then Value(r.row, m)
    else if Weight(r.status, w) == -1 then -Value(r.row, m)
    else 0
  }

  function Total(l: seq<Row>, at: Spot, w: Share, m: Measure): int {
    if l == [] then 0 else Total(l[..|l| - 1], at, w, m) + Part(l[|l| - 1], at, w, m)
  }

  lemma TotalAppend(l: seq<Row>, r: Row, at: Spot, w: Share, m: Measure)
    ensures Total(l + [r], at, w, m) == Total(l, at, w, m) + Part(r, at, w, m)
  {
    assert (l + [r])[..|l|] == l;
  }

  lemma {:induction false} TotalConcat(l: seq<Row>, k: seq<Row>, at: Spot, w: Share, m: Measure)
    ensures Total(l + k, at, w, m) == Total(l, at, w, m) + Total(k, at, w, m)
  {
    if k == [] {
      assert l + k == l;
    } else {
      var n := |k| - 1;
      TotalConcat(l, k[..n], at, w, m);
      assert l + k == (l + k[..n]) + [k[n]];
      TotalAppend(l + k[..n], k[n], at, w, m);
    }
  }

  lemma KeptTotals(r: Row, t: TxId, commit: bool, at: Spot, m: Measure, u: TxId)
    ensures Total(Kept(r, t, commit), at, Visible, m) ==
            Part(r, at, Visible, m) + if commit then Part(r, at, Pending(t), m) else 0
    ensures Total(Kept(r, t, commit), at, Pending(u), m) == if u == t then 0 else Part(r, at, Pending(u), m)
  {
    var q := r.(status := Committed);
    assert [r][..0] == [] && [q][..0] == [];
  }

  /** Committing moves a transaction's share into what everybody sees; rolling back drops it. */
  lemma {:induction false} ResolveTotals(l: seq<Row>, t: TxId, commit: bool, at: Spot, m: Measure, u: TxId)
    ensures Total(Resolve(l, t, commit), at, Visible, m) ==
            Total(l, at, Visible, m) + if commit then Total(l, at, Pending(t), m) else 0
    ensures Total(Resolve(l, t, commit), at, Pending(u), m) == if u == t then 0 else Total(l, at, Pending(u), m)
  {
    if l != [] {
      var n := |l| - 1;
      ResolveTotals(l[..n], t, commit, at, m, u);
      KeptTotals(l[n], t, commit, at, m, u);
      TotalConcat(Resolve(l[..n], t, commit), Kept(l[n], t, commit), at, Visible, m);
      TotalConcat(Resolve(l[..n], t, commit), Kept(l[n], t, commit), at, Pending(u), m);
    }
  }

  // ---------------------------------------------------------------- keys

  ghost predicate KeysUnique(l: seq<Row>) {
    forall i, j :: 0 <= i < j < |l| ==> KeyOf(l[i].row) != KeyOf(l[j].row)
  }

  lemma {:induction false} ResolveMembers(l: seq<Row>, t: TxId, commit: bool)
    ensures forall r :: r in Resolve(l, t, commit) <==>
              || (r in l && r.status != Inserting(t) && r.status != Deleting(t))
              || (r.status == Committed &&
                  (if commit then Row(r.row, Inserting(t)) in l else Row(r.row, Deleting(t)) in l))
  {
    if l != [] {
      var n := |l| - 1;
      ResolveMembers(l[..n], t, commit);
      assert l == l[..n] + [l[n]];
    }
  }

  lemma {:induction false} ResolveKeysUnique(l: seq<Row>, t: TxId, commit: bool)
    requires KeysUnique(l)
    ensures KeysUnique(Resolve(l, t, commit))
  {
    if l != [] {
      var n := |l| - 1;
      ResolveKeysUnique(l[..n], t, commit);
      ResolveMembers(l[..n], t, commit);
      var a := Resolve(l[..n], t, commit);
      forall i | 0 <= i < |a| ensures KeyOf(a[i].row) != KeyOf(l[n].row) {
        assert a[i] in a;
        assert exists q :: q in l[..n] && q.row == a[i].row;
      }
    }
  }

  // ---------------------------------------------------------------- marking a row deleted

  lemma {:induction false} MarkShape(l: seq<Row>, k: Key, t: TxId)
    ensures |MarkDeleting(l, k, t)| == |l|
    ensures forall i :: 0 <= i < |l| ==> MarkDeleting(l, k, t)[i] == Marked(l[i], k, t)
  {
    if l != [] {
      MarkShape(l[..|l| - 1], k, t);
    }
  }

  lemma MarkKeysUnique(l: seq<Row>, k: Key, t: TxId)
    requires KeysUnique(l)
    ensures KeysUnique(MarkDeleting(l, k, t))
  {
    MarkShape(l, k, t);
    var d := MarkDeleting(l, k, t);
    forall i, j | 0 <= i < j < |d| ensures KeyOf(d[i].row) != KeyOf(d[j].row) {
      assert KeyOf(l[i].row) != KeyOf(l[j].row);
    }
  }

  lemma MarkNothing(l: seq<Row>, k: Key, t: TxId)
    requires !KeyAt(l, k)
    ensures MarkDeleting(l, k, t) == l
  {
    MarkShape(l, k, t);
  }

  lemma MarkLast(l: seq<Row>, k: Key, t: TxId)
    requires KeysUnique(l) && l != []
    ensures KeyOf(l[|l| - 1].row) == k ==> MarkDeleting(l[..|l| - 1], k, t) == l[..|l| - 1]
  {
    if KeyOf(l[|l| - 1].row) == k {
      assert !KeyAt(l[..|l| - 1], k);
      MarkNothing(l[..|l| - 1], k, t);
    }
  }

  lemma FindEarlier(l: seq<Row>, k: Key)
    requires KeyWith(l, k, Committed) && !(KeyOf(l[|l| - 1].row) == k && l[|l| - 1].status == Committed)
    ensures KeyWith(l[..|l| - 1], k, Committed) && Find(l, k) == Find(l[..|l| - 1], k)
  {
    var i :| 0 <= i < |l| && KeyOf(l[i].row) == k && l[i].status == Committed;
    assert l[..|l| - 1][i] == l[i];
  }

  lemma KeysUniquePrefix(l: seq<Row>)
    requires KeysUnique(l) && l != []
    ensures KeysUnique(l[..|l| - 1])
  {
  }

  /** What marking does to one share: the marked row leaves t's share. */
  function Taken(r: ScoreEvent, t: TxId, at: Spot, w: Share, m: Measure): int {
    if w == Pending(t) && (r.event, r.team) == at then Value(r, m) else 0
  }

  /** Marking the one row with key k takes its value out of t's share and leaves the rest alone. */
  lemma {:induction false} MarkTotals(l: seq<Row>, k: Key, t: TxId, at: Spot, w: Share, m: Measure)
    requires KeysUnique(l) && KeyWith(l, k, Committed)
    ensures Total(MarkDeleting(l, k, t), at, w, m) == Total(l, at, w, m) - Taken(Find(l, k).row, t, at, w, m)
  {
    var last, init := l[|l| - 1], l[..|l| - 1];
    TotalAppend(MarkDeleting(init, k, t), Marked(last, k, t), at, w, m);
    if KeyOf(last.row) == k && last.status == Committed {
      MarkLast(l, k, t);
    } else {
      FindEarlier(l, k);
      KeysUniquePrefix(l);
      MarkTotals(init, k, t, at, w, m);
    }
  }
}
