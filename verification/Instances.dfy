/** Challenge instances: the store's statements, and creators that check a global cap before inserting. */
module Instances {
  import opened Common

  type Id = string

  datatype Instance = Instance(ec: Id, team: Id, running: bool, extensions: nat, expiresAt: Time)

  type Table = map<Id, Instance>

  // ---------------------------------------------------------------- statements

  predicate ActiveFor(i: Instance, ec: Id, team: Id) { i.running && i.ec == ec && i.team == team }

  predicate HasActive(rows: Table, ec: Id, team: Id) { exists id :: id in rows && ActiveFor(rows[id], ec, team) }

  function Running(rows: Table): set<Id> { set id | id in rows && rows[id].running }

  /** INSERT, under the primary key and the unique index on running (ec_id, team_id). */
  function Inserted(rows: Table, id: Id, ec: Id, team: Id, expiresAt: Time): Table {
    if id in rows || HasActive(rows, ec, team) then rows else rows[id := Instance(ec, team, true, 0, expiresAt)]
  }

  function Extended(rows: Table, ec: Id, team: Id, extra: Time, maxExtends: nat): Table {
    map id | id in rows ::
      if ActiveFor(rows[id], ec, team) && rows[id].extensions < maxExtends
      then rows[id].(expiresAt := rows[id].expiresAt + extra, extensions := rows[id].extensions + 1)
      else rows[id]
  }

  function Destroyed(rows: Table, ec: Id, team: Id): Table {
    map id | id in rows :: if ActiveFor(rows[id], ec, team) then rows[id].(running := false) else rows[id]
  }

  /** The unique index: one running instance per team per challenge. */
  ghost predicate OnePerTeam(rows: Table) {
    forall a, b :: a in rows && b in rows && rows[a].running && ActiveFor(rows[b], rows[a].ec, rows[a].team) ==> a == b
  }

  // ---------------------------------------------------------------- the store

  class Store {
    var rows: Table

    constructor ()
      ensures rows == map[]
    {
      rows := map[];
    }

    method GetActiveInstance(ec: Id, team: Id) returns (res: Result<Id>)
      ensures res.Ok? ==> res.value in rows && ActiveFor(rows[res.value], ec, team)
      ensures res.Err? ==> res.error == NotFound && !HasActive(rows, ec, team)
    {
      if HasActive(rows, ec, team) {
        var id :| id in rows && ActiveFor(rows[id], ec, team);
        return Ok(id);
      }
      res := Err(NotFound);
    }

    method CountRunningInstances() returns (n: nat)
      ensures n == |Running(rows)|
    {
      n := |Running(rows)|;
    }

    method CreateInstance(id: Id, ec: Id, team: Id, expiresAt: Time) returns (res: Result<Id>)
      requires OnePerTeam(rows)
      modifies this
      ensures OnePerTeam(rows)
      ensures rows == Inserted(old(rows), id, ec, team, expiresAt)
      ensures res == if id in old(rows) || HasActive(old(rows), ec, team) then Err(Conflict) else Ok(id)
    {
      if id in rows || HasActive(rows, ec, team) {
        return Err(Conflict);
      }
      rows := rows[id := Instance(ec, team, true, 0, expiresAt)];
      res := Ok(id);
    }

    /** At most one row matches; it moves by `extra` only while it has been extended fewer than `maxExtends` times. */
    method ExtendInstance(ec: Id, team: Id, extra: Time, maxExtends: nat) returns (res: Result<Id>)
      requires OnePerTeam(rows)
      modifies this
      ensures OnePerTeam(rows)
      ensures rows == Extended(old(rows), ec, team, extra, maxExtends)
      ensures res.Err? ==> res.error == NotFound && rows == old(rows)
      ensures res.Ok? ==> res.value in rows && rows[res.value].expiresAt == old(rows)[res.value].expiresAt + extra
                          && rows == old(rows)[res.value := rows[res.value]]
    {
      var found := GetActiveInstance(ec, team);
      if found.Err? || rows[found.value].extensions >= maxExtends {
        assert Extended(rows, ec, team, extra, maxExtends) == rows;
        return Err(NotFound);
      }
      var i := rows[found.value];
      rows := rows[found.value := i.(expiresAt := i.expiresAt + extra, extensions := i.extensions + 1)];
      assert rows == Extended(old(rows), ec, team, extra, maxExtends);
      res := Ok(found.value);
    }

    method DestroyInstance(ec: Id, team: Id) returns (destroyed: bool)
      requires OnePerTeam(rows)
      modifies this
      ensures OnePerTeam(rows) && !HasActive(rows, ec, team)
      ensures rows == Destroyed(old(rows), ec, team)
      ensures destroyed <==> HasActive(old(rows), ec, team)
    {
      destroyed := HasActive(rows, ec, team);
      rows := map id | id in rows :: if ActiveFor(rows[id], ec, team) then rows[id].(running := false) else rows[id];
    }

    /** handleCreateInstance with no other call in between. `newId` is the id the database would generate. */
    method Create(max: int, ttl: Time, now: Time, ec: Id, team: Id, newId: Id) returns (res: Result<Id>)
      requires OnePerTeam(rows) && newId !in rows
      modifies this
      ensures OnePerTeam(rows)
      ensures HasActive(old(rows), ec, team) ==>
              rows == old(rows) && res.Ok? && res.value in rows && ActiveFor(rows[res.value], ec, team)
      ensures !HasActive(old(rows), ec, team) ==>
                if |Running(old(rows))| >= max then rows == old(rows) && res.Err?
                else rows == old(rows)[newId := Instance(ec, team, true, 0, now + ttl)] && res == Ok(newId)
    {
      var active := GetActiveInstance(ec, team);
      if active.Ok? {
        return active;
      }
      var n := CountRunningInstances();
      if n >= max {
        return Err(Conflict);
      }
      res := CreateInstance(newId, ec, team, now + ttl);
    }
  }

  // ---------------------------------------------------------------- concurrent creators

  /** How far a call of handleCreateInstance has come: past its lookup, or past its count. */
  datatype Phase = Looked(ec: Id, team: Id) | Passed(ec: Id, team: Id)

  /** The table, the expiry each row was created with, and the calls under way. */
  datatype State = State(rows: Table, granted: map<Id, Time>, calls: map<nat, Phase>)

  const Start := State(map[], map[], map[])

  /** Each action is one database statement; a failed count reads as 0. */
  datatype Action =
    | Look(call: nat, ec: Id, team: Id)
    | Count(call: nat, failed: bool)
    | Insert(call: nat, id: Id, now: Time)
    | Extend(ec: Id, team: Id)
    | Destroy(ec: Id, team: Id)
    | Cascade(gone: set<Id>)

  datatype Config = Config(max: int, ttl: Time)

  const MaxExtends := 2

  function Step(cfg: Config, s: State, a: Action): State {
    match a
    case Look(call, ec, team) =>
      if call in s.calls || HasActive(s.rows, ec, team) then s else s.(calls := s.calls[call := Looked(ec, team)])
    case Count(call, failed) =>
      if call !in s.calls || s.calls[call].Passed? then s
      else if (if failed then 0 else |Running(s.rows)|) >= cfg.max then s.(calls := s.calls - {call})
      else s.(calls := s.calls[call := Passed(s.calls[call].ec, s.calls[call].team)])
    case Insert(call, id, now) =>
      if call !in s.calls || s.calls[call].Looked? then s
      else
        var c := s.calls[call];
        if id in s.rows || HasActive(s.rows, c.ec, c.team) then s.(calls := s.calls - {call})
        else State(Inserted(s.rows, id, c.ec, c.team, now + cfg.ttl), s.granted[id := now + cfg.ttl], s.calls - {call})
    case Extend(ec, team) => s.(rows := Extended(s.rows, ec, team, cfg.ttl, MaxExtends))
    case Destroy(ec, team) => s.(rows := Destroyed(s.rows, ec, team))
    case Cascade(gone) => s.(rows := s.rows - gone)
  }

  function Play(cfg: Config, run: seq<Action>): State {
    if run == [] then Start else Step(cfg, Play(cfg, run[..|run| - 1]), run[|run| - 1])
  }

  /** The calls between a successful count and their insert. */
  function Racing(s: State): set<nat> { set c | c in s.calls && s.calls[c].Passed? }

  /** At no point of the run are more than p calls past their count. */
  ghost predicate AtMost(cfg: Config, run: seq<Action>, p: nat) {
    |Racing(Play(cfg, run))| <= p && (run == [] || AtMost(cfg, run[..|run| - 1], p))
  }

  /** A call's count fails, and so passes, while the cap is full. */
  ghost predicate Slip(cfg: Config, s: State, a: Action) {
    a.Count? && a.failed && a.call in s.calls && s.calls[a.call].Looked? && |Running(s.rows)| >= cfg.max
  }

  ghost function Slips(cfg: Config, run: seq<Action>): nat {
    if run == [] then 0
    else
      var before := run[..|run| - 1];
      Slips(cfg, before) + if Slip(cfg, Play(cfg, before), run[|run| - 1]) then 1 else 0
  }

  // ---------------------------------------------------------------- every run

  ghost predicate ExpiryKept(cfg: Config, s: State) {
    forall id :: id in s.rows ==> ExpiryOf(cfg, s, id)
  }

  ghost predicate ExpiryOf(cfg: Config, s: State, id: Id)
    requires id in s.rows
  {
    id in s.granted && s.rows[id].extensions <= MaxExtends &&
    s.rows[id].expiresAt == s.granted[id] + s.rows[id].extensions * cfg.ttl
  }

  lemma StepKeepsUnique(cfg: Config, s: State, a: Action)
    requires OnePerTeam(s.rows)
    ensures OnePerTeam(Step(cfg, s, a).rows)
  {
  }

  lemma OneMore(k: nat, ttl: Time)
    ensures (k + 1) * ttl == k * ttl + ttl
  {
  }

  lemma StepKeepsExpiry(cfg: Config, s: State, a: Action)
    requires ExpiryKept(cfg, s)
    ensures ExpiryKept(cfg, Step(cfg, s, a))
  {
    var t := Step(cfg, s, a);
    forall id | id in t.rows ensures ExpiryOf(cfg, t, id) {
      if id in s.rows {
        assert ExpiryOf(cfg, s, id);
        OneMore(s.rows[id].extensions, cfg.ttl);
      }
    }
  }

  /** In every run: one running instance per team and challenge, each expiring when granted plus its extensions. */
  lemma {:induction false} AlwaysUnique(cfg: Config, run: seq<Action>)
    ensures OnePerTeam(Play(cfg, run).rows) && ExpiryKept(cfg, Play(cfg, run))
  {
    if run != [] {
      AlwaysUnique(cfg, run[..|run| - 1]);
      StepKeepsUnique(cfg, Play(cfg, run[..|run| - 1]), run[|run| - 1]);
      StepKeepsExpiry(cfg, Play(cfg, run[..|run| - 1]), run[|run| - 1]);
    }
  }

  // ---------------------------------------------------------------- the cap

  /** The two numbers a statement can move. */
  ghost function Load(s: State): nat { |Running(s.rows)| + |Racing(s)| }

  lemma CountLoad(cfg: Config, s: State, a: Action)
    requires a.Count?
    ensures var t := Step(cfg, s, a);
            && t.rows == s.rows
            && (Load(t) <= Load(s) + (if Slip(cfg, s, a) then 1 else 0) || |Running(t.rows)| < cfg.max)
  {
    var t := Step(cfg, s, a);
    if Slip(cfg, s, a) {
      SubsetSize(Racing(t), Racing(s) + {a.call});
    } else if a.call !in s.calls || s.calls[a.call].Passed? || |Running(s.rows)| >= cfg.max {
      SubsetSize(Racing(t), Racing(s));
    }
  }

  lemma InsertLoad(cfg: Config, s: State, call: nat, id: Id, now: Time)
    ensures Load(Step(cfg, s, Insert(call, id, now))) <= Load(s)
  {
    var t := Step(cfg, s, Insert(call, id, now));
    if call in s.calls && s.calls[call].Passed? {
      assert call in Racing(s) && Racing(t) == Racing(s) - {call};
      SubsetSize(Running(t.rows), Running(s.rows) + {id});
    }
  }

  lemma OtherLoad(cfg: Config, s: State, a: Action)
    requires !a.Count? && !a.Insert?
    ensures Load(Step(cfg, s, a)) <= Load(s)
  {
    var t := Step(cfg, s, a);
    SubsetSize(Racing(t), Racing(s));
    SubsetSize(Running(t.rows), Running(s.rows));
  }

  /** No statement adds to running plus racing, except a count that found room and, by one, a slip. */
  lemma StepLoad(cfg: Config, s: State, a: Action)
    ensures var t := Step(cfg, s, a);
            Load(t) <= Load(s) + (if Slip(cfg, s, a) then 1 else 0) || |Running(t.rows)| < cfg.max
  {
    match a
    case Count(_, _) => CountLoad(cfg, s, a);
    case Insert(call, id, now) => InsertLoad(cfg, s, call, id, now);
    case _ => OtherLoad(cfg, s, a);
  }

  lemma {:induction false} CapHolds(cfg: Config, run: seq<Action>, p: nat)
    requires cfg.max >= 1 && AtMost(cfg, run, p)
    ensures Load(Play(cfg, run)) <= cfg.max - 1 + p + Slips(cfg, run)
  {
    if run != [] {
      var n := |run| - 1;
      CapHolds(cfg, run[..n], p);
      StepLoad(cfg, Play(cfg, run[..n]), run[n]);
    }
  }

  /**
   * With at most p calls past their count at once, at most max - 1 + p instances run, and one more for each count that
   * failed while the cap was full; counts that fail while there is room do no harm.
   */
  lemma CapUnderRaces(cfg: Config, run: seq<Action>, p: nat)
    requires cfg.max >= 1 && AtMost(cfg, run, p)
    ensures |Running(Play(cfg, run).rows)| <= cfg.max - 1 + p + Slips(cfg, run)
  {
    CapHolds(cfg, run, p);
  }

  // ---------------------------------------------------------------- the cap is exact

  /** A team's name in the run below. */
  function Name(i: nat): Id { seq(i, _ => 'x') }

  /** n instances run, for teams 0 … n-1, and calls n … n+k-1 are past their count. */
  ghost predicate Filled(s: State, n: nat, k: nat) {
    && (forall id :: id in s.rows <==> exists i: nat :: i < n && id == Name(i))
    && (forall i: nat :: i < n ==> Name(i) in s.rows && s.rows[Name(i)].running && s.rows[Name(i)].team == Name(i))
    && (forall c :: c in s.calls <==> n <= c < n + k)
    && (forall c :: c in s.calls ==> s.calls[c] == Passed("", Name(c)))
  }

  ghost function Names(n: nat): (names: set<Id>)
    ensures |names| == n && forall id :: id in names <==> exists i: nat :: i < n && id == Name(i)
  {
    if n == 0 then {}
    else
      assert forall i: nat :: i < n - 1 ==> |Name(i)| != |Name(n - 1)|;
      Names(n - 1) + {Name(n - 1)}
  }

  ghost function Range(n: nat, k: nat): (range: set<nat>)
    ensures |range| == k && forall c :: c in range <==> n <= c < n + k
  {
    if k == 0 then {} else Range(n, k - 1) + {n + k - 1}
  }

  lemma FilledSizes(s: State, n: nat, k: nat)
    requires Filled(s, n, k)
    ensures |Running(s.rows)| == n && |Racing(s)| == k
  {
    assert Running(s.rows) == Names(n);
    assert Racing(s) == Range(n, k);
  }

  lemma NotYet(s: State, n: nat, k: nat, j: nat)
    requires Filled(s, n, k) && j >= n
    ensures Name(j) !in s.rows && !HasActive(s.rows, "", Name(j))
  {
    forall id | id in s.rows ensures s.rows[id].team != Name(j) && id != Name(j) {
      var i: nat :| i < n && id == Name(i);
      assert |Name(i)| != |Name(j)|;
    }
  }

  lemma PassedFills(s: State, n: nat, k: nat)
    requires Filled(s, n, k)
    ensures Filled(s.(calls := s.calls[n + k := Passed("", Name(n + k))]), n, k + 1)
  {
  }

  /** Call n + k looks, counts and passes. */
  lemma Enter(cfg: Config, s: State, n: nat, k: nat, failed: bool)
    requires Filled(s, n, k) && (if failed then 0 else n) < cfg.max
    ensures var t := Step(cfg, s, Look(n + k, "", Name(n + k)));
            Racing(t) == Racing(s) && Filled(Step(cfg, t, Count(n + k, failed)), n, k + 1)
  {
    FilledSizes(s, n, k);
    NotYet(s, n, k, n + k);
    PassedFills(s, n, k);
    var t := Step(cfg, s, Look(n + k, "", Name(n + k)));
    assert t == s.(calls := s.calls[n + k := Looked("", Name(n + k))]);
    assert Racing(t) == Racing(s);
    var u := Step(cfg, t, Count(n + k, failed));
    assert u.calls == s.calls[n + k := Passed("", Name(n + k))];
  }

  /** Call n inserts its row. */
  lemma Land(cfg: Config, s: State, n: nat, k: nat)
    requires Filled(s, n, k) && k > 0
    ensures Filled(Step(cfg, s, Insert(n, Name(n), 0)), n + 1, k - 1)
  {
    NotYet(s, n, k, n);
    var t := Step(cfg, s, Insert(n, Name(n), 0));
    forall id ensures id in t.rows <==> exists i: nat :: i < n + 1 && id == Name(i) {
      if id in s.rows {
        var i: nat :| i < n && id == Name(i);
      }
    }
  }

  lemma Played(cfg: Config, run: seq<Action>, a: Action, p: nat)
    requires AtMost(cfg, run, p) && |Racing(Step(cfg, Play(cfg, run), a))| <= p
    ensures Play(cfg, run + [a]) == Step(cfg, Play(cfg, run), a) && AtMost(cfg, run + [a], p)
    ensures Slips(cfg, run + [a]) == Slips(cfg, run) + if Slip(cfg, Play(cfg, run), a) then 1 else 0
  {
    assert (run + [a])[..|run|] == run;
  }

  lemma ReachEnter(cfg: Config, before: seq<Action>, n: nat, k: nat, p: nat, failed: bool) returns (run: seq<Action>)
    requires AtMost(cfg, before, p) && Filled(Play(cfg, before), n, k) && (if failed then 0 else n) < cfg.max && k < p
    ensures AtMost(cfg, run, p) && Filled(Play(cfg, run), n, k + 1)
    ensures Slips(cfg, run) == Slips(cfg, before) + if failed && n >= cfg.max then 1 else 0
  {
    var s := Play(cfg, before);
    var look, count := Look(n + k, "", Name(n + k)), Count(n + k, failed);
    Enter(cfg, s, n, k, failed);
    FilledSizes(s, n, k);
    FilledSizes(Step(cfg, Step(cfg, s, look), count), n, k + 1);
    Played(cfg, before, look, p);
    Played(cfg, before + [look], count, p);
    assert Running(Step(cfg, s, look).rows) == Running(s.rows);
    run := before + [look] + [count];
  }

  lemma ReachLand(cfg: Config, before: seq<Action>, n: nat, k: nat, p: nat) returns (run: seq<Action>)
    requires AtMost(cfg, before, p) && Filled(Play(cfg, before), n, k) && 0 < k <= p
    ensures AtMost(cfg, run, p) && Filled(Play(cfg, run), n + 1, k - 1)
    ensures Slips(cfg, run) == Slips(cfg, before)
  {
    var insert := Insert(n, Name(n), 0);
    Land(cfg, Play(cfg, before), n, k);
    FilledSizes(Step(cfg, Play(cfg, before), insert), n + 1, k - 1);
    Played(cfg, before, insert, p);
    run := before + [insert];
  }

  /** Any n running and k racing under the bound can come about with at most p racing calls. */
  lemma {:induction false} Reach(cfg: Config, n: nat, k: nat, p: nat) returns (run: seq<Action>)
    requires cfg.max >= 1 && k <= p && n + k <= cfg.max - 1 + p && p >= 1
    ensures Slips(cfg, run) == 0 && AtMost(cfg, run, p) && Filled(Play(cfg, run), n, k)
    decreases 2 * n + k
  {
    if n == 0 && k == 0 {
      run := [];
      assert Racing(Start) == {};
    } else if k > 0 && n < cfg.max {
      var before := Reach(cfg, n, k - 1, p);
      run := ReachEnter(cfg, before, n, k - 1, p, false);
    } else {
      var before := Reach(cfg, n - 1, k + 1, p);
      run := ReachLand(cfg, before, n - 1, k + 1, p);
    }
  }

  /** … and each slip past a full cap adds one more. */
  lemma {:induction false} ReachPastCap(cfg: Config, f: nat, p: nat) returns (run: seq<Action>)
    requires cfg.max >= 1 && p >= 1
    ensures Slips(cfg, run) == f && AtMost(cfg, run, p) && Filled(Play(cfg, run), cfg.max - 1 + p + f, 0)
  {
    if f == 0 {
      run := Reach(cfg, cfg.max - 1 + p, 0, p);
    } else {
      var n := cfg.max - 1 + p + f - 1;
      run := ReachPastCap(cfg, f - 1, p);
      run := ReachEnter(cfg, run, n, 0, p, true);
      run := ReachLand(cfg, run, n, 1, p);
    }
  }

  /**
   * Exactly: with at most p calls past their count at once and at most f counts failing while the cap is full, some run
   * ends with n running instances iff n is at most max - 1 + p + f.
   */
  lemma ReachableIff(cfg: Config, p: nat, f: nat, n: nat)
    requires cfg.max >= 1 && p >= 1
    ensures (exists run :: AtMost(cfg, run, p) && Slips(cfg, run) <= f && |Running(Play(cfg, run).rows)| == n) <==>
            n <= cfg.max - 1 + p + f
  {
    if run :| AtMost(cfg, run, p) && Slips(cfg, run) <= f && |Running(Play(cfg, run).rows)| == n {
      CapUnderRaces(cfg, run, p);
    }
    if n <= cfg.max - 1 + p {
      var run := Reach(cfg, n, 0, p);
      FilledSizes(Play(cfg, run), n, 0);
    } else if n <= cfg.max - 1 + p + f {
      var run := ReachPastCap(cfg, n - (cfg.max - 1 + p), p);
      FilledSizes(Play(cfg, run), n, 0);
    }
  }

  /** Without slips the bound max - 1 + p is reached. */
  lemma CapIsReached(cfg: Config, p: nat)
    requires cfg.max >= 1 && p >= 1
    ensures exists run ::
              Slips(cfg, run) == 0 && AtMost(cfg, run, p) && |Running(Play(cfg, run).rows)| == cfg.max - 1 + p
  {
    ReachableIff(cfg, p, 0, cfg.max - 1 + p);
  }

  /** With enough slips there is no cap, even with one creator at a time. */
  lemma NoCapWhenCountsFail(cfg: Config, n: nat)
    requires cfg.max >= 1
    ensures exists run :: AtMost(cfg, run, 1) && |Running(Play(cfg, run).rows)| == n
  {
    ReachableIff(cfg, 1, n, n);
  }

  // ---------------------------------------------------------------- what the statements do to a row

  /** A new instance runs unextended until the time given, unless its id is used or its team already runs one. */
  lemma InsertAddsOne(rows: Table, id: Id, ec: Id, team: Id, expiresAt: Time)
    ensures var t := Inserted(rows, id, ec, team, expiresAt);
            if id in rows || exists j :: j in rows && rows[j].running && rows[j].ec == ec && rows[j].team == team
            then t == rows
            else t == rows[id := Instance(ec, team, true, 0, expiresAt)]
  {
  }

  /** An extension moves the running instance of the team once more, twice at most; the others stay. */
  lemma ExtendMovesOne(cfg: Config, s: State, ec: Id, team: Id, id: Id)
    requires id in s.rows
    ensures var t, i := Step(cfg, s, Extend(ec, team)), s.rows[id];
            && t.rows.Keys == s.rows.Keys && t.calls == s.calls && t.granted == s.granted
            && t.rows[id] == if i.running && i.ec == ec && i.team == team && i.extensions < 2
                             then Instance(ec, team, true, i.extensions + 1, i.expiresAt + cfg.ttl) else i
  {
  }

  /** Destroying stops the team's instance and keeps its row; deleting challenges takes rows away. */
  lemma DestroyStopsOne(cfg: Config, s: State, ec: Id, team: Id, id: Id)
    requires id in s.rows
    ensures var t, i := Step(cfg, s, Destroy(ec, team)), s.rows[id];
            && t.rows.Keys == s.rows.Keys && t.calls == s.calls && t.granted == s.granted
            && t.rows[id] == if i.running && i.ec == ec && i.team == team
                             then Instance(ec, team, false, i.extensions, i.expiresAt) else i
    ensures forall gone: set<Id> :: Step(cfg, s, Cascade(gone)) == s.(rows := s.rows - gone)
  {
  }

  ghost predicate Runs(s: State, ec: Id, team: Id) {
    exists j :: j in s.rows && s.rows[j].running && s.rows[j].ec == ec && s.rows[j].team == team
  }

  /** The three statements of a call with nothing in between: the active instance, a refusal at the cap, or one more. */
  lemma CallAlone(cfg: Config, s: State, call: nat, ec: Id, team: Id, id: Id, now: Time)
    requires call !in s.calls && id !in s.rows
    ensures Runs(s, ec, team) ==> Step(cfg, s, Look(call, ec, team)) == s
    ensures var counted := Step(cfg, Step(cfg, s, Look(call, ec, team)), Count(call, false));
            var t := Step(cfg, counted, Insert(call, id, now));
            if Runs(s, ec, team) || |Running(s.rows)| >= cfg.max then t == s
            else t == State(s.rows[id := Instance(ec, team, true, 0, now + cfg.ttl)], s.granted[id := now + cfg.ttl],
                            s.calls)
  {
    var looked := Step(cfg, s, Look(call, ec, team));
    if !Runs(s, ec, team) {
      assert looked == s.(calls := s.calls[call := Looked(ec, team)]);
      assert looked.calls - {call} == s.calls;
      assert s.calls[call := Looked(ec, team)][call := Passed(ec, team)] - {call} == s.calls;
    }
  }
}
