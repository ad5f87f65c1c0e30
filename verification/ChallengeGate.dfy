/** The schedule and unlock gate exists twice: when a flag is submitted and when challenges are listed. */
module ChallengeGate {
  import opened Common
  import opened Schedule
  import opened Unlock

  datatype Challenge = Challenge(event: Uuid, published: bool, block: Option<Uuid>, schedule: Raw, rule: Option<Rule>)

  datatype Block = Block(event: Uuid, schedule: Raw, rule: Option<Rule>)

  datatype Verdict = NotVisible | NotOpen | Locked | Pass

  datatype Item = Item(locked: bool, status: string)

  /** A challenge without a schedule of its own takes its block's; JSON null counts as a schedule. */
  function Inherited(c: Challenge, b: Option<Block>): Raw {
    if c.schedule.Absent? && b.Some? then b.value.schedule else c.schedule
  }

  ghost predicate Open(raw: Raw, t: Time) { raw.Spec? && raw.windows != [] ==> AnyOpen(raw.windows, t) }

  function Closed(raw: Raw): string {
    if !raw.Spec? || raw.windows == [] then "" else if raw.closedBehavior == "" then "hidden" else raw.closedBehavior
  }

  function RuleOf(b: Option<Block>): Option<Rule> { if b.Some? then b.value.rule else None }

  /** GetBlock: any block, whatever event it belongs to. */
  function BlockById(blocks: map<Uuid, Block>, c: Challenge): Option<Block> {
    if c.block.Some? && c.block.value in blocks then Some(blocks[c.block.value]) else None
  }

  /** ListBlocks: only the blocks of the event being listed. */
  function BlockOfEvent(blocks: map<Uuid, Block>, event: Uuid, c: Challenge): Option<Block> {
    var b := BlockById(blocks, c);
    if b.Some? && b.value.event == event then b else None
  }

  ghost function Verdicts(c: Challenge, b: Option<Block>, event: Uuid, st: TeamState): Verdict {
    if c.event != event || !c.published then NotVisible
    else if !Open(Inherited(c, b), st.now) then NotOpen
    else if !Unlocked(c.rule, st) || !Unlocked(RuleOf(b), st) then Locked
    else Pass
  }

  const ListedOpen := Some(Item(false, "open"))

  /** The entry a player sees for a published challenge of the event; None is a challenge left out of the list. */
  ghost function Listed(c: Challenge, b: Option<Block>, st: TeamState): Option<Item> {
    var open, lifted := Open(Inherited(c, b), st.now), Unlocked(c.rule, st) && Unlocked(RuleOf(b), st);
    if !open && Closed(Inherited(c, b)) == "hidden" then None
    else if !lifted then Some(Item(true, "locked"))
    else if !open then Some(Item(true, "scheduled"))
    else ListedOpen
  }

  /** The gate sequence of handleSubmit. */
  method Submit(blocks: map<Uuid, Block>, c: Challenge, event: Uuid, st: TeamState) returns (v: Verdict)
    ensures v == Verdicts(c, BlockById(blocks, c), event, st)
  {
    if c.event != event || !c.published {
      return NotVisible;
    }
    var sched, blockUnlock := c.schedule, None;
    if c.block.Some? && c.block.value in blocks {
      var b := blocks[c.block.value];
      if sched.Absent? {
        sched := b.schedule;
      }
      blockUnlock := b.rule;
    }
    var open, _ := OpenAt(sched, st.now);
    if !open {
      return NotOpen;
    }
    if !Unlocked(c.rule, st) || !Unlocked(blockUnlock, st) {
      return Locked;
    }
    v := Pass;
  }

  /** One turn of handleListChallenges for a player. */
  method ListItem(blocks: map<Uuid, Block>, c: Challenge, event: Uuid, st: TeamState) returns (item: Option<Item>)
    requires c.event == event && c.published
    ensures item == Listed(c, BlockOfEvent(blocks, event, c), st)
  {
    var locked, status := false, "open";
    var sched, blockUnlock := c.schedule, None;
    if c.block.Some? && c.block.value in blocks && blocks[c.block.value].event == event {
      var b := blocks[c.block.value];
      if sched.Absent? {
        sched := b.schedule;
      }
      blockUnlock := b.rule;
    }
    var open, cb := OpenAt(sched, st.now);
    if !open {
      if cb == "hidden" {
        return None;
      }
      locked, status := true, "scheduled";
    }
    if !Unlocked(c.rule, st) || !Unlocked(blockUnlock, st) {
      locked, status := true, "locked";
    }
    item := Some(Item(locked, status));
  }

  // ---------------------------------------------------------------- the two copies compared

  /** The block, whatever its event, lets the challenge through. */
  ghost predicate BlockLets(c: Challenge, b: Option<Block>, st: TeamState) {
    Open(Inherited(c, b), st.now) && Unlocked(RuleOf(b), st)
  }

  /**
   * For a published challenge of the event, the list and the gate disagree exactly when its block belongs to another
   * event, the challenge's own schedule and rule let it through, and the block's do not. Then it is listed as open and
   * a submission is refused; never the other way round.
   */
  lemma GatesDifferExactly(blocks: map<Uuid, Block>, c: Challenge, event: Uuid, st: TeamState)
    requires c.event == event && c.published
    ensures var b := BlockById(blocks, c);
            var listed := Listed(c, BlockOfEvent(blocks, event, c), st) == ListedOpen;
            var passes := Verdicts(c, b, event, st) == Pass;
            && (passes ==> listed)
            && (listed != passes <==>
                b.Some? && b.value.event != event &&
                Open(c.schedule, st.now) && Unlocked(c.rule, st) && !BlockLets(c, b, st))
  {
    assert Open(Absent, st.now);
  }

  /** With no block, or a block of the event, a challenge is listed as open exactly when a submission passes. */
  lemma GatesAgree(blocks: map<Uuid, Block>, c: Challenge, event: Uuid, st: TeamState)
    requires c.event == event && c.published
    requires BlockById(blocks, c).Some? ==> BlockById(blocks, c).value.event == event
    ensures Listed(c, BlockOfEvent(blocks, event, c), st) == ListedOpen <==>
            Verdicts(c, BlockById(blocks, c), event, st) == Pass
  {
    GatesDifferExactly(blocks, c, event, st);
  }

  /** No team has solved one challenge more than it has solved. */
  function OutOfReach(st: TeamState): Rule { Empty.(solvedCountGte := Some(st.solvedTotal + 1)) }

  /** A challenge with no schedule or rule, in a block of another event whose rule is out of reach. */
  lemma GatesDiffer(event: Uuid, other: Uuid, block: Uuid, st: TeamState)
    requires event != other
    ensures var blocks := map[block := Block(other, Absent, Some(OutOfReach(st)))];
            var c := Challenge(event, true, Some(block), Absent, None);
            && Listed(c, BlockOfEvent(blocks, event, c), st) == ListedOpen
            && Verdicts(c, BlockById(blocks, c), event, st) == Locked
  {
    assert !Eval(OutOfReach(st), st);
  }
}
