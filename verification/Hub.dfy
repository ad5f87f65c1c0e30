/** The fan-out hub: rooms of clients, each with a bounded queue that a full one simply misses a message of. */
module Hub {

  type Msg = string

  /** The capacity of a client's channel. */
  const Capacity := 32

  // ---------------------------------------------------------------- one client, as a history

  /** Broadcast to the client's room while it is a member, or taken by its writer: sent, or lost with the connection. */
  datatype Act = Said(msg: Msg) | Took(sent: bool)

  function Queue(t: seq<Act>): (q: seq<Msg>)
    ensures |q| <= Capacity
  {
    if t == [] then []
    else
      var q, a := Queue(t[..|t| - 1]), t[|t| - 1];
      match a
      case Said(msg) => if |q| < Capacity then q + [msg] else q
      case Took(_) => if q == [] then q else q[1..]
  }

  function Written(t: seq<Act>): seq<Msg> {
    if t == [] then []
    else
      var q, a := Queue(t[..|t| - 1]), t[|t| - 1];
      Written(t[..|t| - 1]) + if a.Took? && a.sent && q != [] then [q[0]] else []
  }

  /** Everything broadcast to the client. */
  function Heard(t: seq<Act>): seq<Msg> {
    if t == [] then []
    else Heard(t[..|t| - 1]) + if t[|t| - 1].Said? then [t[|t| - 1].msg] else []
  }

  lemma OneMoreAct(t: seq<Act>, a: Act)
    ensures var q := Queue(t);
            && Queue(t + [a]) == (if a.Said? then if |q| < Capacity then q + [a.msg] else q
                                  else if q == [] then q else q[1..])
            && Written(t + [a]) == Written(t) + (if a.Took? && a.sent && q != [] then [q[0]] else [])
  {
    assert (t + [a])[..|t + [a]| - 1] == t && (t + [a])[|t + [a]| - 1] == a;
  }

  // ---------------------------------------------------------------- what reaches a client

  /** a[i] is b[at[i]], at rising positions. */
  ghost predicate Embeds(at: seq<nat>, a: seq<Msg>, b: seq<Msg>) {
    && |at| == |a|
    && (forall i :: 0 <= i < |a| ==> at[i] < |b| && a[i] == b[at[i]])
    && (forall i, j :: 0 <= i < j < |a| ==> at[i] < at[j])
  }

  ghost predicate Subsequence(a: seq<Msg>, b: seq<Msg>) { exists at: seq<nat> :: Embeds(at, a, b) }

  lemma LongerList(a: seq<Msg>, b: seq<Msg>, m: Msg)
    requires Subsequence(a, b)
    ensures Subsequence(a, b + [m]) && Subsequence(a + [m], b + [m])
  {
    var at: seq<nat> :| Embeds(at, a, b);
    assert Embeds(at, a, b + [m]);
    assert Embeds(at + [|b|], a + [m], b + [m]);
  }

  lemma OneFewer(a: seq<Msg>, b: seq<Msg>, k: nat)
    requires Subsequence(a, b) && k < |a|
    ensures Subsequence(a[..k] + a[k + 1..], b)
  {
    var at: seq<nat> :| Embeds(at, a, b);
    assert Embeds(at[..k] + at[k + 1..], a[..k] + a[k + 1..], b);
  }

  /** The act loses a message: broadcast to a full queue, or taken and not sent. */
  ghost predicate Loses(t: seq<Act>, i: nat)
    requires i < |t|
  {
    if t[i].Said? then |Queue(t[..i])| == Capacity else !t[i].sent && Queue(t[..i]) != []
  }

  ghost predicate LosesNone(t: seq<Act>) { forall i :: 0 <= i < |t| ==> !Loses(t, i) }

  lemma LosesNoneSnoc(t: seq<Act>)
    requires t != []
    ensures LosesNone(t) <==> LosesNone(t[..|t| - 1]) && !Loses(t, |t| - 1)
  {
    var n := |t| - 1;
    forall i | 0 <= i < n ensures Loses(t[..n], i) <==> Loses(t, i) {
      assert t[..n][..i] == t[..i];
    }
  }

  ghost function Reached(t: seq<Act>): seq<Msg> { Written(t) + Queue(t) }

  /** One act: what has reached the client grows by the message heard, stays, or loses one. */
  lemma ReachedStep(t: seq<Act>)
    requires t != []
    ensures var n := |t| - 1;
            var before := Reached(t[..n]);
            if t[n].Said? && !Loses(t, n) then Reached(t) == before + [t[n].msg]
            else if t[n].Took? && Loses(t, n)
            then var k := |Written(t[..n])|; k < |before| && Reached(t) == before[..k] + before[k + 1..]
            else Reached(t) == before
  {
    var n := |t| - 1;
    var w, q := Written(t[..n]), Queue(t[..n]);
    if t[n].Took? && q != [] {
      assert q == [q[0]] + q[1..];
      assert (w + q)[..|w|] == w && (w + q)[|w| + 1..] == q[1..];
      assert w + q == (w + [q[0]]) + q[1..];
    }
    if t[n].Said? {
      assert w + [] == w && w + (q + [t[n].msg]) == (w + q) + [t[n].msg];
    }
  }

  lemma HeardStep(t: seq<Act>)
    requires t != []
    ensures var n := |t| - 1; Heard(t) == if t[n].Said? then Heard(t[..n]) + [t[n].msg] else Heard(t[..n])
  {
  }

  lemma InOrder(t: seq<Act>)
    requires t != [] && Subsequence(Reached(t[..|t| - 1]), Heard(t[..|t| - 1]))
    ensures Subsequence(Reached(t), Heard(t))
  {
    var n := |t| - 1;
    var a, b := Reached(t[..n]), Heard(t[..n]);
    ReachedStep(t);
    HeardStep(t);
    if t[n].Said? {
      LongerList(a, b, t[n].msg);
    } else if Loses(t, n) {
      OneFewer(a, b, |Written(t[..n])|);
    }
  }

  lemma {:induction false} NothingLost(t: seq<Act>)
    requires LosesNone(t)
    ensures Reached(t) == Heard(t)
  {
    if t != [] {
      LosesNoneSnoc(t);
      NothingLost(t[..|t| - 1]);
      ReachedStep(t);
    }
  }

  /** How many messages were lost. */
  ghost function Losses(t: seq<Act>): nat {
    if t == [] then 0 else Losses(t[..|t| - 1]) + if Loses(t, |t| - 1) then 1 else 0
  }

  lemma {:induction false} ReachedLengths(t: seq<Act>)
    ensures |Reached(t)| + Losses(t) == |Heard(t)|
  {
    if t != [] {
      ReachedLengths(t[..|t| - 1]);
      ReachedStep(t);
    }
  }

  lemma {:induction false} ShorterOnceLost(t: seq<Act>)
    requires !LosesNone(t)
    ensures Losses(t) > 0
  {
    LosesNoneSnoc(t);
    if !LosesNone(t[..|t| - 1]) {
      ShorterOnceLost(t[..|t| - 1]);
    }
  }

  /**
   * What was written to a client followed by what waits for it is a subsequence, in order, of what was broadcast to it;
   * it is all of it exactly when no broadcast found the queue full and no write failed.
   */
  lemma {:induction false} DeliveredInOrder(t: seq<Act>)
    ensures Subsequence(Reached(t), Heard(t))
    ensures Reached(t) == Heard(t) <==> LosesNone(t)
  {
    if t == [] {
      assert Embeds([], Reached(t), Heard(t));
    } else {
      DeliveredInOrder(t[..|t| - 1]);
      InOrder(t);
    }
    if LosesNone(t) {
      NothingLost(t);
    } else {
      ShorterOnceLost(t);
      ReachedLengths(t);
    }
  }

  // ---------------------------------------------------------------- clients and rooms

  class Client {
    var send: seq<Msg>
    var written: seq<Msg>
    ghost var history: seq<Act>

    ghost predicate Valid()
      reads this
    {
      send == Queue(history) && written == Written(history)
    }

    constructor ()
      ensures Valid() && history == []
    {
      send, written, history := [], [], [];
    }

    /** The non-blocking send of Broadcast. */
    method Offer(msg: Msg)
      requires Valid()
      modifies this
      ensures Valid() && history == old(history) + [Said(msg)]
      ensures written == old(written)
      ensures send == if |old(send)| < Capacity then old(send) + [msg] else old(send)
    {
      if |send| < Capacity {
        send := send + [msg];
      }
      OneMoreAct(history, Said(msg));
      history := history + [Said(msg)];
    }

    /** One turn of Serve's writer; `ok` is whether the connection took the message. */
    method Pump(ok: bool)
      requires Valid()
      modifies this
      ensures Valid() && history == old(history) + [Took(ok)]
      ensures send == if old(send) == [] then [] else old(send)[1..]
      ensures written == old(written) + if ok && old(send) != [] then [old(send)[0]] else []
    {
      if send != [] {
        if ok {
          written := written + [send[0]];
        }
        send := send[1..];
      }
      OneMoreAct(history, Took(ok));
      history := history + [Took(ok)];
    }
  }

  // ---------------------------------------------------------------- what a run of the hub tells a client

  /** What has been done to the hub. */
  datatype Deed = Joined(event: string, who: Client) | Left(event: string, who: Client) | Cast(event: string, msg: Msg)

  /** The client's last move concerning the room was to join it. */
  ghost predicate MemberAfter(deeds: seq<Deed>, event: string, c: Client) {
    deeds != [] &&
    var d := deeds[|deeds| - 1];
    if d.Cast? || d.event != event || d.who != c then MemberAfter(deeds[..|deeds| - 1], event, c) else d.Joined?
  }

  /** The messages broadcast to a room while the client was a member of it. */
  ghost function Told(deeds: seq<Deed>, c: Client): seq<Msg> {
    if deeds == [] then []
    else
      var before, d := deeds[..|deeds| - 1], deeds[|deeds| - 1];
      Told(before, c) + if d.Cast? && MemberAfter(before, d.event, c) then [d.msg] else []
  }

  /** What one more deed changes for a client. */
  ghost predicate Follows(deeds: seq<Deed>, d: Deed, c: Client) {
    && Told(deeds + [d], c) == Told(deeds, c) + (if d.Cast? && MemberAfter(deeds, d.event, c) then [d.msg] else [])
    && forall event :: MemberAfter(deeds + [d], event, c) <==>
                       if d.Cast? || d.event != event || d.who != c then MemberAfter(deeds, event, c) else d.Joined?
  }

  lemma OneMoreDeed(deeds: seq<Deed>, d: Deed, c: Client)
    ensures Follows(deeds, d, c)
  {
    assert (deeds + [d])[..|deeds + [d]| - 1] == deeds;
  }

  type Membership = map<string, set<Client>>

  function RoomOf(rooms: Membership, event: string): set<Client> { if event in rooms then rooms[event] else {} }

  /** The rooms the client is in follow from what was done. */
  ghost predicate Placed(rooms: Membership, deeds: seq<Deed>, c: Client) {
    forall event :: c in RoomOf(rooms, event) <==> MemberAfter(deeds, event, c)
  }

  /** A room's new set of members; an empty one is not stored. */
  function With(rooms: Membership, event: string, room: set<Client>): Membership {
    if room == {} then rooms - {event} else rooms[event := room]
  }

  lemma JoinPlaces(rooms: Membership, deeds: seq<Deed>, event: string, who: Client, c: Client)
    requires Placed(rooms, deeds, c)
    ensures Placed(With(rooms, event, RoomOf(rooms, event) + {who}), deeds + [Joined(event, who)], c)
    ensures Told(deeds + [Joined(event, who)], c) == Told(deeds, c)
  {
    OneMoreDeed(deeds, Joined(event, who), c);
  }

  lemma LeavePlaces(rooms: Membership, deeds: seq<Deed>, event: string, who: Client, c: Client)
    requires Placed(rooms, deeds, c)
    ensures Placed(With(rooms, event, RoomOf(rooms, event) - {who}), deeds + [Left(event, who)], c)
    ensures Told(deeds + [Left(event, who)], c) == Told(deeds, c)
  {
    OneMoreDeed(deeds, Left(event, who), c);
  }

  lemma CastPlaces(rooms: Membership, deeds: seq<Deed>, event: string, msg: Msg, c: Client)
    requires Placed(rooms, deeds, c)
    ensures Placed(rooms, deeds + [Cast(event, msg)], c)
    ensures Told(deeds + [Cast(event, msg)], c) == Told(deeds, c) + if c in RoomOf(rooms, event) then [msg] else []
  {
    OneMoreDeed(deeds, Cast(event, msg), c);
  }

  /** No empty room is stored, only known clients are in rooms, and they are where the deeds put them. */
  ghost predicate Shape(rooms: Membership, deeds: seq<Deed>, known: set<Client>) {
    && (forall event :: event in rooms ==> rooms[event] != {} && rooms[event] <= known)
    && (forall i :: 0 <= i < |deeds| && !deeds[i].Cast? ==> deeds[i].who in known)
    && (forall c :: c in known ==> Placed(rooms, deeds, c))
  }

  lemma JoinKeepsShape(rooms: Membership, deeds: seq<Deed>, known: set<Client>, event: string, who: Client)
    requires Shape(rooms, deeds, known)
    ensures Shape(With(rooms, event, RoomOf(rooms, event) + {who}), deeds + [Joined(event, who)], known + {who})
    ensures forall c :: c in known + {who} ==> Told(deeds + [Joined(event, who)], c) == Told(deeds, c)
    ensures who !in known ==> Told(deeds, who) == []
  {
    if who !in known {
      StrangersHearNothing(deeds, who);
      assert Placed(rooms, deeds, who);
    }
    forall c | c in known + {who} {
      JoinPlaces(rooms, deeds, event, who, c);
    }
  }

  lemma LeaveKeepsShape(rooms: Membership, deeds: seq<Deed>, known: set<Client>, event: string, who: Client)
    requires Shape(rooms, deeds, known) && who in known
    ensures Shape(With(rooms, event, RoomOf(rooms, event) - {who}), deeds + [Left(event, who)], known)
    ensures forall c :: c in known ==> Told(deeds + [Left(event, who)], c) == Told(deeds, c)
  {
    forall c | c in known {
      LeavePlaces(rooms, deeds, event, who, c);
    }
  }

  lemma CastKeepsShape(rooms: Membership, deeds: seq<Deed>, known: set<Client>, event: string, msg: Msg)
    requires Shape(rooms, deeds, known)
    ensures Shape(rooms, deeds + [Cast(event, msg)], known)
    ensures forall c :: c in known ==>
              Told(deeds + [Cast(event, msg)], c) == Told(deeds, c) + if c in RoomOf(rooms, event) then [msg] else []
  {
    forall c | c in known {
      CastPlaces(rooms, deeds, event, msg, c);
    }
  }

  lemma {:induction false} StrangersHearNothing(deeds: seq<Deed>, c: Client)
    requires forall i :: 0 <= i < |deeds| && !deeds[i].Cast? ==> deeds[i].who != c
    ensures Told(deeds, c) == [] && forall event :: !MemberAfter(deeds, event, c)
  {
    if deeds != [] {
      StrangersHearNothing(deeds[..|deeds| - 1], c);
    }
  }

  class Rooms {
    var rooms: Membership
    ghost var deeds: seq<Deed>
    ghost var known: set<Client>  // every client that has ever joined

    function Room(event: string): set<Client> reads this { RoomOf(rooms, event) }

    /**
     * No empty room is stored; who is in which room follows from what was done; and what a client has heard is exactly
     * what was broadcast to its rooms while it was in them.
     */
    ghost predicate Valid()
      reads this, known
    {
      && Shape(rooms, deeds, known)
      && forall c :: c in known ==> c.Valid() && Heard(c.history) == Told(deeds, c)
    }

    constructor ()
      ensures Valid() && rooms == map[] && deeds == [] && known == {}
    {
      rooms, deeds, known := map[], [], {};
    }

    /** A client that joins for the first time comes with an empty history. */
    method Add(event: string, c: Client)
      requires Valid() && c.Valid() && (c !in known ==> c.history == [])
      modifies this
      ensures Valid() && deeds == old(deeds) + [Joined(event, c)] && known == old(known) + {c}
      ensures rooms == With(old(rooms), event, old(Room(event)) + {c})
    {
      var room: set<Client> := {};
      if event in rooms {
        room := rooms[event];
      }
      JoinKeepsShape(rooms, deeds, known, event, c);
      rooms := rooms[event := room + {c}];
      known := known + {c};
      deeds := deeds + [Joined(event, c)];
    }

    method Remove(event: string, c: Client)
      requires Valid() && c in known
      modifies this
      ensures Valid() && deeds == old(deeds) + [Left(event, c)] && known == old(known)
      ensures rooms == With(old(rooms), event, old(Room(event)) - {c})
    {
      LeaveKeepsShape(rooms, deeds, known, event, c);
      ghost var next := With(rooms, event, RoomOf(rooms, event) - {c});
      if event in rooms {
        var room := rooms[event] - {c};
        rooms := rooms[event := room];
        if room == {} {
          rooms := rooms - {event};
        }
      }
      assert rooms == next;
      deeds := deeds + [Left(event, c)];
    }

    /** Every member of the room is offered the message; nobody else is touched. */
    method Broadcast(event: string, msg: Msg)
      requires Valid()
      modifies this`deeds, Room(event)
      ensures Valid() && deeds == old(deeds) + [Cast(event, msg)]
      ensures forall c :: c in Room(event) ==> c.history == old(c.history) + [Said(msg)] && c.written == old(c.written)
    {
      if event in rooms {
        OfferAll(rooms[event], msg);
      }
      forall c | c in known ensures Heard(c.history) == Heard(old(c.history)) + if c in Room(event) then [msg] else [] {
        HeardMore(old(c.history), msg);
      }
      CastKeepsShape(rooms, deeds, known, event, msg);
      deeds := deeds + [Cast(event, msg)];
    }
  }

  /** The loop of Broadcast, over the room's clients in any order. */
  method OfferAll(room: set<Client>, msg: Msg)
    requires forall c :: c in room ==> c.Valid()
    modifies room
    ensures forall c :: c in room ==>
            c.Valid() && c.history == old(c.history) + [Said(msg)] && c.written == old(c.written)
  {
    var todo := room;
    while todo != {}
      invariant todo <= room
      invariant forall c :: c in room ==> c.Valid() && c.written == old(c.written)
      invariant forall c :: c in room ==>
                  c.history == if c in todo then old(c.history) else old(c.history) + [Said(msg)]
      decreases |todo|
    {
      var c :| c in todo;
      c.Offer(msg);
      todo := todo - {c};
    }
  }

  lemma HeardMore(t: seq<Act>, msg: Msg)
    ensures Heard(t + [Said(msg)]) == Heard(t) + [msg]
  {
    assert (t + [Said(msg)])[..|t + [Said(msg)]| - 1] == t;
  }

  /**
   * In any run of the hub: a client has been written, or has waiting, a subsequence in order of what was broadcast to
   * its rooms while it was in them; all of it exactly when no broadcast found its queue full and no write failed.
   */
  lemma HubDeliversInOrder(hub: Rooms, c: Client)
    requires hub.Valid() && c in hub.known
    ensures Subsequence(c.written + c.send, Told(hub.deeds, c))
    ensures c.written + c.send == Told(hub.deeds, c) <==> LosesNone(c.history)
  {
    DeliveredInOrder(c.history);
  }
}
