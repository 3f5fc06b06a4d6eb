/**
  The event plane (relay/online.go): events are stamped and routed, and a suspended member's are held for its return.
 */
module Backlog {
  import opened Lists
  import opened Subsequences
  import opened Wire

  const MAX_MISSED: nat := 64

  /** to is "" for a broadcast. */
  datatype Event = Event(from: string, to: string, stamp: nat, payload: Text)

  // ----- One member's backlog -----

  function FirstBroadcast(q: seq<Event>, i: nat): (k: nat)
    requires i <= |q|
    ensures i <= k <= |q|
    ensures k < |q| ==> q[k].to == ""
    ensures forall j | i <= j < k :: q[j].to != ""
    decreases |q| - i
  {
    if i == |q| || q[i].to == "" then i else FirstBroadcast(q, i + 1)
  }

  /** A full backlog gives up its oldest broadcast, or its oldest event when all are addressed. */
  function Queue(q: seq<Event>, ev: Event): (r: seq<Event>) {
    if |q| < MAX_MISSED then q + [ev]
    else Without(q, if FirstBroadcast(q, 0) < |q| then FirstBroadcast(q, 0) else 0) + [ev]
  }

  /** The backlog after evs arrived, from none. */
  function Held(evs: seq<Event>): seq<Event> {
    if evs == [] then [] else Queue(Held(Front(evs)), Last(evs))
  }

  /** The events of one class: broadcasts, or those addressed to someone. */
  function Class(q: seq<Event>, addressed: bool): seq<Event> {
    if q == [] then []
    else Class(Front(q), addressed) + if (Last(q).to != "") == addressed then [Last(q)] else []
  }

  predicate IsSuffix<T(==)>(a: seq<T>, b: seq<T>) {
    |a| <= |b| && b[|b| - |a|..] == a
  }

  lemma {:induction false} ClassSum(a: seq<Event>, b: seq<Event>, addressed: bool)
    ensures Class(a + b, addressed) == Class(a, addressed) + Class(b, addressed)
  {
    if b == [] {
      assert a + b == a && Class(a, addressed) + [] == Class(a, addressed);
    } else {
      FrontOfAppend(a, b);
      ClassSum(a, Front(b), addressed);
      AppendAssociates(Class(a, addressed), Class(Front(b), addressed),
                       if (Last(b).to != "") == addressed then [Last(b)] else []);
    }
  }

  lemma ClassOne(e: Event, addressed: bool)
    ensures Class([e], addressed) == if (e.to != "") == addressed then [e] else []
  {
    assert Front([e]) == [] && Class([], addressed) == [];
  }

  lemma {:induction false} ClassIsAll(q: seq<Event>, n: nat)
    requires n <= |q| && forall i | 0 <= i < n :: q[i].to != ""
    ensures Class(q[..n], true) == q[..n] && Class(q[..n], false) == []
  {
    if n == 0 {
      assert q[..n] == [];
    } else {
      ClassIsAll(q, n - 1);
      hide Class;
      assert q[..n] == q[..n - 1] + [q[n - 1]];
      ClassSum(q[..n - 1], [q[n - 1]], true);
      ClassSum(q[..n - 1], [q[n - 1]], false);
      ClassOne(q[n - 1], true);
      ClassOne(q[n - 1], false);
    }
  }

  /** Taking out the first event of a class takes out the first of its class and nothing of the other. */
  lemma WithoutFirst(q: seq<Event>, k: nat)
    requires k < |q| && forall i | 0 <= i < k :: q[i].to != ""
    requires q[k].to == "" || k == 0
    ensures var mine := q[k].to != "";
            && Class(q, mine) == [q[k]] + Class(Without(q, k), mine)
            && Class(q, !mine) == Class(Without(q, k), !mine)
  {
    hide Class;
    var a, b := q[..k], q[k + 1..];
    SplitAt(q, k);
    ClassIsAll(q, k);
    ClassOfThree(a, q[k], b, true);
    ClassOfThree(a, q[k], b, false);
    ClassSum(a, b, true);
    ClassSum(a, b, false);
    assert k == 0 ==> a == [];
    assert [] + Class(b, true) == Class(b, true) && [] + Class(b, false) == Class(b, false);
  }

  lemma ClassOfThree(a: seq<Event>, x: Event, b: seq<Event>, addressed: bool)
    ensures Class(a + [x] + b, addressed) ==
            Class(a, addressed) + ((if (x.to != "") == addressed then [x] else []) + Class(b, addressed))
  {
    ClassSum(a + [x], b, addressed);
    ClassSum(a, [x], addressed);
    ClassOne(x, addressed);
  }

  lemma SuffixGrows<T>(a: seq<T>, b: seq<T>, x: seq<T>)
    requires IsSuffix(a, b)
    ensures IsSuffix(a + x, b + x)
  {
    assert b == b[..|b| - |a|] + a;
    assert (b + x)[|b| - |a|..] == a + x;
  }

  lemma SuffixShrinks<T>(h: seq<T>, a: seq<T>, b: seq<T>)
    requires IsSuffix(h + a, b)
    ensures IsSuffix(a, b)
  {
    assert b[|b| - |a|..] == b[|b| - |h + a|..][|h|..];
  }

  /** How many addressed events a backlog holds after evs. */
  function Kept(evs: seq<Event>): nat {
    var n := |Class(evs, true)|;
    if n < MAX_MISSED then n else if Last(evs).to != "" then MAX_MISSED else MAX_MISSED - 1
  }

  /** The event the full backlog q gives up. */
  function Victim(q: seq<Event>): (k: nat)
    requires |q| > 0
    ensures k < |q| && (forall i | 0 <= i < k :: q[i].to != "") && (q[k].to == "" || k == 0)
    ensures q[k].to != "" ==> forall i | 0 <= i < |q| :: q[i].to != ""
  {
    if FirstBroadcast(q, 0) < |q| then FirstBroadcast(q, 0) else 0
  }

  lemma {:induction false} ClassSizes(q: seq<Event>)
    ensures |q| == |Class(q, true)| + |Class(q, false)|
  {
    if q != [] {
      ClassSizes(Front(q));
    }
  }

  lemma {:induction false} HeldInOrder(evs: seq<Event>)
    ensures |Held(evs)| == (if |evs| < MAX_MISSED then |evs| else MAX_MISSED) && Sub(Held(evs), evs)
  {
    if evs != [] {
      var before, ev := Front(evs), Last(evs);
      var q := Held(before);
      assert evs == before + [ev];
      HeldInOrder(before);
      QueueOrder(q, ev);
      hide Queue, Sub;
      SubTake(q, before, ev);
      SubTrans(Queue(q, ev), q + [ev], evs);
    }
  }

  lemma {:induction false} HeldIsNewest(evs: seq<Event>, addressed: bool)
    ensures IsSuffix(Class(Held(evs), addressed), Class(evs, addressed))
  {
    if evs != [] {
      var before, ev := Front(evs), Last(evs);
      assert evs == before + [ev];
      HeldIsNewest(before, addressed);
      hide Queue, IsSuffix, Class;
      QueueSuffix(Held(before), ev, before, addressed);
    }
  }

  lemma {:induction false} HeldCount(evs: seq<Event>)
    ensures |Class(Held(evs), true)| == Kept(evs)
  {
    if evs != [] {
      var before, ev := Front(evs), Last(evs);
      assert evs == before + [ev];
      HeldCount(before);
      HeldInOrder(before);
      hide Queue, Kept, Class, Sub;
      QueueCount(Held(before), ev, before);
    }
  }

  /**
    What a backlog is, whatever arrived: the events in their order, at most 64; of each class the newest ones; and an
    addressed event is missing only where 64 addressed ones, or 63 and a broadcast that came last, take all the room.
   */
  lemma BacklogKeepsNewest(evs: seq<Event>)
    ensures var q := Held(evs);
            && |q| == (if |evs| < MAX_MISSED then |evs| else MAX_MISSED)
            && Sub(q, evs)
            && IsSuffix(Class(q, true), Class(evs, true))
            && IsSuffix(Class(q, false), Class(evs, false))
            && |Class(q, true)| == Kept(evs)
  {
    hide Held, Class, Kept, Sub, IsSuffix;
    HeldInOrder(evs);
    HeldIsNewest(evs, true);
    HeldIsNewest(evs, false);
    HeldCount(evs);
  }

  lemma QueueOrder(q: seq<Event>, ev: Event)
    ensures Sub(Queue(q, ev), q + [ev])
    ensures |Queue(q, ev)| == if |q| < MAX_MISSED then |q| + 1 else |q|
  {
    SubSelf(q + [ev]);
    if |q| >= MAX_MISSED {
      SubWithout(q, Victim(q));
      SubTake(Without(q, Victim(q)), q, ev);
    }
  }

  /** The part of a class that goes: nothing, or the oldest of it. */
  function Gone(q: seq<Event>, addressed: bool): seq<Event> {
    if |q| < MAX_MISSED || (q[Victim(q)].to != "") != addressed then [] else [q[Victim(q)]]
  }

  lemma QueueClass(q: seq<Event>, ev: Event, addressed: bool)
    ensures Class(q + [ev], addressed) == Gone(q, addressed) + Class(Queue(q, ev), addressed)
  {
    hide Class, Without;
    if |q| < MAX_MISSED {
      assert [] + Class(q + [ev], addressed) == Class(q + [ev], addressed);
    } else {
      ClassSum(q, [ev], addressed);
      WithoutFirst(q, Victim(q));
      ClassSum(Without(q, Victim(q)), [ev], addressed);
      AppendAssociates(Gone(q, addressed), Class(Without(q, Victim(q)), addressed), Class([ev], addressed));
      assert [] + Class(q, addressed) == Class(q, addressed);
    }
  }

  lemma QueueSuffix(q: seq<Event>, ev: Event, before: seq<Event>, addressed: bool)
    requires IsSuffix(Class(q, addressed), Class(before, addressed))
    ensures IsSuffix(Class(Queue(q, ev), addressed), Class(before + [ev], addressed))
  {
    QueueClass(q, ev, addressed);
    hide Class, Queue;
    ClassSum(q, [ev], addressed);
    ClassSum(before, [ev], addressed);
    SuffixGrows(Class(q, addressed), Class(before, addressed), Class([ev], addressed));
    SuffixShrinks(Gone(q, addressed), Class(Queue(q, ev), addressed), Class(before + [ev], addressed));
  }

  lemma QueueCount(q: seq<Event>, ev: Event, before: seq<Event>)
    requires |q| == if |before| < MAX_MISSED then |before| else MAX_MISSED
    requires |Class(q, true)| == Kept(before)
    ensures |Class(Queue(q, ev), true)| == Kept(before + [ev])
  {
    hide Class, Queue;
    QueueClass(q, ev, true);
    ClassSum(q, [ev], true);
    ClassSum(before, [ev], true);
    ClassOne(ev, true);
    ClassSizes(before);
    ClassSizes(q);
    if |q| == MAX_MISSED && q[Victim(q)].to != "" {
      ClassIsAll(q, |q|);
      assert q[..|q|] == q;
    }
    if |q| == MAX_MISSED && q[Victim(q)].to == "" {
      SomeBroadcast(q, Victim(q));
    }
  }

  lemma SomeBroadcast(q: seq<Event>, k: nat)
    requires k < |q| && q[k].to == ""
    ensures Class(q, false) != []
  {
    SplitAt(q, k);
    ClassOfThree(q[..k], q[k], q[k + 1..], false);
  }

  // ----- The plane -----

  /** An event sent, and to whom. */
  datatype Sent = Sent(event: Event, to: set<string>)

  /** missed are the backlogs; lines is everything sent. */
  datatype Plane = Plane(
    members: set<string>,
    suspended: set<string>,
    missed: map<string, seq<Event>>,
    stamp: nat,
    lines: seq<Sent>)

  const QUIET := Plane({}, {}, map[], 0, [])

  function Of(held: map<string, seq<Event>>, id: string): seq<Event> {
    if id in held then held[id] else []
  }

  /** The sender always hears its own event; one addressed to nobody here reaches only that echo. */
  function Recipients(p: Plane, from: string, to: string): set<string> {
    if to == "" then p.members else {from} + if to in p.members then {to} else {}
  }

  function QueueFor(missed: map<string, seq<Event>>, ids: set<string>, ev: Event): map<string, seq<Event>> {
    map id | id in missed.Keys + ids :: if id in ids then Queue(Of(missed, id), ev) else missed[id]
  }

  function Handled(p: Plane, from: string, to: string, payload: Text): Plane {
    var ev := Event(from, to, p.stamp + 1, payload);
    var ids := Recipients(p, from, to);
    var missing := ids * p.members * p.suspended;
    p.(stamp := p.stamp + 1,
       lines := p.lines + [Sent(ev, ids)],
       missed := QueueFor(p.missed, missing, ev))
  }

  datatype Op =
    | Handle(from: string, to: string, payload: Text)
    | Join(who: string)
    | Suspend(who: string)
    | Swap(who: string)
    | CatchUp(who: string)
    | Remove(who: string)
    | Elsewhere(stamps: nat)

  function Step(p: Plane, op: Op): Plane {
    match op
    case Handle(from, to, payload) => Handled(p, from, to, payload)
    case Join(who) => p.(members := p.members + {who}, suspended := p.suspended - {who})
    case Suspend(who) => p.(suspended := p.suspended + {who})
    case Swap(who) => p.(suspended := p.suspended - {who})
    case CatchUp(who) => p.(missed := p.missed - {who})
    case Remove(who) => p.(members := p.members - {who}, suspended := p.suspended - {who}, missed := p.missed - {who})
    case Elsewhere(stamps) => p.(stamp := p.stamp + stamps)
  }

  function Run(ops: seq<Op>): Plane {
    if ops == [] then QUIET else Step(Run(Front(ops)), Last(ops))
  }

  /** Events in the sequencer's order. */
  predicate InOrder(q: seq<Event>) {
    q == [] || (InOrder(Front(q)) && (Front(q) != [] ==> Last(Front(q)).stamp < Last(q).stamp))
  }

  predicate For(ev: Event, id: string) {
    ev.to == "" || ev.to == id || ev.from == id
  }

  // ----- What a run made a member miss -----

  /** id came and has not been removed since. */
  predicate IsHere(ops: seq<Op>, id: string) {
    if ops == [] then false
    else
      match Last(ops)
      case Join(who) => who == id || IsHere(Front(ops), id)
      case Remove(who) => who != id && IsHere(Front(ops), id)
      case _ => IsHere(Front(ops), id)
  }

  /** id was suspended and has not come back since. */
  predicate IsAway(ops: seq<Op>, id: string) {
    if ops == [] then false
    else
      match Last(ops)
      case Suspend(who) => who == id || IsAway(Front(ops), id)
      case Join(who) => who != id && IsAway(Front(ops), id)
      case Swap(who) => who != id && IsAway(Front(ops), id)
      case Remove(who) => who != id && IsAway(Front(ops), id)
      case _ => IsAway(Front(ops), id)
  }

  /** How many stamps a run used. */
  function Stamps(ops: seq<Op>): nat {
    if ops == [] then 0
    else
      match Last(ops)
      case Handle(_, _, _) => Stamps(Front(ops)) + 1
      case Elsewhere(stamps) => Stamps(Front(ops)) + stamps
      case _ => Stamps(Front(ops))
  }

  /** The events for id that found it suspended, since it was last caught up or removed. */
  function Missed(ops: seq<Op>, id: string): seq<Event> {
    if ops == [] then []
    else
      match Last(ops)
      case Handle(from, to, payload) =>
        var ev := Event(from, to, Stamps(Front(ops)) + 1, payload);
        Missed(Front(ops), id) +
        if For(ev, id) && IsHere(Front(ops), id) && IsAway(Front(ops), id) then [ev] else []
      case CatchUp(who) => if who == id then [] else Missed(Front(ops), id)
      case Remove(who) => if who == id then [] else Missed(Front(ops), id)
      case _ => Missed(Front(ops), id)
  }

  /** A member's part in p is what the run says of it. */
  ghost predicate Follows(p: Plane, ops: seq<Op>, id: string) {
    && (id in p.members <==> IsHere(ops, id))
    && (id in p.suspended <==> IsAway(ops, id))
    && Of(p.missed, id) == Held(Missed(ops, id))
  }

  lemma {:induction false} PlaneFollows(ops: seq<Op>, id: string)
    ensures Follows(Run(ops), ops, id) && Run(ops).stamp == Stamps(ops)
  {
    if ops == [] {
      NothingHeld();
    } else {
      PlaneFollows(Front(ops), id);
      var p := Run(Front(ops));
      hide Held, Queue;
      NothingHeld();
      match Last(ops) {
        case Handle(from, to, payload) => HandledFollows(p, ops, id);
        case _ =>
      }
    }
  }

  lemma HandledFollows(p: Plane, ops: seq<Op>, id: string)
    requires ops != [] && Last(ops).Handle? && Follows(p, Front(ops), id) && p.stamp == Stamps(Front(ops))
    ensures Follows(Step(p, Last(ops)), ops, id)
  {
    var op, missed := Last(ops), Missed(Front(ops), id);
    var ev := Event(op.from, op.to, p.stamp + 1, op.payload);
    HeldOneMore(missed, ev);
    HandledMisses(p, op.from, op.to, op.payload, id);
    HandleMisses(ops, id);
    hide Held, Queue, Missed, Handled, For;
    HandledStays(p, op.from, op.to, op.payload);
  }

  lemma HandledStays(p: Plane, from: string, to: string, payload: Text)
    ensures var q := Handled(p, from, to, payload); q.members == p.members && q.suspended == p.suspended
  {
  }

  lemma HandledMisses(p: Plane, from: string, to: string, payload: Text, id: string)
    ensures var ev := Event(from, to, p.stamp + 1, payload);
            Of(Handled(p, from, to, payload).missed, id) ==
            if For(ev, id) && id in p.members && id in p.suspended then Queue(Of(p.missed, id), ev)
            else Of(p.missed, id)
  {
    hide Queue;
    var missing := Recipients(p, from, to) * p.members * p.suspended;
    assert id in missing <==> id in p.members && id in p.suspended && For(Event(from, to, p.stamp + 1, payload), id);
  }

  lemma HandleMisses(ops: seq<Op>, id: string)
    requires ops != [] && Last(ops).Handle?
    ensures var ev := Event(Last(ops).from, Last(ops).to, Stamps(Front(ops)) + 1, Last(ops).payload);
            Missed(ops, id) ==
            if For(ev, id) && IsHere(Front(ops), id) && IsAway(Front(ops), id) then Missed(Front(ops), id) + [ev]
            else Missed(Front(ops), id)
  {
    hide For, IsHere, IsAway, Stamps;
    assert Missed(Front(ops), id) + [] == Missed(Front(ops), id);
  }

  lemma HeldOneMore(evs: seq<Event>, ev: Event)
    ensures Held(evs + [ev]) == Queue(Held(evs), ev)
  {
    assert Front(evs + [ev]) == evs;
  }

  lemma NothingHeld()
    ensures Held([]) == []
  {
  }

  /** What is missed comes in the sequencer's order, each event meant for the member. */
  lemma {:induction false} MissedInOrder(ops: seq<Op>, id: string)
    ensures InOrder(Missed(ops, id)) && (Missed(ops, id) != [] ==> Last(Missed(ops, id)).stamp <= Stamps(ops))
    ensures forall e | e in Missed(ops, id) :: For(e, id)
  {
    if ops != [] {
      MissedInOrder(Front(ops), id);
      hide For;
      if Last(ops).Handle? {
        var op := Last(ops);
        var before, ev := Missed(Front(ops), id), Event(op.from, op.to, Stamps(Front(ops)) + 1, op.payload);
        assert Front(before + [ev]) == before && before + [] == before;
      }
    }
  }

  lemma {:induction false} StampsRise(q: seq<Event>, i: nat, j: nat)
    requires InOrder(q) && i < j < |q|
    ensures q[i].stamp < q[j].stamp
  {
    if j < |q| - 1 {
      StampsRise(Front(q), i, j);
    } else if i < j - 1 {
      StampsRise(Front(q), i, j - 1);
    }
  }

  lemma {:induction false} SubInOrder(a: seq<Event>, b: seq<Event>)
    requires Sub(a, b) && InOrder(b)
    ensures InOrder(a)
    ensures a != [] ==> b != [] && Last(a).stamp <= Last(b).stamp
    decreases |b|
  {
    if a != [] {
      if Last(a) == Last(b) {
        SubInOrder(Front(a), Front(b));
      } else {
        SubInOrder(a, Front(b));
      }
    }
  }

  /**
    In every run, what a returning member is sent of the events it missed is the backlog of exactly the events meant
    for it that found it suspended: in the sequencer's order with their original stamps, at most 64.
   */
  lemma MissedEventsAreHeld(ops: seq<Op>, id: string)
    ensures var q := Of(Run(ops).missed, id);
            && q == Held(Missed(ops, id)) && |q| <= MAX_MISSED
            && InOrder(q) && (q != [] ==> Last(q).stamp <= Run(ops).stamp)
            && forall e | e in q :: For(e, id)
  {
    PlaneFollows(ops, id);
    var all := Missed(ops, id);
    MissedInOrder(ops, id);
    BacklogKeepsNewest(all);
    hide Run, Held, Queue, Class, Kept, Missed;
    SubInOrder(Held(all), all);
    SubMeant(Held(all), all, id);
  }

  lemma {:induction false} SubMeant(a: seq<Event>, b: seq<Event>, id: string)
    requires Sub(a, b) && forall e | e in b :: For(e, id)
    ensures forall e | e in a :: For(e, id)
    decreases |b|
  {
    hide For;
    if a != [] {
      if Last(a) == Last(b) {
        SubMeant(Front(a), Front(b), id);
        assert a == Front(a) + [Last(a)];
      } else {
        SubMeant(a, Front(b), id);
      }
    }
  }

  // ----- Who is sent what -----

  /**
    In every run, each event handled adds one line, with the next stamp, the sender's own id and payload. A broadcast
    goes to exactly those here, its sender among them; any other event to its sender, and to its addressee when that is
    here. No other step sends any.
   */
  lemma EventsAreRouted(ops: seq<Op>, op: Op, id: string)
    ensures var p, q := Run(ops), Run(ops + [op]);
            if op.Handle? then
              && |q.lines| == |p.lines| + 1 && p.lines <= q.lines
              && var l := Last(q.lines);
                 && l.event == Event(op.from, op.to, Stamps(ops) + 1, op.payload)
                 && (op.to == "" ==> (id in l.to <==> IsHere(ops, id)))
                 && (op.to != "" ==> (id in l.to <==> id == op.from || (id == op.to && IsHere(ops, id))))
            else q.lines == p.lines
  {
    PlaneFollows(ops, id);
    assert Front(ops + [op]) == ops;
    hide Run, Held, Queue, Missed, Stamps, QueueFor;
  }

  // ----- The plane as the source keeps it -----

  class EventPlane {
    var members: set<string>
    var suspended: set<string>
    var missed: map<string, seq<Event>>
    var stamp: nat
    ghost var lines: seq<Sent>

    ghost function Abs(): Plane
      reads this
    {
      Plane(members, suspended, missed, stamp, lines)
    }

    constructor ()
      ensures Abs() == QUIET
    {
      members, suspended, missed, stamp, lines := {}, {}, map[], 0, [];
    }

    method QueueMissed(id: string, ev: Event)
      modifies this`missed
      ensures missed == old(missed)[id := Queue(Of(old(missed), id), ev)]
    {
      var q := if id in missed then missed[id] else [];
      if |q| >= MAX_MISSED {
        var drop, i := 0, 0;
        while i < |q|
          invariant 0 <= i <= |q| && drop == 0
          invariant FirstBroadcast(q, 0) == FirstBroadcast(q, i)
        {
          if q[i].to == "" {
            drop := i;
            break;
          }
          i := i + 1;
        }
        q := q[..drop] + q[drop + 1..];
      }
      missed := missed[id := q + [ev]];
    }

    method HandleEvent(from: string, to: string, payload: Text)
      modifies this
      ensures Abs() == Handled(old(Abs()), from, to, payload)
    {
      hide QueueFor;
      stamp := stamp + 1;
      var ev := Event(from, to, stamp, payload);
      var ids := members;
      if to != "" {
        ids := {from};
        if to != from && to in members {
          ids := ids + {to};
        }
      }
      assert ids == Recipients(old(Abs()), from, to);
      lines := lines + [Sent(ev, ids)];
      var missing := ids * members * suspended;
      QueueMissedFor(missing, ev);
    }

    /** Every suspended recipient gets the event held for its return. */
    method QueueMissedFor(ids: set<string>, ev: Event)
      modifies this`missed
      ensures missed == QueueFor(old(missed), ids, ev)
    {
      hide Queue;
      var todo := ids;
      ghost var done: set<string> := {};
      while todo != {}
        invariant todo + done == ids && todo !! done
        invariant missed == QueueFor(old(missed), done, ev)
        decreases todo
      {
        var id :| id in todo;
        QueueMissed(id, ev);
        todo, done := todo - {id}, done + {id};
      }
      assert done == ids;
    }

    /** Takes and clears the backlog of a returning member. */
    method MissedEvents(id: string) returns (events: seq<Event>)
      modifies this`missed
      ensures events == Of(old(missed), id) && Abs() == Step(old(Abs()), CatchUp(id))
    {
      events := if id in missed then missed[id] else [];
      missed := missed - {id};
    }
  }
}
