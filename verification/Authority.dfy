/**
  Leases and world together (handleWorld in relay/world.go reads the leases of relay/leases.go): one room stamps both
  planes, and whoever holds an authority's lease is the only one who writes its world.
 */
module Authority {
  import opened Lists
  import Leases
  import World

  datatype Room = Room(keys: Leases.Keys, world: World.Custody)

  const EMPTY := Room(Leases.NO_KEYS, World.NOTHING)

  /** batches is the world a new holder is sent; the room's members are those of both planes. */
  datatype Op =
    | OnLeases(op: Leases.Op, batches: seq<World.Batch>)
    | OnWorld(step: World.Step)
    | Enter(who: string)
    | Suspend(who: string)
    | Remove(who: string)
    | Elsewhere(stamps: nat)

  // ----- One step, seen from each plane -----

  /** The step gives the key to someone who did not have it. */
  predicate Adopts(k: Leases.Keys, op: Leases.Op)
    requires Leases.Legal(k, op)
  {
    op.Ask? &&
    var after := Leases.Step(k, op).leases;
    op.key in after && (op.key !in k.leases || k.leases[op.key].holder != after[op.key].holder)
  }

  function Freed(k: Leases.Keys, op: Leases.Op): set<string>
    requires Leases.Legal(k, op)
  {
    k.leases.Keys - Leases.Step(k, op).leases.Keys
  }

  function Used(before: nat, after: nat): nat {
    if before <= after then after - before else 0
  }

  ghost function LeaseOp(r: Room, op: Op): Leases.Op
    requires op.OnWorld? ==> World.Legal(r.world, op.step)
  {
    match op
    case OnLeases(o, _) => o
    case OnWorld(s) => Leases.Op.Elsewhere(Used(r.world.stamp, World.Next(r.world, s).stamp))
    case Enter(who) => Leases.Op.Join(who)
    case Suspend(who) => Leases.Op.Suspend(who)
    case Remove(who) => Leases.Op.Remove(who)
    case Elsewhere(stamps) => Leases.Op.Elsewhere(stamps)
  }

  /** The world's first step: what a grant stamps, what a freed key leaves without a holder, or the step itself. */
  ghost function First(r: Room, op: Op): World.Step
    requires op.OnLeases? ==> Leases.Legal(r.keys, op.op)
  {
    match op
    case OnLeases(o, _) =>
      if Adopts(r.keys, o) then World.Step.Elsewhere(1) else World.Step.Unheld(Freed(r.keys, o))
    case OnWorld(s) => s
    case Enter(who) => World.Step.Enter(who)
    case Suspend(who) => World.Step.Suspend(who)
    case Remove(who) => World.Step.Remove(who)
    case Elsewhere(stamps) => World.Step.Elsewhere(stamps)
  }

  /** The world's second: a new holder adopts the world its key governs, or the stamps the leases used. */
  ghost function Second(r: Room, op: Op): World.Step
    requires op.OnLeases? ==> Leases.Legal(r.keys, op.op)
  {
    match op
    case OnLeases(o, batches) =>
      if Adopts(r.keys, o) then World.Step.Adopt(o.key, o.from, batches)
      else World.Step.Elsewhere(Used(r.keys.stamp, Leases.Step(r.keys, o).stamp))
    case _ => World.Step.Elsewhere(0)
  }

  /** A lease step is one of the leases' own, and takes a stamp for each batch an adopting holder is sent; a world step
      is a write or a snapshot. */
  ghost predicate Legal(r: Room, op: Op) {
    match op
    case OnLeases(o, batches) =>
      && (o.Ask? || o.Expire? || o.Depart? || o.Snapshot?) && Leases.Legal(r.keys, o)
      && (Adopts(r.keys, o) ==>
            o.world == |batches| && World.Covers(batches, World.Part(r.world.world, o.key)))
    case OnWorld(s) => (s.Write? || s.Seed? || s.Resume?) && World.Legal(r.world, s)
    case _ => true
  }

  lemma LegalInBoth(r: Room, op: Op)
    requires Legal(r, op)
    ensures Leases.Legal(r.keys, LeaseOp(r, op))
    ensures World.Legal(r.world, First(r, op))
    ensures World.Legal(World.Next(r.world, First(r, op)), Second(r, op))
  {
    hide World.Covers, World.Writing, World.Seeded, Leases.Step;
  }

  ghost function Step(r: Room, op: Op): Room
    requires Legal(r, op)
  {
    LegalInBoth(r, op);
    Room(Leases.Step(r.keys, LeaseOp(r, op)), World.Next(World.Next(r.world, First(r, op)), Second(r, op)))
  }

  ghost predicate LegalRun(ops: seq<Op>)
    decreases |ops|, 0
  {
    ops == [] || (LegalRun(Front(ops)) && Legal(Run(Front(ops)), Last(ops)))
  }

  ghost function Run(ops: seq<Op>): Room
    requires LegalRun(ops)
    decreases |ops|, 1
  {
    if ops == [] then EMPTY else Step(Run(Front(ops)), Last(ops))
  }

  // ----- A run of the room is a run of each plane -----

  ghost function LeaseRun(ops: seq<Op>): seq<Leases.Op>
    requires LegalRun(ops)
  {
    if ops == [] then [] else LeaseRun(Front(ops)) + [LeaseOp(Run(Front(ops)), Last(ops))]
  }

  ghost function WorldRun(ops: seq<Op>): seq<World.Step>
    requires LegalRun(ops)
  {
    if ops == [] then []
    else WorldRun(Front(ops)) + [First(Run(Front(ops)), Last(ops))] + [Second(Run(Front(ops)), Last(ops))]
  }

  lemma LeaseOneMore(ops: seq<Leases.Op>, op: Leases.Op)
    requires Leases.LegalRun(ops) && Leases.Legal(Leases.Run(ops), op)
    ensures Leases.LegalRun(ops + [op]) && Leases.Run(ops + [op]) == Leases.Step(Leases.Run(ops), op)
  {
    assert Front(ops + [op]) == ops;
  }

  lemma WorldOneMore(steps: seq<World.Step>, s: World.Step)
    requires World.LegalRun(steps) && World.Legal(World.Run(steps), s)
    ensures World.LegalRun(steps + [s]) && World.Run(steps + [s]) == World.Next(World.Run(steps), s)
  {
    assert Front(steps + [s]) == steps;
  }

  /** Whatever holds of every run of the leases or of the world alone holds of the room. */
  lemma {:induction false} RoomRefinesPlanes(ops: seq<Op>)
    requires LegalRun(ops)
    ensures Leases.LegalRun(LeaseRun(ops)) && Leases.Run(LeaseRun(ops)) == Run(ops).keys
    ensures World.LegalRun(WorldRun(ops)) && World.Run(WorldRun(ops)) == Run(ops).world
  {
    if ops != [] {
      RoomRefinesPlanes(Front(ops));
      var r, op := Run(Front(ops)), Last(ops);
      LegalInBoth(r, op);
      hide Legal, First, Second, LeaseOp;
      LeaseOneMore(LeaseRun(Front(ops)), LeaseOp(r, op));
      WorldOneMore(WorldRun(Front(ops)), First(r, op));
      WorldOneMore(WorldRun(Front(ops)) + [First(r, op)], Second(r, op));
    }
  }

  // ----- What the leases said before a stamp -----

  /** The lease lines stamped before s. */
  function Before(lines: seq<Leases.Line>, s: nat): seq<Leases.Line> {
    if lines == [] then []
    else Before(Front(lines), s) + if Last(lines).state.stamp < s then [Last(lines)] else []
  }

  /** Who the lease lines before s last said holds the key; "" when nobody. */
  function SaidToHold(lines: seq<Leases.Line>, key: string, s: nat): string {
    var word := Leases.LastWord(Before(lines, s), key);
    if word.Some? then word.value.holder else ""
  }

  lemma {:induction false} AllBefore(lines: seq<Leases.Line>, s: nat)
    requires forall i | 0 <= i < |lines| :: lines[i].state.stamp < s
    ensures Before(lines, s) == lines
  {
    if lines != [] {
      var rest, l := Front(lines), Last(lines);
      assert forall i | 0 <= i < |rest| :: rest[i] == lines[i];
      assert l == lines[|lines| - 1] && lines == rest + [l];
      AllBefore(rest, s);
    }
  }

  lemma {:induction false} LaterLinesDoNotCount(lines: seq<Leases.Line>, n: nat, s: nat)
    requires n <= |lines| && forall i | n <= i < |lines| :: s <= lines[i].state.stamp
    ensures Before(lines, s) == Before(lines[..n], s)
    decreases |lines|
  {
    if n == |lines| {
      assert lines[..n] == lines;
    } else {
      LaterLinesDoNotCount(Front(lines), n, s);
      assert Front(lines)[..n] == lines[..n];
      assert Before(Front(lines), s) + [] == Before(Front(lines), s);
    }
  }

  // ----- Lines of one step -----

  /** s has r's lines and more, each stamped after r's last stamp. */
  ghost predicate LeaseLinesAdded(r: Leases.Keys, s: Leases.Keys) {
    && r.stamp <= s.stamp && r.lines <= s.lines
    && forall i | |r.lines| <= i < |s.lines| :: r.stamp < s.lines[i].state.stamp <= s.stamp
  }

  lemma LeaseLinesOn(r: Leases.Keys, s: Leases.Keys, t: Leases.Keys)
    requires LeaseLinesAdded(r, s) && LeaseLinesAdded(s, t)
    ensures LeaseLinesAdded(r, t)
  {
    forall i | |r.lines| <= i < |t.lines|
      ensures r.stamp < t.lines[i].state.stamp <= t.stamp
    {
      if i < |s.lines| {
        assert t.lines[i] == s.lines[i];
      }
    }
  }

  lemma {:induction false} DepartureAdds(r: Leases.Keys, order: seq<string>, who: string, now: int)
    ensures LeaseLinesAdded(r, Leases.FreeAll(r, order, who, now))
  {
    if order != [] {
      DepartureAdds(r, Front(order), who, now);
      var s := Leases.FreeAll(r, Front(order), who, now);
      assert LeaseLinesAdded(s, Leases.FreeKey(s, Last(order), Leases.HolderLeft, now));
      LeaseLinesOn(r, s, Leases.FreeKey(s, Last(order), Leases.HolderLeft, now));
    }
  }

  lemma {:induction false} LeaseSnapshotAdds(r: Leases.Keys, to: string, order: seq<string>, now: int)
    requires forall k | k in order :: k in r.leases
    ensures LeaseLinesAdded(r, Leases.Snapshotting(r, to, order, now))
  {
    if order != [] {
      LeaseSnapshotAdds(r, to, Front(order), now);
    }
  }

  lemma SayAdds(k: Leases.Keys, r: Leases.Keys, key: string, holder: string, until: int, reason: Leases.Reason, at: int,
                to: set<string>)
    requires r.lines == k.lines && r.stamp == k.stamp
    ensures LeaseLinesAdded(k, Leases.Say(r, key, holder, until, reason, at, to))
  {
  }

  lemma StampsAdd(k: Leases.Keys, r: Leases.Keys, more: nat)
    requires LeaseLinesAdded(k, r)
    ensures LeaseLinesAdded(k, r.(stamp := r.stamp + more))
  {
  }

  lemma GrantAdds(k: Leases.Keys, key: string, holder: string, ttl: int, now: int, world: nat)
    ensures LeaseLinesAdded(k, Leases.Grant(k, key, holder, ttl, now, world))
  {
    hide LeaseLinesAdded, Leases.Say, Leases.Unremarkable, Leases.Recount;
    var l := Leases.Lease(holder, now + ttl);
    var was := Leases.Current(k, key);
    var g := k.(leases := k.leases[key := l], heldBy := Leases.Recount(k.heldBy, was, holder));
    var to := if Leases.Unremarkable(was, l) then {holder} else k.members;
    SayAdds(k, g, key, holder, l.expiresAt, Leases.Granted, now, to);
    StampsAdd(k, Leases.Say(g, key, holder, l.expiresAt, Leases.Granted, now, to), world);
  }

  lemma FreeAdds(k: Leases.Keys, key: string, reason: Leases.Reason, now: int)
    ensures LeaseLinesAdded(k, Leases.FreeKey(k, key, reason, now))
  {
  }

  lemma NoneAdded(k: Leases.Keys)
    ensures LeaseLinesAdded(k, k)
  {
  }

  lemma AskAdds(k: Leases.Keys, from: string, key: string, ttl: int, now: int, world: nat)
    ensures LeaseLinesAdded(k, Leases.Claiming(k, from, key, ttl, now, world))
    ensures LeaseLinesAdded(k, Leases.Renewing(k, from, key, ttl, now))
    ensures LeaseLinesAdded(k, Leases.Releasing(k, from, key, now))
    ensures LeaseLinesAdded(k, Leases.Expiring(k, key, from, now))
  {
    hide LeaseLinesAdded, Leases.Say, Leases.Grant, Leases.FreeKey, Leases.TableFull;
    NoneAdded(k);
    GrantAdds(k, key, from, ttl, now, world);
    GrantAdds(k, key, from, ttl, now, 0);
    FreeAdds(k, key, Leases.Released, now);
    FreeAdds(k, key, Leases.Expired, now);
    if key in k.leases {
      SayAdds(k, k, key, k.leases[key].holder, k.leases[key].expiresAt, Leases.Denied, now, {from});
    }
    SayAdds(k, k, key, "", 0, Leases.TooMany, now, {from});
    SayAdds(k, k, key, "", 0, Leases.Denied, now, {from});
  }

  lemma LeaseStepAdds(k: Leases.Keys, op: Leases.Op)
    requires Leases.Legal(k, op)
    ensures LeaseLinesAdded(k, Leases.Step(k, op))
  {
    hide Leases.ClampTTL, Leases.NewHere, Leases.FreeAll, Leases.Snapshotting;
    hide Leases.Claiming, Leases.Renewing, Leases.Releasing, Leases.Expiring;
    match op {
      case Depart(who, order, now) => DepartureAdds(k, order, who, now);
      case Snapshot(to, order, now) => LeaseSnapshotAdds(k, to, order, now);
      case Ask(from, key, Claim(ttlMs), now, world) => AskAdds(k, from, key, Leases.ClampTTL(ttlMs), now, world);
      case Ask(from, key, Renew(ttlMs), now, _) => AskAdds(k, from, key, Leases.ClampTTL(ttlMs), now, 0);
      case Ask(from, key, Release, now, _) => AskAdds(k, from, key, 0, now, 0);
      case Expire(key, holder, now) => AskAdds(k, holder, key, 0, now, 0);
      case _ =>
    }
  }

  /** v has w's lines and more, each stamped after w's last stamp and naming its authority's holder. */
  ghost predicate WorldLinesAdded(w: World.Custody, v: World.Custody) {
    && w.stamp <= v.stamp && w.lines <= v.lines
    && forall i | |w.lines| <= i < |v.lines| ::
         w.stamp < v.lines[i].stamp <= v.stamp && v.lines[i].holder == World.Holder(v, v.lines[i].authority)
  }

  lemma {:induction false} SeededAdds(w: World.Custody, to: string, batches: seq<World.Batch>)
    ensures WorldLinesAdded(w, World.Seeded(w, to, batches))
    ensures World.Seeded(w, to, batches).stamp == w.stamp + |batches|
    ensures World.Seeded(w, to, batches).holders == w.holders
  {
    if batches != [] {
      SeededAdds(w, to, Front(batches));
    }
  }

  lemma WorldStepAdds(w: World.Custody, s: World.Step)
    requires World.Legal(w, s) && (s.Write? || s.Seed? || s.Resume?)
    ensures WorldLinesAdded(w, World.Next(w, s)) && World.Next(w, s).holders == w.holders
    ensures World.Next(w, s).members == w.members
  {
    hide World.Covers, World.Seeded;
    match s {
      case Seed(who, batches) => SeededAdds(w, who, batches);
      case Resume(who, batches) => SeededAdds(World.Away(w, who), who, batches);
      case Write(_, _, _, _) =>
    }
  }

  // ----- The two planes agree -----

  function HoldersOf(leases: map<string, Leases.Lease>): map<string, string> {
    map k | k in leases :: leases[k].holder
  }

  /** Every world line names whom the lease lines before it last said holds its authority. */
  ghost predicate AllNamed(keyLines: seq<Leases.Line>, worldLines: seq<World.Line>) {
    forall i | 0 <= i < |worldLines| ::
      worldLines[i].holder == SaidToHold(keyLines, worldLines[i].authority, worldLines[i].stamp)
  }

  ghost predicate Stamped(keys: Leases.Keys, world: World.Custody) {
    && keys.stamp == world.stamp
    && (forall i | 0 <= i < |keys.lines| :: keys.lines[i].state.stamp <= keys.stamp)
    && (forall i | 0 <= i < |world.lines| :: world.lines[i].stamp <= world.stamp)
  }

  ghost predicate Agree(r: Room) {
    && Leases.Truthful(r.keys.lines, r.keys.leases)
    && r.world.holders == HoldersOf(r.keys.leases)
    && r.keys.members == r.world.members
    && Stamped(r.keys, r.world)
    && AllNamed(r.keys.lines, r.world.lines)
  }

  /** More lease lines, stamped after every world line, change no earlier word. */
  lemma LeaseLinesKeepNames(k: Leases.Keys, after: Leases.Keys, worldLines: seq<World.Line>)
    requires LeaseLinesAdded(k, after) && AllNamed(k.lines, worldLines)
    requires forall i | 0 <= i < |worldLines| :: worldLines[i].stamp <= k.stamp
    ensures AllNamed(after.lines, worldLines)
  {
    assert after.lines[..|k.lines|] == k.lines;
    forall i | 0 <= i < |worldLines|
      ensures worldLines[i].holder == SaidToHold(after.lines, worldLines[i].authority, worldLines[i].stamp)
    {
      LaterLinesDoNotCount(after.lines, |k.lines|, worldLines[i].stamp);
    }
  }

  /** World lines sent now name whom the leases now hold. */
  lemma WorldLinesAreNamed(k: Leases.Keys, w: World.Custody, v: World.Custody)
    requires Leases.Truthful(k.lines, k.leases) && v.holders == HoldersOf(k.leases)
    requires AllNamed(k.lines, w.lines) && WorldLinesAdded(w, v)
    requires forall i | 0 <= i < |k.lines| :: k.lines[i].state.stamp <= w.stamp
    ensures AllNamed(k.lines, v.lines)
  {
    forall i | 0 <= i < |v.lines|
      ensures v.lines[i].holder == SaidToHold(k.lines, v.lines[i].authority, v.lines[i].stamp)
    {
      if i < |w.lines| {
        assert v.lines[i] == w.lines[i];
      } else {
        AllBefore(k.lines, v.lines[i].stamp);
        assert Leases.LastWord(k.lines, v.lines[i].authority) ==
               if v.lines[i].authority in k.leases then Some(k.leases[v.lines[i].authority]) else None;
      }
    }
  }

  /** A lease step that gives no key to anyone new only takes keys away. */
  lemma OnlyFrees(k: Leases.Keys, op: Leases.Op)
    requires Leases.Legal(k, op) && !Adopts(k, op) && (op.Ask? || op.Expire? || op.Depart? || op.Snapshot?)
    ensures HoldersOf(Leases.Step(k, op).leases) == HoldersOf(k.leases) - Freed(k, op)
    ensures Leases.Step(k, op).members == k.members
  {
    LeaseMembers(k, op);
    var after := Leases.Step(k, op).leases;
    forall key | key in after
      ensures key in k.leases && after[key].holder == k.leases[key].holder
    {
      NothingNew(k, op, key);
      if key in k.leases {
        Leases.OnlyHolderOrTimeFrees(k, op, key);
      }
    }
    hide Leases.Step;
  }

  lemma NothingNew(k: Leases.Keys, op: Leases.Op, key: string)
    requires Leases.Legal(k, op) && !Adopts(k, op) && (op.Ask? || op.Expire? || op.Depart? || op.Snapshot?)
    requires key in Leases.Step(k, op).leases
    ensures key in k.leases
  {
    hide Leases.ClampTTL, Leases.Recount, Leases.FreeAll, Leases.Snapshotting;
    if op.Depart? {
      DepartureOnlyFrees(k, op.order, op.who, op.now);
    }
  }

  lemma {:induction false} DepartureOnlyFrees(r: Leases.Keys, order: seq<string>, who: string, now: int)
    ensures var s := Leases.FreeAll(r, order, who, now); s.leases.Keys <= r.leases.Keys && s.members == r.members
  {
    if order != [] {
      DepartureOnlyFrees(r, Front(order), who, now);
    }
  }

  lemma LeaseMembers(k: Leases.Keys, op: Leases.Op)
    requires Leases.Legal(k, op) && (op.Ask? || op.Expire? || op.Depart? || op.Snapshot?)
    ensures Leases.Step(k, op).members == k.members
  {
    hide Leases.ClampTTL, Leases.Recount, Leases.FreeAll, Leases.Snapshotting;
    if op.Depart? {
      DepartureOnlyFrees(k, op.order, op.who, op.now);
    }
  }

  /** A grant to someone new changes that key alone, and stamps one line before the world's. */
  lemma Grants(k: Leases.Keys, op: Leases.Op)
    requires Leases.Legal(k, op) && Adopts(k, op)
    ensures var s := Leases.Step(k, op);
            && HoldersOf(s.leases) == HoldersOf(k.leases)[op.key := op.from]
            && s.stamp == k.stamp + 1 + op.world && s.members == k.members
            && (forall i | 0 <= i < |s.lines| :: i < |k.lines| || s.lines[i].state.stamp <= k.stamp + 1)
  {
    hide Leases.ClampTTL, Leases.Recount;
  }

  /** A room whose planes agree, after a lease step that adopts nothing. */
  lemma FreeingAgrees(r: Room, op: Op)
    requires Agree(r) && Legal(r, op) && op.OnLeases? && !Adopts(r.keys, op.op)
    requires Leases.Truthful(Leases.Step(r.keys, op.op).lines, Leases.Step(r.keys, op.op).leases)
    ensures Agree(Step(r, op))
  {
    var k := Leases.Step(r.keys, op.op);
    OnlyFrees(r.keys, op.op);
    LeaseStepAdds(r.keys, op.op);
    LeaseLinesKeepNames(r.keys, k, r.world.lines);
    hide AllNamed, Leases.Truthful, Leases.Step, Leases.Legal, Adopts, HoldersOf;
    StampsAfter(r.keys, k, r.world, r.world.(stamp := k.stamp));
  }

  lemma StampsAfter(k: Leases.Keys, l: Leases.Keys, w: World.Custody, v: World.Custody)
    requires Stamped(k, w) && LeaseLinesAdded(k, l) && v.lines == w.lines && v.stamp == l.stamp
    ensures Stamped(l, v)
  {
    assert forall i | 0 <= i < |k.lines| :: l.lines[i] == k.lines[i];
  }

  /** After a grant to someone new, who adopts the world. */
  lemma AdoptionAgrees(r: Room, op: Op)
    requires Agree(r) && Legal(r, op) && op.OnLeases? && Adopts(r.keys, op.op)
    requires Leases.Truthful(Leases.Step(r.keys, op.op).lines, Leases.Step(r.keys, op.op).leases)
    ensures Agree(Step(r, op))
  {
    var k := Leases.Step(r.keys, op.op);
    Grants(r.keys, op.op);
    LeaseStepAdds(r.keys, op.op);
    LeaseLinesKeepNames(r.keys, k, r.world.lines);
    var w := r.world.(stamp := r.world.stamp + 1, holders := r.world.holders[op.op.key := op.op.from]);
    SeededAdds(w, op.op.from, op.batches);
    var v := World.Seeded(w, op.op.from, op.batches);
    assert Step(r, op) == Room(k, v) by {
      AdoptionSteps(r, op);
    }
    GrantStamps(r.keys, k, r.world.stamp);
    hide AllNamed, Leases.Truthful, Leases.Step, Legal, Adopts, HoldersOf, World.Seeded;
    WorldLinesAreNamed(k, w, v);
    WorldStamps(k, w, v);
  }

  lemma AdoptionSteps(r: Room, op: Op)
    requires Legal(r, op) && op.OnLeases? && Adopts(r.keys, op.op)
    ensures var w := r.world.(stamp := r.world.stamp + 1, holders := r.world.holders[op.op.key := op.op.from]);
            Step(r, op) == Room(Leases.Step(r.keys, op.op), World.Seeded(w, op.op.from, op.batches))
  {
    hide Leases.Step, Adopts, World.Seeded, World.Covers;
  }

  lemma GrantStamps(k: Leases.Keys, l: Leases.Keys, stamp: nat)
    requires LeaseLinesAdded(k, l) && k.stamp == stamp
    requires forall i | 0 <= i < |k.lines| :: k.lines[i].state.stamp <= stamp
    requires forall i | 0 <= i < |l.lines| :: i < |k.lines| || l.lines[i].state.stamp <= stamp + 1
    ensures forall i | 0 <= i < |l.lines| :: l.lines[i].state.stamp <= stamp + 1
  {
    assert forall i | 0 <= i < |k.lines| :: l.lines[i] == k.lines[i];
  }

  lemma WorldStamps(k: Leases.Keys, w: World.Custody, v: World.Custody)
    requires WorldLinesAdded(w, v) && v.stamp == k.stamp
    requires forall i | 0 <= i < |k.lines| :: k.lines[i].state.stamp <= w.stamp
    requires forall i | 0 <= i < |w.lines| :: w.lines[i].stamp <= w.stamp
    ensures Stamped(k, v)
  {
    assert forall i | 0 <= i < |w.lines| :: v.lines[i] == w.lines[i];
  }

  /** After a write or a snapshot of the world. */
  lemma WorldAgrees(r: Room, op: Op)
    requires Agree(r) && Legal(r, op) && op.OnWorld?
    ensures Agree(Step(r, op))
  {
    var v := World.Next(r.world, op.step);
    WorldStepAdds(r.world, op.step);
    WorldLinesAreNamed(r.keys, r.world, v);
    var k := r.keys.(stamp := v.stamp);
    assert Step(r, op) == Room(k, v) by {
      hide World.Next, World.Legal;
    }
    hide AllNamed, Leases.Truthful, World.Next, HoldersOf, Legal;
    WorldStamps(k, r.world, v);
  }

  lemma MembersAgree(r: Room, op: Op)
    requires Agree(r) && Legal(r, op) && !op.OnLeases? && !op.OnWorld?
    ensures Agree(Step(r, op))
  {
    hide AllNamed, Leases.Truthful, HoldersOf, World.NewHere, Leases.NewHere;
  }

  lemma StepAgrees(r: Room, op: Op)
    requires Agree(r) && Legal(r, op) && Leases.Inv(r.keys)
    ensures Agree(Step(r, op))
  {
    if op.OnLeases? {
      Leases.StepKeeps(r.keys, op.op);
      hide Agree, Step, Legal, Leases.Step, Adopts;
      TruthIsKept(Leases.Step(r.keys, op.op));
      if Adopts(r.keys, op.op) {
        AdoptionAgrees(r, op);
      } else {
        FreeingAgrees(r, op);
      }
    } else if op.OnWorld? {
      WorldAgrees(r, op);
    } else {
      MembersAgree(r, op);
    }
  }

  lemma TruthIsKept(k: Leases.Keys)
    requires Leases.Inv(k)
    ensures Leases.Truthful(k.lines, k.leases)
  {
  }

  lemma {:induction false} RunAgrees(ops: seq<Op>)
    requires LegalRun(ops)
    ensures Agree(Run(ops))
  {
    if ops != [] {
      RunAgrees(Front(ops));
      RoomRefinesPlanes(Front(ops));
      Leases.RunKeeps(LeaseRun(Front(ops)));
      hide Agree, Step, Legal;
      StepAgrees(Run(Front(ops)), Last(ops));
    }
  }

  // ----- Who writes -----

  /**
    In every run, whatever leases are granted, renewed, freed or run out meanwhile, every world line names exactly whom
    the lease lines stamped before it last said holds its authority; so a write that went out is that holder's.
   */
  lemma WritersHoldTheLease(ops: seq<Op>, i: nat)
    requires LegalRun(ops) && i < |Run(ops).world.lines|
    ensures var r := Run(ops);
            var l := r.world.lines[i];
            l.holder == SaidToHold(r.keys.lines, l.authority, l.stamp)
  {
    RunAgrees(ops);
    hide SaidToHold, Run, LegalRun;
  }

  /** A write is answered as denied if and only if the writer is not whom the lease lines last said holds the authority,
      and changes nothing then; a stale holder is told who that is. */
  ghost predicate JudgedByLeases(r: Room, from: string, e: World.Entity, op: World.Op, reliable: bool) {
    var v := World.Writing(r.world, from, e, op, reliable);
    var said := SaidToHold(r.keys.lines, e.authority, r.keys.stamp + 1);
    && (v.lines == r.world.lines + [Denial(e, said, r.world.stamp + 1, from)] <==> said != from)
    && (said != from ==> v.world == r.world.world)
  }

  function Denial(e: World.Entity, holder: string, stamp: nat, from: string): World.Line {
    World.Line(e.authority, holder, stamp, [], World.Denied, {from}, false)
  }

  lemma JudgedWhereAgreed(r: Room, from: string, e: World.Entity, op: World.Op, reliable: bool)
    requires Agree(r) && from != ""
    ensures JudgedByLeases(r, from, e, op, reliable)
  {
    SaidNow(r, e.authority);
    hide Agree, SaidToHold;
    DeniedUnlessHolder(r.world, from, e, op, reliable);
    hide World.Writing, World.Holder;
  }

  /** In every reachable room writes are judged by what the leases last said. */
  lemma DeniedIffNotHolder(ops: seq<Op>, from: string, e: World.Entity, op: World.Op, reliable: bool)
    requires LegalRun(ops) && from != ""
    ensures JudgedByLeases(Run(ops), from, e, op, reliable)
  {
    RunAgrees(ops);
    hide Agree, JudgedByLeases, Run, LegalRun;
    JudgedWhereAgreed(Run(ops), from, e, op, reliable);
  }

  lemma SaidNow(r: Room, authority: string)
    requires Agree(r)
    ensures SaidToHold(r.keys.lines, authority, r.keys.stamp + 1) == World.Holder(r.world, authority)
  {
    AllBefore(r.keys.lines, r.keys.stamp + 1);
    assert Leases.LastWord(r.keys.lines, authority) ==
           if authority in r.keys.leases then Some(r.keys.leases[authority]) else None;
  }

  lemma DeniedUnlessHolder(w: World.Custody, from: string, e: World.Entity, op: World.Op, reliable: bool)
    requires from != ""
    ensures var v := World.Writing(w, from, e, op, reliable);
            var said := World.Holder(w, e.authority);
            && (v.lines == w.lines + [Denial(e, said, w.stamp + 1, from)] <==> said != from)
            && (said != from ==> v.world == w.world)
  {
    var denial := Denial(e, World.Holder(w, e.authority), w.stamp + 1, from);
    assert (w.lines + [denial])[|w.lines|] == denial;
  }

  /** Whoever the lease lines last said holds the authority has its write heeded, and every member but it is told. */
  ghost predicate HeedsNamed(r: Room, from: string, e: World.Entity, op: World.Op, reliable: bool) {
    SaidToHold(r.keys.lines, e.authority, r.keys.stamp + 1) == from ==>
      && r.world.members == r.keys.members
      && World.Heeds(r.world, World.Writing(r.world, from, e, op, reliable), from, e, op, reliable)
  }

  lemma HeededWhereAgreed(r: Room, from: string, e: World.Entity, op: World.Op, reliable: bool)
    requires Agree(r) && from != ""
    ensures HeedsNamed(r, from, e, op, reliable)
  {
    SaidNow(r, e.authority);
    hide SaidToHold, AllNamed, Stamped, World.Heeds, Leases.Truthful, World.Writing;
    if World.Holder(r.world, e.authority) == from {
      World.HolderIsHeeded(r.world, from, e, op, reliable);
    }
  }

  /** In every reachable room the holder the leases name is heeded. */
  lemma NamedHolderIsHeeded(ops: seq<Op>, from: string, e: World.Entity, op: World.Op, reliable: bool)
    requires LegalRun(ops) && from != ""
    ensures HeedsNamed(Run(ops), from, e, op, reliable)
  {
    RunAgrees(ops);
    hide Agree, HeedsNamed, Run, LegalRun;
    HeededWhereAgreed(Run(ops), from, e, op, reliable);
  }

  /**
    One writer at a time: between two writes to one authority by different members, the lease lines tell the room that
    the key was free.
   */
  lemma OneWriterAtATime(ops: seq<Op>, i: nat, j: nat)
    requires LegalRun(ops) && i < j < |Run(ops).world.lines|
    requires var a, b := Run(ops).world.lines[i], Run(ops).world.lines[j];
             a.authority == b.authority && a.holder != b.holder && a.holder != ""
    ensures var r := Run(ops);
            var a, b := r.world.lines[i], r.world.lines[j];
            exists n | 0 <= n < |r.keys.lines| ::
              && r.keys.lines[n].state.key == a.authority && Leases.Free(r.keys.lines[n].state.reason)
              && a.stamp <= r.keys.lines[n].state.stamp < b.stamp
  {
    var r := Run(ops);
    var a, b := r.world.lines[i], r.world.lines[j];
    RoomRefinesPlanes(ops);
    Leases.RunKeeps(LeaseRun(ops));
    World.RunKeeps(WorldRun(ops));
    assert a.stamp < b.stamp;
    WritersHoldTheLease(ops, i);
    WritersHoldTheLease(ops, j);
    hide Run, LegalRun;
    HolderChanges(r.keys.lines, a.authority, a.stamp, b.stamp);
  }

  /** A grant goes to the holder named so far, or to anyone when nobody is. */
  lemma GrantFollows(lines: seq<Leases.Line>, t: nat)
    requires Leases.Proper(lines) && lines != []
    requires Last(lines).state.stamp < t && Last(lines).state.reason == Leases.Granted
    ensures SaidToHold(Front(lines), Last(lines).state.key, t) in {"", Last(lines).state.holder}
  {
    forall i | 0 <= i < |Front(lines)|
      ensures Front(lines)[i].state.stamp < t
    {
      Leases.StampsIncrease(lines, i, |lines| - 1);
    }
    AllBefore(Front(lines), t);
  }

  /** The last word changes hands only by way of a freeing line. */
  lemma {:induction false} HolderChanges(lines: seq<Leases.Line>, key: string, s: nat, t: nat)
    requires Leases.Proper(lines) && s < t
    requires SaidToHold(lines, key, s) != "" && SaidToHold(lines, key, t) != SaidToHold(lines, key, s)
    ensures exists n | 0 <= n < |lines| ::
              && lines[n].state.key == key && Leases.Free(lines[n].state.reason) && s <= lines[n].state.stamp < t
  {
    var l := Last(lines);
    var rest := Front(lines);
    assert l == lines[|lines| - 1];
    if l.state.stamp < t && l.state.key == key && Leases.Free(l.state.reason) && s <= l.state.stamp {
    } else {
      LastDecides(lines, key, s);
      LastDecides(lines, key, t);
      if l.state.stamp < t && l.state.key == key && l.state.reason == Leases.Granted {
        GrantFollows(lines, t);
      }
      hide SaidToHold;
      HolderChanges(rest, key, s, t);
      var n :| 0 <= n < |rest| && rest[n].state.key == key && Leases.Free(rest[n].state.reason)
               && s <= rest[n].state.stamp < t;
      assert lines[n] == rest[n];
    }
  }

  /** What the last line adds to the word before s. */
  lemma LastDecides(lines: seq<Leases.Line>, key: string, s: nat)
    requires Leases.Proper(lines) && lines != []
    ensures var l := Last(lines);
            SaidToHold(lines, key, s) ==
            if l.state.stamp >= s || l.state.key != key then SaidToHold(Front(lines), key, s)
            else if l.state.reason == Leases.Granted then l.state.holder
            else if Leases.Free(l.state.reason) then "" else SaidToHold(Front(lines), key, s)
  {
    Leases.LastWordAfter(Before(Front(lines), s), Last(lines), key);
    assert Before(Front(lines), s) + [] == Before(Front(lines), s);
  }
}
