/**
  Who may have a ghost (core/remotes.go, core/remotenames.go, core/localpeer.go, core/relaysession.go): seats, buffers,
  names and the peers aged out for silence, for the relay's ids and for the ghosts this core invents. A step is one
  critical section; a message that takes the lock several times is several steps.
 */
module Admission {
  import opened Lists
  import Wire
  import JsonText

  const MAX_SEATS: nat := 512
  const MAX_ID_BYTES: nat := 128

  /** A Go string, one char a byte here. */
  type Id = string

  /** A sanitized name; the empty one is no name. */
  type Tag = string

  function Bytes(id: Id): Wire.Text {
    seq(|id|, i requires 0 <= i < |id| => id[i] as int % 256)
  }

  predicate IsLocal(id: Id) {
    "replay:" <= id || "chaser:" <= id
  }

  /** The shape a relay-announced id must have. */
  predicate Acceptable(id: Id) {
    id != "" && |id| <= MAX_ID_BYTES && JsonText.ValidUtf8(Bytes(id)) && !IsLocal(id)
  }

  /** A peer's buffer: its newest sample's timestamp and when one last arrived here. */
  datatype Heard = Heard(newest: int, arrived: int)

  /**
    roster maps a seated id to when it was seated. The rest after welcomed is kept for the proof: announced are the
    relay ids named since the last reset and not gone since; naming are the ids whose name is on its way, each looked
    up in the roster already; leaving are those whose buffer is yet to be dropped after the seat went; gaps counts the
    sessions forgotten whose buffers are yet to be dropped.
   */
  datatype Peers = Peers(
    roster: map<Id, int>,
    remotes: map<Id, Heard>,
    agedOut: set<Id>,
    names: map<Id, Tag>,
    locals: set<Id>,
    me: Id,
    welcomed: bool,
    announced: set<Id>,
    naming: multiset<Id>,
    leaving: multiset<Id>,
    gaps: nat)

  const NOBODY := Peers(map[], map[], {}, map[], {}, "", false, {}, multiset{}, multiset{}, 0)

  function Seats(roster: map<Id, int>, local: bool): set<Id> {
    set id | id in roster && IsLocal(id) == local
  }

  // ----- Admission -----

  predicate CanSeat(roster: map<Id, int>, id: Id) {
    id in roster || |roster| < MAX_SEATS || |Seats(roster, IsLocal(id))| < MAX_SEATS
  }

  function Seated(roster: map<Id, int>, id: Id, now: int): map<Id, int> {
    if id !in roster && CanSeat(roster, id) then roster[id := now] else roster
  }

  /** The Welcome's roster, merged: an unusable id is passed over, a full roster ends it. */
  function Merged(roster: map<Id, int>, ids: seq<Id>, now: int): map<Id, int>
    decreases |ids|
  {
    if ids == [] then roster
    else if !Acceptable(ids[0]) then Merged(roster, ids[1..], now)
    else if !CanSeat(roster, ids[0]) then roster
    else Merged(Seated(roster, ids[0], now), ids[1..], now)
  }

  function Named(names: map<Id, Tag>, id: Id, tag: Tag): map<Id, Tag> {
    if tag == "" then names - {id} else names[id := tag]
  }

  // ----- States -----

  /** A state that passed validation: from a stranger it is dropped, from one aged out it retakes a seat. */
  function Stored(p: Peers, id: Id, newest: int, now: int): Peers {
    if id == "" || id == p.me then p
    else if id in p.roster then p.(remotes := p.remotes[id := Heard(newest, now)])
    else if id in p.agedOut && CanSeat(p.roster, id) then
      p.(roster := Seated(p.roster, id, now), agedOut := p.agedOut - {id},
         remotes := p.remotes[id := Heard(newest, now)])
    else p
  }

  // ----- Silence -----

  /** Silence took id's seat. A full memory forgets the peer, name too. */
  function Remember(p: Peers, id: Id): Peers {
    if |p.agedOut| >= MAX_SEATS then p.(names := p.names - {id}) else p.(agedOut := p.agedOut + {id})
  }

  predicate Seatless(roster: map<Id, int>, remotes: map<Id, Heard>, id: Id, cutoff: int) {
    id in roster && roster[id] != 0 && roster[id] < cutoff && !IsLocal(id) && id !in remotes
  }

  predicate Silent(remotes: map<Id, Heard>, id: Id, cutoff: int) {
    id in remotes && !IsLocal(id) && (remotes[id].newest < cutoff || remotes[id].arrived < cutoff)
  }

  function SweptOne(p: Peers, id: Id, cutoff: int): Peers {
    if Seatless(p.roster, p.remotes, id, cutoff) then Remember(p.(roster := p.roster - {id}), id) else p
  }

  function AgedOne(p: Peers, id: Id, cutoff: int): Peers {
    if Silent(p.remotes, id, cutoff) then Remember(p.(remotes := p.remotes - {id}, roster := p.roster - {id}), id)
    else p
  }

  /** The seats no state ever stood behind, in the order the roster is walked. */
  function Swept(p: Peers, order: seq<Id>, cutoff: int): Peers {
    if order == [] then p else SweptOne(Swept(p, Front(order), cutoff), Last(order), cutoff)
  }

  /** The peers nobody hears from, in the order the buffers are walked. */
  function Aged(p: Peers, order: seq<Id>, cutoff: int): Peers {
    if order == [] then p else AgedOne(Aged(p, Front(order), cutoff), Last(order), cutoff)
  }

  // ----- Steps -----

  /**
    Merge is a Welcome's roster, Keep the look at the roster that decides which of its names to store, Name one name
    stored. Join seats an arrival; its name and its seed are a Name and a State. Leave and DropLocal take the seat and
    Drop the buffer; Forget ends a session and DropAll drops its buffers. Reseat and LocalState are a local feed.
   */
  datatype Op =
    | Merge(id: Id, roster: seq<Id>, now: int)
    | Keep(ids: set<Id>)
    | Name(id: Id, tag: Tag)
    | Identify(id: Id)
    | Join(id: Id, now: int)
    | State(id: Id, newest: int, now: int)
    | Leave(id: Id)
    | Drop(id: Id)
    | Tick(cutoff: int, sweep: seq<Id>, age: seq<Id>)
    | AdmitLocal(id: Id, now: int)
    | Reseat(id: Id, now: int)
    | LocalState(id: Id, newest: int, now: int)
    | DropLocal(id: Id)
    | Forget
    | DropAll

  function Merging(p: Peers, id: Id, ids: seq<Id>, now: int): Peers {
    if !Acceptable(id) then p
    else
      p.(welcomed := true, roster := Merged(p.roster, ids, now),
         announced := p.announced + (set k | k in ids && Acceptable(k)))
  }

  function Keeping(p: Peers, ids: set<Id>): Peers {
    p.(naming := p.naming + multiset(ids * p.roster.Keys))
  }

  function Naming(p: Peers, id: Id, tag: Tag): Peers {
    p.(names := Named(p.names, id, tag), naming := p.naming - multiset{id})
  }

  function Joining(p: Peers, id: Id, now: int): Peers {
    if !Acceptable(id) then p
    else
      var q := p.(announced := p.announced + {id});
      if !CanSeat(p.roster, id) then q
      else q.(roster := Seated(p.roster, id, now), naming := p.naming + multiset{id})
  }

  function Leaving(p: Peers, id: Id): Peers {
    if !Acceptable(id) then p
    else
      p.(roster := p.roster - {id}, names := p.names - {id}, agedOut := p.agedOut - {id},
         announced := p.announced - {id}, leaving := p.leaving + multiset{id})
  }

  function Dropping(p: Peers, id: Id): Peers {
    p.(remotes := p.remotes - {id}, leaving := p.leaving - multiset{id})
  }

  function AdmittingLocal(p: Peers, id: Id, now: int): Peers {
    if !CanSeat(p.roster, id) then p
    else p.(roster := Seated(p.roster, id, now), locals := p.locals + {id}, naming := p.naming + multiset{id})
  }

  function Reseating(p: Peers, id: Id, now: int): Peers {
    if id in p.locals then p.(roster := Seated(p.roster, id, now)) else p
  }

  function DroppingLocal(p: Peers, id: Id): Peers {
    p.(roster := p.roster - {id}, names := p.names - {id}, locals := p.locals - {id},
       leaving := p.leaving + multiset{id})
  }

  function OwnNames(names: map<Id, Tag>): map<Id, Tag> {
    map id | id in names && IsLocal(id) :: names[id]
  }

  /** A relay session ends: its ids mean nothing any more. The names of our own ghosts stay. */
  function Forgetting(p: Peers): Peers {
    p.(roster := map[], agedOut := {}, names := OwnNames(p.names),
       me := "", welcomed := false, announced := {}, gaps := p.gaps + 1)
  }

  function DroppingAll(p: Peers): Peers
    requires p.gaps > 0
  {
    p.(remotes := map[], gaps := p.gaps - 1)
  }

  /** Local steps carry local ids, and a later section of a message follows its earlier one. */
  predicate Legal(p: Peers, op: Op) {
    match op
    case Name(id, _) => id in p.naming
    case Drop(id) => id in p.leaving
    case AdmitLocal(id, _) => IsLocal(id)
    case Reseat(id, _) => IsLocal(id)
    case LocalState(id, _, _) => IsLocal(id)
    case DropLocal(id) => IsLocal(id)
    case DropAll => p.gaps > 0
    case _ => true
  }

  function Step(p: Peers, op: Op): Peers
    requires Legal(p, op)
  {
    match op
    case Merge(id, roster, now) => Merging(p, id, roster, now)
    case Keep(ids) => Keeping(p, ids)
    case Name(id, tag) => Naming(p, id, tag)
    case Identify(id) => p.(me := id)
    case Join(id, now) => Joining(p, id, now)
    case State(id, newest, now) => if Acceptable(id) then Stored(p, id, newest, now) else p
    case Leave(id) => Leaving(p, id)
    case Drop(id) => Dropping(p, id)
    case Tick(cutoff, sweep, age) => Aged(Swept(p, sweep, cutoff), age, cutoff)
    case AdmitLocal(id, now) => AdmittingLocal(p, id, now)
    case Reseat(id, now) => Reseating(p, id, now)
    case LocalState(id, newest, now) => Stored(p, id, newest, now)
    case DropLocal(id) => DroppingLocal(p, id)
    case Forget => Forgetting(p)
    case DropAll => DroppingAll(p)
  }

  // ----- What every step keeps -----

  ghost predicate SeatsBounded(roster: map<Id, int>) {
    |Seats(roster, true)| <= MAX_SEATS && |Seats(roster, false)| <= MAX_SEATS
  }

  ghost predicate AgedOk(agedOut: set<Id>) {
    |agedOut| <= MAX_SEATS && forall id | id in agedOut :: !IsLocal(id)
  }

  /** Every buffer has a seat, or is about to be dropped. */
  ghost predicate BuffersOk(p: Peers) {
    forall id | id in p.remotes :: id in p.roster || id in p.leaving || p.gaps > 0
  }

  ghost predicate Inv(p: Peers) {
    SeatsBounded(p.roster) && AgedOk(p.agedOut) && BuffersOk(p)
  }

  lemma SeatsAfter(roster: map<Id, int>, id: Id, now: int)
    requires id !in roster
    ensures Seats(roster[id := now], IsLocal(id)) == Seats(roster, IsLocal(id)) + {id}
    ensures Seats(roster[id := now], !IsLocal(id)) == Seats(roster, !IsLocal(id))
  {
    hide IsLocal;
  }

  lemma SeatingBounded(roster: map<Id, int>, id: Id, now: int)
    requires SeatsBounded(roster)
    ensures SeatsBounded(Seated(roster, id, now))
  {
    hide IsLocal;
    if id !in roster && CanSeat(roster, id) {
      SubsetSize(Seats(roster, IsLocal(id)), roster.Keys);
      SeatsAfter(roster, id, now);
      hide Seats;
      assert |Seats(roster, IsLocal(id)) + {id}| <= |Seats(roster, IsLocal(id))| + 1;
    }
  }

  lemma UnseatingBounded(roster: map<Id, int>, id: Id)
    requires SeatsBounded(roster)
    ensures SeatsBounded(roster - {id})
  {
    hide IsLocal;
    SubsetSize(Seats(roster - {id}, true), Seats(roster, true));
    SubsetSize(Seats(roster - {id}, false), Seats(roster, false));
  }

  lemma NobodySeated()
    ensures SeatsBounded(map[])
  {
    assert Seats(map[], true) == {} == Seats(map[], false);
  }

  lemma {:induction false} MergingBounded(roster: map<Id, int>, ids: seq<Id>, now: int)
    requires SeatsBounded(roster)
    ensures SeatsBounded(Merged(roster, ids, now))
    ensures roster.Keys <= Merged(roster, ids, now).Keys
    ensures forall k | k in Merged(roster, ids, now) :: k in roster || (k in ids && Acceptable(k))
    decreases |ids|
  {
    if ids != [] {
      hide SeatsBounded, Acceptable;
      SeatingBounded(roster, ids[0], now);
      MergingBounded(roster, ids[1..], now);
      if CanSeat(roster, ids[0]) {
        MergingBounded(Seated(roster, ids[0], now), ids[1..], now);
      }
    }
  }

  lemma StoredKeeps(p: Peers, id: Id, newest: int, now: int)
    requires Inv(p)
    ensures Inv(Stored(p, id, newest, now))
  {
    hide SeatsBounded, IsLocal;
    SeatingBounded(p.roster, id, now);
    SubsetSize(p.agedOut - {id}, p.agedOut);
  }

  lemma RememberKeeps(p: Peers, id: Id)
    requires Inv(p) && !IsLocal(id)
    ensures Inv(Remember(p, id))
  {
    hide SeatsBounded, IsLocal;
    assert |p.agedOut + {id}| <= |p.agedOut| + 1;
  }

  lemma SweptOneKeeps(p: Peers, id: Id, cutoff: int)
    requires Inv(p)
    ensures Inv(SweptOne(p, id, cutoff)) && SweptOne(p, id, cutoff).gaps == p.gaps
  {
    if Seatless(p.roster, p.remotes, id, cutoff) {
      hide SeatsBounded, AgedOk, IsLocal;
      UnseatingBounded(p.roster, id);
      RememberKeeps(p.(roster := p.roster - {id}), id);
    }
  }

  lemma AgedOneKeeps(p: Peers, id: Id, cutoff: int)
    requires Inv(p)
    ensures Inv(AgedOne(p, id, cutoff)) && AgedOne(p, id, cutoff).gaps == p.gaps
  {
    if Silent(p.remotes, id, cutoff) {
      hide SeatsBounded, AgedOk, IsLocal;
      UnseatingBounded(p.roster, id);
      RememberKeeps(p.(remotes := p.remotes - {id}, roster := p.roster - {id}), id);
    }
  }

  lemma {:induction false} TickKeeps(p: Peers, order: seq<Id>, cutoff: int)
    requires Inv(p)
    ensures Inv(Swept(p, order, cutoff)) && Inv(Aged(p, order, cutoff))
  {
    if order != [] {
      TickKeeps(p, Front(order), cutoff);
      hide Inv, SweptOne, AgedOne;
      SweptOneKeeps(Swept(p, Front(order), cutoff), Last(order), cutoff);
      AgedOneKeeps(Aged(p, Front(order), cutoff), Last(order), cutoff);
    }
  }

  lemma MergingKeeps(p: Peers, id: Id, ids: seq<Id>, now: int)
    requires Inv(p)
    ensures Inv(Merging(p, id, ids, now))
  {
    hide SeatsBounded, Acceptable, AgedOk;
    MergingBounded(p.roster, ids, now);
  }

  lemma SeatingKeeps(p: Peers, id: Id, now: int)
    requires Inv(p)
    ensures Inv(Joining(p, id, now)) && Inv(AdmittingLocal(p, id, now)) && Inv(Reseating(p, id, now))
  {
    hide SeatsBounded, Acceptable, AgedOk, CanSeat;
    SeatingBounded(p.roster, id, now);
    SeatedHolds(p.roster, id, now);
    hide Seated;
  }

  lemma SeatedHolds(roster: map<Id, int>, id: Id, now: int)
    ensures roster.Keys <= Seated(roster, id, now).Keys <= roster.Keys + {id}
    ensures CanSeat(roster, id) ==> id in Seated(roster, id, now)
  {
    hide IsLocal, Seats;
  }

  lemma GoingKeeps(p: Peers, id: Id)
    requires Inv(p)
    ensures Inv(Leaving(p, id)) && Inv(DroppingLocal(p, id)) && Inv(Dropping(p, id))
  {
    hide SeatsBounded, IsLocal, Acceptable;
    UnseatingBounded(p.roster, id);
    SubsetSize(p.agedOut - {id}, p.agedOut);
  }

  lemma ResetKeeps(p: Peers)
    requires Inv(p)
    ensures Inv(Forgetting(p)) && (p.gaps > 0 ==> Inv(DroppingAll(p)))
  {
    hide SeatsBounded, IsLocal;
    NobodySeated();
  }

  lemma StepKeeps(p: Peers, op: Op)
    requires Inv(p) && Legal(p, op)
    ensures Inv(Step(p, op))
  {
    hide Inv, Stored, Swept, Aged, Merging, Joining, Leaving, Dropping, AdmittingLocal, Reseating, DroppingLocal;
    hide Forgetting, DroppingAll, Acceptable, IsLocal;
    match op {
      case Merge(id, roster, now) => MergingKeeps(p, id, roster, now);
      case Join(id, now) => SeatingKeeps(p, id, now);
      case AdmitLocal(id, now) => SeatingKeeps(p, id, now);
      case Reseat(id, now) => SeatingKeeps(p, id, now);
      case State(id, newest, now) => StoredKeeps(p, id, newest, now);
      case LocalState(id, newest, now) => StoredKeeps(p, id, newest, now);
      case Tick(cutoff, sweep, age) =>
        TickKeeps(p, sweep, cutoff);
        TickKeeps(Swept(p, sweep, cutoff), age, cutoff);
      case Leave(id) => GoingKeeps(p, id);
      case DropLocal(id) => GoingKeeps(p, id);
      case Drop(id) => GoingKeeps(p, id);
      case Forget => ResetKeeps(p);
      case DropAll => ResetKeeps(p);
      case Name(id, tag) => OthersKeep(p, id, tag, {});
      case Keep(ids) => OthersKeep(p, "", "", ids);
      case Identify(id) => OthersKeep(p, id, "", {});
    }
  }

  lemma OthersKeep(p: Peers, id: Id, tag: Tag, ids: set<Id>)
    requires Inv(p)
    ensures Inv(Naming(p, id, tag)) && Inv(Keeping(p, ids)) && Inv(p.(me := id))
  {
  }

  // ----- Every run -----

  predicate LegalRun(ops: seq<Op>)
    decreases |ops|, 0
  {
    ops == [] || (LegalRun(Front(ops)) && Legal(Run(Front(ops)), Last(ops)))
  }

  function Run(ops: seq<Op>): Peers
    requires LegalRun(ops)
    decreases |ops|, 1
  {
    if ops == [] then NOBODY else Step(Run(Front(ops)), Last(ops))
  }

  lemma {:induction false} RunKeeps(ops: seq<Op>)
    requires LegalRun(ops)
    ensures Inv(Run(ops))
  {
    if ops == [] {
      NobodySeated();
    } else {
      RunKeeps(Front(ops));
      hide Inv, Step;
      StepKeeps(Run(Front(ops)), Last(ops));
    }
  }

  /**
    In every reachable state each kind of id holds at most 512 seats; the memory of the silent holds relay ids only, at
    most 512; and every buffer has a seat, but for those whose seat just went and that are about to be dropped.
   */
  lemma SeatAccounting(ops: seq<Op>)
    requires LegalRun(ops)
    ensures var p := Run(ops);
            && |Seats(p.roster, true)| <= MAX_SEATS && |Seats(p.roster, false)| <= MAX_SEATS
            && |p.agedOut| <= MAX_SEATS && (forall id | id in p.agedOut :: !IsLocal(id))
            && (forall id | id in p.remotes :: id in p.roster || id in p.leaving || p.gaps > 0)
  {
    RunKeeps(ops);
    hide Run, LegalRun, Seats, IsLocal;
  }

  // ----- Names -----

  /** Every relay name has a seat or a memory. */
  ghost predicate NamesOk(names: map<Id, Tag>, roster: map<Id, int>, agedOut: set<Id>) {
    forall id | id in names && !IsLocal(id) :: id in roster || id in agedOut
  }

  ghost predicate NamesBacked(p: Peers) {
    NamesOk(p.names, p.roster, p.agedOut)
  }

  /** A name is stored for a relay id that lost its seat while the name was on its way. */
  predicate Orphans(p: Peers, op: Op) {
    op.Name? && op.tag != "" && !IsLocal(op.id) && op.id !in p.roster && op.id !in p.agedOut
  }

  lemma NamingBacked(p: Peers, id: Id, tag: Tag)
    requires NamesBacked(p)
    ensures NamesBacked(Naming(p, id, tag)) <==> !Orphans(p, Name(id, tag))
  {
    hide IsLocal;
    if Orphans(p, Name(id, tag)) {
      assert id in Naming(p, id, tag).names;
    }
  }

  lemma SilenceBacked(p: Peers, id: Id, cutoff: int)
    requires NamesBacked(p)
    ensures NamesBacked(SweptOne(p, id, cutoff)) && NamesBacked(AgedOne(p, id, cutoff))
  {
    hide IsLocal;
  }

  lemma {:induction false} TickBacked(p: Peers, order: seq<Id>, cutoff: int)
    requires NamesBacked(p)
    ensures NamesBacked(Swept(p, order, cutoff)) && NamesBacked(Aged(p, order, cutoff))
  {
    if order != [] {
      TickBacked(p, Front(order), cutoff);
      hide NamesBacked, SweptOne, AgedOne;
      SilenceBacked(Swept(p, Front(order), cutoff), Last(order), cutoff);
      SilenceBacked(Aged(p, Front(order), cutoff), Last(order), cutoff);
    }
  }

  lemma StoredBacked(p: Peers, id: Id, newest: int, now: int)
    requires NamesBacked(p)
    ensures NamesBacked(Stored(p, id, newest, now))
  {
    hide IsLocal, CanSeat;
    SeatedHolds(p.roster, id, now);
    hide Seated;
  }

  lemma SeatingBacked(p: Peers, id: Id, now: int)
    requires NamesBacked(p)
    ensures NamesBacked(Joining(p, id, now)) && NamesBacked(AdmittingLocal(p, id, now))
    ensures NamesBacked(Reseating(p, id, now))
  {
    hide IsLocal, Acceptable, CanSeat;
    SeatedHolds(p.roster, id, now);
    hide Seated;
  }

  lemma GoingBacked(p: Peers, id: Id)
    requires NamesBacked(p)
    ensures NamesBacked(Leaving(p, id)) && NamesBacked(Forgetting(p))
    ensures IsLocal(id) ==> NamesBacked(DroppingLocal(p, id))
  {
    hide IsLocal, Acceptable;
  }

  lemma MergingBacked(p: Peers, id: Id, ids: seq<Id>, now: int)
    requires NamesBacked(p) && SeatsBounded(p.roster)
    ensures NamesBacked(Merging(p, id, ids, now))
  {
    MergingBounded(p.roster, ids, now);
    hide IsLocal, Acceptable, Merged, SeatsBounded;
  }

  /** A step leaves every relay name with a seat or a memory if and only if it stores none for an id without either. */
  lemma StepBacked(p: Peers, op: Op)
    requires Inv(p) && Legal(p, op) && NamesBacked(p)
    ensures NamesBacked(Step(p, op)) <==> !Orphans(p, op)
  {
    hide NamesBacked, Orphans, Stored, Swept, Aged, Merging, Naming, Joining, Leaving, AdmittingLocal, Reseating;
    hide DroppingLocal, Forgetting, Acceptable, IsLocal, SeatsBounded;
    OnlyNamesOrphan(p, op);
    match op {
      case Name(id, tag) => NamingBacked(p, id, tag);
      case Merge(id, roster, now) => MergingBacked(p, id, roster, now);
      case Join(id, now) => SeatingBacked(p, id, now);
      case AdmitLocal(id, now) => SeatingBacked(p, id, now);
      case Reseat(id, now) => SeatingBacked(p, id, now);
      case State(id, newest, now) => StoredBacked(p, id, newest, now);
      case LocalState(id, newest, now) => StoredBacked(p, id, newest, now);
      case Tick(cutoff, sweep, age) =>
        TickBacked(p, sweep, cutoff);
        TickBacked(Swept(p, sweep, cutoff), age, cutoff);
      case Leave(id) => GoingBacked(p, id);
      case DropLocal(id) => GoingBacked(p, id);
      case Forget => GoingBacked(p, "");
      case _ => UnnamedBacked(p, op);
    }
  }

  lemma OnlyNamesOrphan(p: Peers, op: Op)
    ensures Orphans(p, op) ==> op.Name?
  {
  }

  lemma UnnamedBacked(p: Peers, op: Op)
    requires NamesBacked(p) && Legal(p, op) && (op.Keep? || op.Identify? || op.Drop? || op.DropAll?)
    ensures NamesBacked(Step(p, op))
  {
  }

  /** In every state of the run every relay name has a seat or a memory. */
  ghost predicate AlwaysBacked(ops: seq<Op>)
    requires LegalRun(ops)
  {
    NamesBacked(Run(ops)) && (ops == [] || AlwaysBacked(Front(ops)))
  }

  /** No step of the run stores a name for an id that lost its seat while the name was on its way. */
  predicate NeverOrphans(ops: seq<Op>)
    requires LegalRun(ops)
  {
    ops == [] || (NeverOrphans(Front(ops)) && !Orphans(Run(Front(ops)), Last(ops)))
  }

  /** Throughout a run every relay name has a seat or a memory if and only if no name lands after its seat has gone. */
  lemma {:induction false} NamesNeedTheirSeat(ops: seq<Op>)
    requires LegalRun(ops)
    ensures AlwaysBacked(ops) <==> NeverOrphans(ops)
  {
    if ops != [] {
      NamesNeedTheirSeat(Front(ops));
      RunKeeps(Front(ops));
      hide Inv, NamesBacked, Orphans, Step;
      if NeverOrphans(Front(ops)) {
        StepBacked(Run(Front(ops)), Last(ops));
      }
    }
  }

  // ----- Strangers -----

  /** Every relay id that has a seat or a memory was announced since the last reset and has not left; so was every one
      that has a buffer not about to be dropped. */
  ghost predicate AllAnnounced(p: Peers) {
    && (forall id | id in p.roster && !IsLocal(id) :: id in p.announced)
    && (forall id | id in p.agedOut :: id in p.announced)
    && (forall id | id in p.remotes && !IsLocal(id) :: id in p.announced || id in p.leaving || p.gaps > 0)
  }

  /** Ageing id out remembers nobody but an announced peer: the age-out finds no silent buffer left behind by one that
      is gone, or the memory is full. */
  predicate Spares(p: Peers, id: Id, cutoff: int) {
    Silent(p.remotes, id, cutoff) && |p.agedOut| < MAX_SEATS ==> id in p.announced
  }

  /** So does the whole walk. */
  predicate SparesAll(p: Peers, order: seq<Id>, cutoff: int) {
    order == [] || (SparesAll(p, Front(order), cutoff) && Spares(Aged(p, Front(order), cutoff), Last(order), cutoff))
  }

  predicate Harmless(p: Peers, op: Op) {
    op.Tick? ==> SparesAll(Swept(p, op.sweep, op.cutoff), op.age, op.cutoff)
  }

  /** Ageing a buffer out keeps strangers out if and only if it is an announced peer's, or leaves no memory. */
  lemma AgedOneAnnounced(p: Peers, id: Id, cutoff: int)
    requires AllAnnounced(p)
    ensures AllAnnounced(AgedOne(p, id, cutoff)) <==> Spares(p, id, cutoff)
  {
    hide IsLocal;
    if !Spares(p, id, cutoff) {
      assert id in AgedOne(p, id, cutoff).agedOut;
    }
  }

  lemma AgedOneOnlyRemembers(p: Peers, id: Id, cutoff: int)
    ensures var a := AgedOne(p, id, cutoff); p.agedOut <= a.agedOut && a.announced == p.announced
    ensures var s := SweptOne(p, id, cutoff); p.agedOut <= s.agedOut && s.announced == p.announced
  {
    hide IsLocal;
  }

  ghost predicate MemoryAnnounced(p: Peers) {
    forall id | id in p.agedOut :: id in p.announced
  }

  lemma {:induction false} AgedAnnounced(p: Peers, order: seq<Id>, cutoff: int)
    requires AllAnnounced(p)
    ensures AllAnnounced(Aged(p, order, cutoff)) <==> SparesAll(p, order, cutoff)
    ensures MemoryAnnounced(Aged(p, order, cutoff)) ==> AllAnnounced(Aged(p, order, cutoff))
  {
    if order != [] {
      var q, id := Aged(p, Front(order), cutoff), Last(order);
      AgedAnnounced(p, Front(order), cutoff);
      AgedOneOnlyRemembers(q, id, cutoff);
      AnnouncedMemory(q);
      AnnouncedMemory(AgedOne(q, id, cutoff));
      if AllAnnounced(q) {
        AgedOneAnnounced(q, id, cutoff);
        if !Spares(q, id, cutoff) {
          HarmIsRemembered(q, id, cutoff);
        }
      }
      hide AllAnnounced, Spares, AgedOne;
    }
  }

  lemma AnnouncedMemory(p: Peers)
    ensures AllAnnounced(p) ==> MemoryAnnounced(p)
  {
  }

  lemma HarmIsRemembered(p: Peers, id: Id, cutoff: int)
    requires !Spares(p, id, cutoff)
    ensures !MemoryAnnounced(AgedOne(p, id, cutoff))
  {
    assert id in AgedOne(p, id, cutoff).agedOut;
  }

  lemma {:induction false} SweptAnnounced(p: Peers, order: seq<Id>, cutoff: int)
    requires AllAnnounced(p)
    ensures AllAnnounced(Swept(p, order, cutoff))
  {
    if order != [] {
      SweptAnnounced(p, Front(order), cutoff);
      hide SweptOne, AllAnnounced;
      SweptOneAnnounced(Swept(p, Front(order), cutoff), Last(order), cutoff);
    }
  }

  lemma SweptOneAnnounced(p: Peers, id: Id, cutoff: int)
    requires AllAnnounced(p)
    ensures AllAnnounced(SweptOne(p, id, cutoff))
  {
    hide IsLocal;
  }

  lemma StoredAnnounced(p: Peers, id: Id, newest: int, now: int)
    requires AllAnnounced(p)
    ensures AllAnnounced(Stored(p, id, newest, now))
  {
    hide IsLocal, CanSeat;
    SeatedHolds(p.roster, id, now);
    hide Seated;
  }

  lemma JoiningAnnounced(p: Peers, id: Id, now: int)
    requires AllAnnounced(p)
    ensures AllAnnounced(Joining(p, id, now))
  {
    hide IsLocal, Acceptable, CanSeat;
    SeatedHolds(p.roster, id, now);
    hide Seated;
  }

  lemma LocalSeatAnnounced(p: Peers, id: Id, now: int)
    requires AllAnnounced(p) && IsLocal(id)
    ensures AllAnnounced(AdmittingLocal(p, id, now)) && AllAnnounced(Reseating(p, id, now))
  {
    hide IsLocal, CanSeat;
    SeatedHolds(p.roster, id, now);
    hide Seated;
  }

  lemma GoingAnnounced(p: Peers, id: Id)
    requires AllAnnounced(p)
    ensures AllAnnounced(Leaving(p, id)) && AllAnnounced(DroppingLocal(p, id))
  {
    hide IsLocal, Acceptable;
  }

  lemma DroppedAnnounced(p: Peers, id: Id)
    requires AllAnnounced(p)
    ensures AllAnnounced(Dropping(p, id))
    ensures AllAnnounced(Forgetting(p)) && (p.gaps > 0 ==> AllAnnounced(DroppingAll(p)))
  {
    hide IsLocal;
  }

  lemma MergingAnnounced(p: Peers, id: Id, ids: seq<Id>, now: int)
    requires AllAnnounced(p) && SeatsBounded(p.roster)
    ensures AllAnnounced(Merging(p, id, ids, now))
  {
    MergingBounded(p.roster, ids, now);
    hide IsLocal, Acceptable, Merged, SeatsBounded;
  }

  lemma OthersAnnounced(p: Peers, op: Op)
    requires AllAnnounced(p) && Legal(p, op) && (op.Keep? || op.Identify? || op.Name?)
    ensures AllAnnounced(Step(p, op))
  {
    hide IsLocal;
  }

  /** A step keeps strangers out if and only if no age-out in it remembers one: only a render tick can let one in. */
  lemma StepAnnounced(p: Peers, op: Op)
    requires Inv(p) && Legal(p, op) && AllAnnounced(p)
    ensures AllAnnounced(Step(p, op)) <==> Harmless(p, op)
  {
    hide AllAnnounced, Stored, Swept, Aged, Merging, Naming, Joining, Leaving, Dropping, AdmittingLocal, Reseating;
    hide DroppingLocal, Forgetting, DroppingAll, Acceptable, IsLocal, SeatsBounded, SparesAll;
    match op {
      case Merge(id, roster, now) => MergingAnnounced(p, id, roster, now);
      case Join(id, now) => JoiningAnnounced(p, id, now);
      case AdmitLocal(id, now) => LocalSeatAnnounced(p, id, now);
      case Reseat(id, now) => LocalSeatAnnounced(p, id, now);
      case State(id, newest, now) => StoredAnnounced(p, id, newest, now);
      case LocalState(id, newest, now) => StoredAnnounced(p, id, newest, now);
      case Tick(cutoff, sweep, age) =>
        SweptAnnounced(p, sweep, cutoff);
        AgedAnnounced(Swept(p, sweep, cutoff), age, cutoff);
      case Leave(id) => GoingAnnounced(p, id);
      case DropLocal(id) => GoingAnnounced(p, id);
      case Drop(id) => DroppedAnnounced(p, id);
      case Forget => DroppedAnnounced(p, "");
      case DropAll => DroppedAnnounced(p, "");
      case _ => OthersAnnounced(p, op);
    }
  }

  /** In every state of the run strangers are out. */
  ghost predicate AlwaysAnnounced(ops: seq<Op>)
    requires LegalRun(ops)
  {
    AllAnnounced(Run(ops)) && (ops == [] || AlwaysAnnounced(Front(ops)))
  }

  /** No tick of the run remembers a peer that is gone. */
  predicate AlwaysHarmless(ops: seq<Op>)
    requires LegalRun(ops)
  {
    ops == [] || (AlwaysHarmless(Front(ops)) && Harmless(Run(Front(ops)), Last(ops)))
  }

  /**
    Throughout a run no relay id has a seat, a memory or a buffer it was not announced for if and only if no render
    tick, caught between a seat going and its buffer being dropped, finds that buffer silent and room to remember it.
   */
  lemma {:induction false} StrangersStayOut(ops: seq<Op>)
    requires LegalRun(ops)
    ensures AlwaysAnnounced(ops) <==> AlwaysHarmless(ops)
  {
    if ops != [] {
      StrangersStayOut(Front(ops));
      RunKeeps(Front(ops));
      hide Inv, AllAnnounced, Harmless, Step;
      if AlwaysHarmless(Front(ops)) {
        StepAnnounced(Run(Front(ops)), Last(ops));
      }
    }
  }

  /** A relay id nobody announced since the last reset, or that left and has not come back, has no ghost and no name. */
  lemma StrangersHaveNoGhost(ops: seq<Op>, id: Id)
    requires LegalRun(ops) && AlwaysHarmless(ops)
    requires !IsLocal(id) && id !in Run(ops).announced
    ensures var p := Run(ops);
            && id !in p.roster && id !in p.agedOut
            && (p.gaps == 0 && id !in p.leaving ==> id !in p.remotes)
            && (NeverOrphans(ops) ==> id !in p.names)
  {
    StrangersStayOut(ops);
    NamesNeedTheirSeat(ops);
    hide Run, LegalRun, IsLocal;
    assert AllAnnounced(Run(ops));
  }

  /** Nothing is harmed where nothing is waiting to be dropped: there every buffer is an announced peer's. */
  lemma {:induction false} QuietTicksSpare(p: Peers, order: seq<Id>, cutoff: int)
    requires AllAnnounced(p) && p.gaps == 0 && p.leaving == multiset{}
    ensures SparesAll(p, order, cutoff)
    ensures var a := Aged(p, order, cutoff); a.gaps == p.gaps && a.leaving == p.leaving
  {
    if order != [] {
      QuietTicksSpare(p, Front(order), cutoff);
      AgedAnnounced(p, Front(order), cutoff);
      var q := Aged(p, Front(order), cutoff);
      hide IsLocal, SparesAll, Aged;
      assert AllAnnounced(q) && Spares(q, Last(order), cutoff);
    }
  }

  /** With room to remember every buffer walked, a walk spares strangers if and only if no silent buffer is one's. */
  lemma {:induction false} SparesWithRoom(p: Peers, order: seq<Id>, cutoff: int)
    requires AllAnnounced(p) && |p.agedOut| + |order| <= MAX_SEATS
    ensures AllAnnounced(Aged(p, order, cutoff)) <==>
            forall id | id in order && Silent(p.remotes, id, cutoff) :: id in p.announced
  {
    AgedAnnounced(p, order, cutoff);
    SparesAllWithRoom(p, order, cutoff);
    hide Silent, Aged, AllAnnounced;
  }

  lemma {:induction false} SparesAllWithRoom(p: Peers, order: seq<Id>, cutoff: int)
    requires |p.agedOut| + |order| <= MAX_SEATS
    ensures SparesAll(p, order, cutoff) <==>
            forall id | id in order && Silent(p.remotes, id, cutoff) :: id in p.announced
    ensures var a := Aged(p, order, cutoff);
            && |a.agedOut| <= |p.agedOut| + |order| && a.announced == p.announced
            && forall id :: Silent(a.remotes, id, cutoff) <==> Silent(p.remotes, id, cutoff) && id !in order
  {
    if order != [] {
      var q, id := Aged(p, Front(order), cutoff), Last(order);
      SparesAllWithRoom(p, Front(order), cutoff);
      OneAged(q, id, cutoff);
      assert order == Front(order) + [id];
      hide Silent, AgedOne;
    }
  }

  lemma OneAged(p: Peers, id: Id, cutoff: int)
    ensures var a := AgedOne(p, id, cutoff);
            && |a.agedOut| <= |p.agedOut| + 1 && a.announced == p.announced
            && forall k :: Silent(a.remotes, k, cutoff) <==> Silent(p.remotes, k, cutoff) && k != id
  {
    hide IsLocal;
    assert |p.agedOut + {id}| <= |p.agedOut| + 1;
  }

  // ----- What the checks do -----

  /** A tick that walks every buffer leaves no silent one. */
  lemma {:induction false} AgeOutClears(p: Peers, order: seq<Id>, cutoff: int)
    ensures var a := Aged(p, order, cutoff);
            && a.remotes.Keys <= p.remotes.Keys && (forall id | id in a.remotes :: a.remotes[id] == p.remotes[id])
            && (forall id | id in order :: !Silent(a.remotes, id, cutoff))
  {
    if order != [] {
      AgeOutClears(p, Front(order), cutoff);
      hide IsLocal;
      assert order == Front(order) + [Last(order)];
    }
  }

  /** A sweep that walks every seat leaves none that was never used. */
  lemma {:induction false} SweepClears(p: Peers, order: seq<Id>, cutoff: int)
    ensures var s := Swept(p, order, cutoff);
            && s.roster.Keys <= p.roster.Keys && (forall id | id in s.roster :: s.roster[id] == p.roster[id])
            && s.remotes == p.remotes
            && (forall id | id in order :: !Seatless(s.roster, s.remotes, id, cutoff))
  {
    if order != [] {
      SweepClears(p, Front(order), cutoff);
      hide IsLocal;
      assert order == Front(order) + [Last(order)];
    }
  }

  /** How many seats the relay's ids hold, or our own ghosts'. */
  function Taken(roster: map<Id, int>, local: bool): nat {
    |Seats(roster, local)|
  }

  lemma CanSeatIff(roster: map<Id, int>, id: Id)
    ensures CanSeat(roster, id) <==> id in roster || Taken(roster, IsLocal(id)) < 512
  {
    hide IsLocal;
    SubsetSize(Seats(roster, IsLocal(id)), roster.Keys);
  }

  /**
    A state from a seated peer is buffered. One from a peer that went silent takes a seat again, if its kind has fewer
    than 512, and is buffered. Any other is dropped, and nobody else is touched.
   */
  lemma StateIsHeeded(p: Peers, id: Id, newest: int, now: int)
    requires Acceptable(id) && id != p.me
    ensures var q := Step(p, Op.State(id, newest, now));
            if id in p.roster then q == p.(remotes := p.remotes[id := Heard(newest, now)])
            else if id in p.agedOut && Taken(p.roster, false) < 512 then
              q == p.(roster := p.roster[id := now], agedOut := p.agedOut - {id},
                      remotes := p.remotes[id := Heard(newest, now)])
            else q == p
  {
    CanSeatIff(p.roster, id);
    hide CanSeat, Taken, JsonText.ValidUtf8;
  }

  /** An arrival is announced, and seated with its name on the way if its kind has fewer than 512 seats. */
  lemma JoinIsHeeded(p: Peers, id: Id, now: int)
    requires Acceptable(id)
    ensures var q := Step(p, Join(id, now));
            && q.announced == p.announced + {id}
            && q == p.(announced := q.announced, roster := q.roster, naming := q.naming)
            && if id in p.roster then q.roster == p.roster && q.naming == p.naming + multiset{id}
               else if Taken(p.roster, false) < 512 then
                 q.roster == p.roster[id := now] && q.naming == p.naming + multiset{id}
               else q.roster == p.roster && q.naming == p.naming
  {
    CanSeatIff(p.roster, id);
    hide CanSeat, Taken, JsonText.ValidUtf8;
  }

  /** A Welcome seats every usable id of its roster until the relay's seats are full, keeps every seat, and adds no
      other. */
  lemma WelcomeIsHeeded(p: Peers, id: Id, ids: seq<Id>, now: int, k: Id)
    requires Acceptable(id) && SeatsBounded(p.roster)
    ensures var q := Step(p, Merge(id, ids, now));
            && q.welcomed
            && (k in p.roster ==> k in q.roster && q.roster[k] == p.roster[k])
            && (k in q.roster && k !in p.roster ==> k in ids && Acceptable(k) && q.roster[k] == now)
            && (k in ids && Acceptable(k) ==> k in q.announced && (k in q.roster || Taken(q.roster, false) == 512))
  {
    MergeSeats(p.roster, ids, now, k);
    hide Merged, Taken, JsonText.ValidUtf8;
  }

  lemma {:induction false} MergeSeats(roster: map<Id, int>, ids: seq<Id>, now: int, k: Id)
    requires SeatsBounded(roster)
    ensures var r := Merged(roster, ids, now);
            && (k in roster ==> k in r && r[k] == roster[k])
            && (k in r && k !in roster ==> k in ids && Acceptable(k) && r[k] == now)
            && (k in ids && Acceptable(k) ==> k in r || Taken(r, false) == 512)
    decreases |ids|
  {
    if ids != [] {
      var id, rest := ids[0], ids[1..];
      CanSeatIff(roster, id);
      SeatingBounded(roster, id, now);
      if !Acceptable(id) {
        MergeSeats(roster, rest, now, k);
      } else if CanSeat(roster, id) {
        MergeSeats(Seated(roster, id, now), rest, now, k);
      } else {
        assert !IsLocal(id);
      }
    }
  }

  /** A session's end keeps our own ghosts and their names, and nothing else but the buffers, which go next. */
  lemma SessionIsForgotten(p: Peers, id: Id)
    ensures var q := Step(p, Forget);
            && !q.welcomed && q.me == "" && q.roster == map[] && q.agedOut == {} && q.announced == {}
            && (id in q.names <==> id in p.names && IsLocal(id)) && (id in q.names ==> q.names[id] == p.names[id])
            && q.locals == p.locals && q.remotes == p.remotes && Legal(q, DropAll)
            && Step(q, DropAll) == q.(remotes := map[], gaps := p.gaps)
  {
    hide IsLocal;
  }

  /** A ghost of our own is seated and registered, its name on the way, unless 512 of its kind are. */
  lemma LocalIsAdmitted(p: Peers, id: Id, now: int)
    requires IsLocal(id)
    ensures var q := AdmittingLocal(p, id, now);
            if id in p.roster || Taken(p.roster, true) < 512 then
              q == p.(locals := p.locals + {id}, naming := p.naming + multiset{id},
                      roster := if id in p.roster then p.roster else p.roster[id := now])
            else q == p
  {
    CanSeatIff(p.roster, id);
    hide IsLocal, CanSeat, Taken;
  }

  /** Each sample fed to one that is registered takes its seat again after a reset, room permitting, and is buffered. */
  lemma LocalIsFed(p: Peers, id: Id, newest: int, now: int)
    requires IsLocal(id) && id != p.me && id != "" && id in p.locals && id !in p.agedOut
    ensures var q := Stored(Reseating(p, id, now), id, newest, now);
            if id in p.roster || Taken(p.roster, true) < 512 then
              q == p.(roster := if id in p.roster then p.roster else p.roster[id := now],
                      remotes := p.remotes[id := Heard(newest, now)])
            else q == p
  {
    CanSeatIff(p.roster, id);
    hide IsLocal, CanSeat, Taken;
  }

  /** Dropped, it is gone with seat, name and buffer. */
  lemma LocalIsDropped(p: Peers, id: Id)
    ensures Dropping(DroppingLocal(p, id), id) ==
            p.(roster := p.roster - {id}, names := p.names - {id}, locals := p.locals - {id},
               remotes := p.remotes - {id})
  {
    CountTakeBack(p.leaving, id);
  }

  /** A leave takes the id's seat, name and memory, its buffer next, and nobody else's anything. */
  lemma LeaveIsHeeded(p: Peers, id: Id)
    requires Acceptable(id)
    ensures var q := Step(p, Leave(id));
            && q.roster == p.roster - {id} && q.names == p.names - {id} && q.agedOut == p.agedOut - {id}
            && q.announced == p.announced - {id} && q.remotes == p.remotes && q.locals == p.locals
            && Legal(q, Drop(id)) && Step(q, Drop(id)).remotes == p.remotes - {id}
  {
    hide JsonText.ValidUtf8;
  }

  /**
    An age-out takes the seats and the buffers of exactly the silent relay peers it walks, and with room for them all
    remembers each; it touches nobody else's.
   */
  lemma {:induction false} AgeOutIsExact(p: Peers, order: seq<Id>, cutoff: int, id: Id)
    ensures var a, gone := Aged(p, order, cutoff), id in order && Silent(p.remotes, id, cutoff);
            && (id in a.remotes <==> id in p.remotes && !gone) && (id in a.remotes ==> a.remotes[id] == p.remotes[id])
            && (id in a.roster <==> id in p.roster && !gone) && (id in a.roster ==> a.roster[id] == p.roster[id])
            && (id in a.agedOut ==> id in p.agedOut || gone) && (id in p.agedOut ==> id in a.agedOut)
            && (gone && |p.agedOut| + |order| <= 512 ==> id in a.agedOut)
            && (id in a.names ==> id in p.names && a.names[id] == p.names[id])
            && (!gone || |p.agedOut| + |order| <= 512 ==> (id in p.names ==> id in a.names))
            && |a.agedOut| <= |p.agedOut| + |order|
  {
    if order != [] {
      AgeOutIsExact(p, Front(order), cutoff, id);
      AgeOutIsExact(p, Front(order), cutoff, Last(order));
      var q := Aged(p, Front(order), cutoff);
      assert order == Front(order) + [Last(order)];
      OneIsExact(q, Last(order), cutoff, id);
      hide IsLocal, AgedOne, Aged;
    }
  }

  lemma OneIsExact(p: Peers, last: Id, cutoff: int, id: Id)
    ensures var a, gone := AgedOne(p, last, cutoff), id == last && Silent(p.remotes, id, cutoff);
            && (id in a.remotes <==> id in p.remotes && !gone) && (id in a.remotes ==> a.remotes[id] == p.remotes[id])
            && (id in a.roster <==> id in p.roster && !gone) && (id in a.roster ==> a.roster[id] == p.roster[id])
            && (id in a.agedOut ==> id in p.agedOut || gone) && (id in p.agedOut ==> id in a.agedOut)
            && (gone && |p.agedOut| < 512 ==> id in a.agedOut)
            && (id in a.names ==> id in p.names && a.names[id] == p.names[id])
            && (!gone || |p.agedOut| < 512 ==> (id in p.names ==> id in a.names))
            && |a.agedOut| <= |p.agedOut| + 1
  {
    hide IsLocal;
    assert |p.agedOut + {last}| <= |p.agedOut| + 1;
  }

  /** A sweep takes exactly the seats it walks that are the relay's, dated before the cutoff and never fed. */
  lemma {:induction false} SweepIsExact(p: Peers, order: seq<Id>, cutoff: int, id: Id)
    ensures var s := Swept(p, order, cutoff);
            var gone := id in order && id in p.roster && !IsLocal(id) && p.roster[id] != 0 && p.roster[id] < cutoff
                        && id !in p.remotes;
            && s.remotes == p.remotes
            && (id in s.roster <==> id in p.roster && !gone) && (id in s.roster ==> s.roster[id] == p.roster[id])
            && (id in s.agedOut ==> id in p.agedOut || gone) && (id in p.agedOut ==> id in s.agedOut)
            && (gone && |p.agedOut| + |order| <= 512 ==> id in s.agedOut)
            && |s.agedOut| <= |p.agedOut| + |order|
  {
    if order != [] {
      SweepIsExact(p, Front(order), cutoff, id);
      SweepIsExact(p, Front(order), cutoff, Last(order));
      var q := Swept(p, Front(order), cutoff);
      assert order == Front(order) + [Last(order)];
      hide IsLocal, Swept;
      assert |q.agedOut + {Last(order)}| <= |q.agedOut| + 1;
    }
  }

  // ----- Whole messages -----

  /** A Join nothing interrupts: the seat, then the name, then the seed. */
  function Joined(p: Peers, id: Id, tag: Tag, seed: Option<int>, now: int): Peers {
    var q := Joining(p, id, now);
    if !Acceptable(id) || !CanSeat(p.roster, id) then q
    else
      var r := Naming(q, id, tag);
      if seed.Some? then Stored(r, id, seed.value, now) else r
  }

  lemma JoiningNobody(p: Peers, id: Id, now: int)
    requires !Acceptable(id)
    ensures Joining(p, id, now) == p
  {
    hide Acceptable;
  }

  /** A Leave nothing interrupts. */
  function Left(p: Peers, id: Id): Peers {
    if Acceptable(id) then Dropping(Leaving(p, id), id) else p
  }

  /** The names of a Welcome, one by one. */
  function NamingEach(p: Peers, order: seq<Id>, tags: map<Id, Tag>): Peers
    requires forall id | id in order :: id in tags
  {
    if order == [] then p else Naming(NamingEach(p, Front(order), tags), Last(order), tags[Last(order)])
  }

  /** A relay id is refused a seat only while 512 relay ids hold theirs; our own ghosts never take them. */
  lemma RefusedOnlyWhenFull(p: Peers, id: Id, tag: Tag, seed: Option<int>, now: int)
    requires Inv(p) && Acceptable(id)
    ensures id in Joined(p, id, tag, seed, now).roster || |Seats(p.roster, false)| == MAX_SEATS
    ensures id in Joined(p, id, tag, seed, now).roster && seed.Some? && id != p.me ==>
              id in Joined(p, id, tag, seed, now).remotes
  {
    hide JsonText.ValidUtf8;
  }

  /** A peer aged out for silence is back with its first state, unless the relay's seats are all taken meanwhile. */
  lemma SilentPeerComesBack(p: Peers, id: Id, newest: int, now: int)
    requires Inv(p) && id in p.agedOut && id != p.me && Acceptable(id)
    requires id in p.roster || |Seats(p.roster, false)| < MAX_SEATS
    ensures var q := Step(p, Op.State(id, newest, now));
            id in q.roster && id in q.remotes && (id !in p.roster ==> id !in q.agedOut)
  {
    hide JsonText.ValidUtf8;
  }

  /** What a Welcome's names come to: each kept id has its own, an empty one none, and nobody else's changes. */
  lemma {:induction false} WelcomeNames(p: Peers, order: seq<Id>, tags: map<Id, Tag>, id: Id)
    requires forall k | k in order :: k in tags
    ensures var q := NamingEach(p, order, tags);
            && q == p.(names := q.names, naming := q.naming)
            && (id in q.names <==> if id in order then tags[id] != "" else id in p.names)
            && (id in q.names ==> q.names[id] == if id in order then tags[id] else p.names[id])
  {
    if order != [] {
      var k := Last(order);
      WelcomeNames(p, Front(order), tags, id);
      assert order == Front(order) + [k];
      NameIsStored(NamingEach(p, Front(order), tags), k, tags[k], id);
      hide Naming;
    }
  }

  lemma NameIsStored(p: Peers, k: Id, tag: Tag, id: Id)
    ensures var q := Naming(p, k, tag);
            && q == p.(names := q.names, naming := q.naming)
            && (id in q.names <==> if id == k then tag != "" else id in p.names)
            && (id in q.names ==> q.names[id] == if id == k then tag else p.names[id])
  {
  }

  lemma TakeBack<V>(m: map<Id, V>, id: Id, v: V)
    requires id !in m
    ensures m[id := v] - {id} == m && m - {id} == m
  {
  }

  lemma NotHere(p: Peers, id: Id)
    requires AllAnnounced(p) && NamesBacked(p) && p.gaps == 0 && id !in p.leaving
    requires Acceptable(id) && id !in p.announced
    ensures id !in p.roster && id !in p.agedOut && id !in p.remotes && id !in p.names
  {
  }

  /** q is p but for what it says of id. */
  ghost predicate OnlyAdds(p: Peers, q: Peers, id: Id) {
    && q.roster - {id} == p.roster && q.names - {id} == p.names && q.remotes - {id} == p.remotes
    && q.agedOut - {id} == p.agedOut && q.announced - {id} == p.announced
    && q.locals == p.locals && q.me == p.me && q.welcomed == p.welcomed
    && q.naming == p.naming && q.leaving == p.leaving && q.gaps == p.gaps
  }

  lemma SetTakeBack(s: set<Id>, id: Id)
    requires id !in s
    ensures s + {id} - {id} == s && s - {id} == s
  {
  }

  lemma CountTakeBack(s: multiset<Id>, id: Id)
    ensures s + multiset{id} - multiset{id} == s
  {
  }

  lemma StoredAdds(p: Peers, r: Peers, id: Id, newest: int, now: int)
    requires OnlyAdds(p, r, id) && id in r.roster
    ensures OnlyAdds(p, Stored(r, id, newest, now), id)
  {
    assert r.remotes[id := Heard(newest, now)] - {id} == r.remotes - {id};
  }

  lemma SeatAdds(p: Peers, id: Id, tag: Tag, now: int)
    requires id !in p.roster && id !in p.agedOut && id !in p.remotes && id !in p.names && id !in p.announced
    requires Acceptable(id)
    ensures if CanSeat(p.roster, id)
            then id in Joining(p, id, now).roster && OnlyAdds(p, Naming(Joining(p, id, now), id, tag), id)
            else OnlyAdds(p, Joining(p, id, now), id)
  {
    hide Acceptable, CanSeat;
    TakeBack(p.roster, id, now);
    TakeBack(p.names, id, tag);
    assert p.remotes - {id} == p.remotes;
    SetTakeBack(p.agedOut, id);
    SetTakeBack(p.announced, id);
    CountTakeBack(p.naming, id);
  }

  /** A join adds its own id and touches nothing else. */
  lemma JoinAddsOnlyItself(p: Peers, id: Id, tag: Tag, seed: Option<int>, now: int)
    requires id !in p.roster && id !in p.agedOut && id !in p.remotes && id !in p.names && id !in p.announced
    requires Acceptable(id)
    ensures OnlyAdds(p, Joined(p, id, tag, seed, now), id)
  {
    SeatAdds(p, id, tag, now);
    NamingSeats(Joining(p, id, now), id, tag);
    hide Acceptable, OnlyAdds, CanSeat, Stored, Joining, Naming;
    if CanSeat(p.roster, id) && seed.Some? {
      StoredAdds(p, Naming(Joining(p, id, now), id, tag), id, seed.value, now);
    }
  }

  lemma NamingSeats(p: Peers, id: Id, tag: Tag)
    ensures Naming(p, id, tag).roster == p.roster
  {
  }

  lemma LeaveTakesBack(p: Peers, q: Peers, id: Id)
    requires OnlyAdds(p, q, id) && Acceptable(id)
    ensures Left(q, id) == p
  {
    hide Acceptable;
    CountTakeBack(p.leaving, id);
  }

  /** A leave takes back everything a join gave. */
  lemma LeaveUndoesJoin(p: Peers, id: Id, tag: Tag, seed: Option<int>, now: int)
    requires AllAnnounced(p) && NamesBacked(p) && p.gaps == 0 && id !in p.leaving
    requires Acceptable(id) && id !in p.announced
    ensures Left(Joined(p, id, tag, seed, now), id) == p
  {
    NotHere(p, id);
    hide AllAnnounced, NamesBacked, Joined, Acceptable, OnlyAdds, Left;
    JoinAddsOnlyItself(p, id, tag, seed, now);
    LeaveTakesBack(p, Joined(p, id, tag, seed, now), id);
  }

  // ----- Two runs that go wrong -----

  lemma Then(ops: seq<Op>, op: Op) returns (all: seq<Op>)
    requires LegalRun(ops) && Legal(Run(ops), op)
    ensures all == ops + [op] && LegalRun(all) && Run(all) == Step(Run(ops), op)
  {
    all := ops + [op];
    assert Front(all) == ops;
  }

  lemma FirstJoin(id: Id, now: int)
    requires Acceptable(id)
    ensures Step(NOBODY, Join(id, now)) ==
            NOBODY.(roster := map[id := now], announced := {id}, naming := multiset{id})
  {
    hide IsLocal, Seats, JsonText.ValidUtf8;
    assert CanSeat(map[], id);
  }

  /** What the other steps do to a lone id, one by one. */
  lemma GapSteps(id: Id)
    requires Acceptable(id)
    ensures var joined := NOBODY.(roster := map[id := 1], announced := {id}, naming := multiset{id});
            var heard := joined.(remotes := map[id := Heard(1, 1)]);
            var forgotten := NOBODY.(remotes := map[id := Heard(1, 1)], naming := multiset{id}, gaps := 1);
            var aged := NOBODY.(agedOut := {id}, naming := multiset{id});
            && Step(joined, Op.State(id, 1, 1)) == heard
            && Step(heard, Forget) == forgotten
            && Step(aged.(gaps := 1), DropAll) == aged
  {
    hide IsLocal, Seats, JsonText.ValidUtf8, Aged, Swept;
  }

  lemma ReturnStep(id: Id)
    requires Acceptable(id)
    ensures Step(NOBODY.(agedOut := {id}, naming := multiset{id}), Op.State(id, 10, 10)) ==
            NOBODY.(roster := map[id := 10], remotes := map[id := Heard(10, 10)], naming := multiset{id})
  {
    hide IsLocal, Seats, JsonText.ValidUtf8, Aged, Swept;
    assert CanSeat(map[], id);
    assert {id} - {id} == {};
  }

  lemma SilentAgesOut(id: Id)
    requires Acceptable(id)
    ensures var forgotten := NOBODY.(remotes := map[id := Heard(1, 1)], naming := multiset{id}, gaps := 1);
            Step(forgotten, Tick(9, [], [id])) == NOBODY.(agedOut := {id}, naming := multiset{id}, gaps := 1)
  {
    hide IsLocal, JsonText.ValidUtf8;
    var p := NOBODY.(remotes := map[id := Heard(1, 1)], naming := multiset{id}, gaps := 1);
    assert Front([id]) == [];
    assert Swept(p, [], 9) == p && Aged(p, [], 9) == p;
    assert Aged(p, [id], 9) == AgedOne(p, id, 9);
    assert p.remotes - {id} == map[] && p.roster - {id} == map[];
  }

  /**
    A render tick in a reset's gap that is not harmless: it ages a dead session's buffer out into the new memory, and a
    state with that id then takes a seat that no relay announced.
   */
  lemma TickInTheGapRemembers(id: Id)
    requires Acceptable(id)
    ensures exists ops :: LegalRun(ops) && Run(ops).gaps == 0 && id !in Run(ops).leaving
                          && id !in Run(ops).announced && id in Run(ops).remotes
  {
    FirstJoin(id, 1);
    GapSteps(id);
    ReturnStep(id);
    SilentAgesOut(id);
    assert Run([]) == NOBODY;
    hide Step;
    var ops := Then([], Join(id, 1));
    ops := Then(ops, Op.State(id, 1, 1));
    ops := Then(ops, Forget);
    ops := Then(ops, Tick(9, [], [id]));
    ops := Then(ops, DropAll);
    ops := Then(ops, Op.State(id, 10, 10));
    assert id in Run(ops).remotes;
  }

  lemma OrphanSteps(id: Id, tag: Tag)
    requires Acceptable(id) && tag != ""
    ensures var joined := NOBODY.(roster := map[id := 1], announced := {id}, naming := multiset{id});
            var forgotten := NOBODY.(naming := multiset{id}, gaps := 1);
            && Step(joined, Forget) == forgotten
            && Step(forgotten, DropAll) == NOBODY.(naming := multiset{id})
            && Step(NOBODY.(naming := multiset{id}), Name(id, tag)) == NOBODY.(names := map[id := tag])
  {
    hide IsLocal, JsonText.ValidUtf8;
  }

  /** A reset that falls between a join's seat and its name leaves the name behind in the next session. */
  lemma ResetOrphansAName(id: Id, tag: Tag)
    requires Acceptable(id) && tag != ""
    ensures exists ops :: LegalRun(ops) && Run(ops).gaps == 0 && id in Run(ops).names
                          && id !in Run(ops).roster && id !in Run(ops).agedOut
  {
    FirstJoin(id, 1);
    OrphanSteps(id, tag);
    assert Run([]) == NOBODY;
    hide Step;
    var ops := Then([], Join(id, 1));
    ops := Then(ops, Forget);
    ops := Then(ops, DropAll);
    ops := Then(ops, Name(id, tag));
    assert id in Run(ops).names;
  }

  // ----- The maps as the source keeps them -----

  class PeerTable {
    var roster: map<Id, int>
    var remotes: map<Id, Heard>
    var agedOut: set<Id>
    var remoteNames: map<Id, Tag>
    var localPeers: set<Id>
    var playerId: Id
    var welcomed: bool
    ghost var announced: set<Id>
    ghost var naming: multiset<Id>
    ghost var leaving: multiset<Id>
    ghost var gaps: nat

    ghost function Abs(): Peers
      reads this
    {
      Peers(roster, remotes, agedOut, remoteNames, localPeers, playerId, welcomed, announced, naming, leaving, gaps)
    }

    constructor ()
      ensures Abs() == NOBODY
    {
      roster, remotes, agedOut, remoteNames, localPeers := map[], map[], {}, map[], {};
      playerId, welcomed, announced, naming, leaving, gaps := "", false, {}, multiset{}, multiset{}, 0;
    }

    /** Counts the seats of one kind only when the whole table might be full. */
    method AdmitToRoster(id: Id, now: int) returns (ok: bool)
      modifies this`roster
      ensures ok == CanSeat(old(roster), id) && roster == Seated(old(roster), id, now)
    {
      if id in roster {
        return true;
      }
      if |roster| >= MAX_SEATS {
        var same := CountSeats(IsLocal(id));
        if same >= MAX_SEATS {
          return false;
        }
      }
      roster := roster[id := now];
      return true;
    }

    method CountSeats(local: bool) returns (same: nat)
      ensures same == |Seats(roster, local)|
    {
      hide IsLocal;
      same := 0;
      var todo := roster.Keys;
      ghost var counted: set<Id> := {};
      while todo != {}
        invariant todo <= roster.Keys && same == |counted|
        invariant forall id :: id in counted <==> id in roster && id !in todo && IsLocal(id) == local
        decreases todo
      {
        var id :| id in todo;
        todo := todo - {id};
        if IsLocal(id) == local {
          same := same + 1;
          counted := counted + {id};
        }
      }
      assert counted == Seats(roster, local);
    }

    method StoreRemoteState(id: Id, newest: int, now: int)
      modifies this`roster, this`agedOut, this`remotes
      ensures Abs() == Stored(old(Abs()), id, newest, now)
    {
      if id == "" || id == playerId {
        return;
      }
      if id !in roster {
        if id !in agedOut {
          return;
        }
        var ok := AdmitToRoster(id, now);
        if !ok {
          return;
        }
        agedOut := agedOut - {id};
      }
      remotes := remotes[id := Heard(newest, now)];
    }

    method StoreRemoteName(id: Id, tag: Tag)
      modifies this`remoteNames, this`naming
      ensures Abs() == Naming(old(Abs()), id, tag)
    {
      if tag == "" {
        remoteNames := remoteNames - {id};
      } else {
        remoteNames := remoteNames[id := tag];
      }
      naming := naming - multiset{id};
    }

    method RememberAgedOut(id: Id)
      modifies this`agedOut, this`remoteNames
      ensures Abs() == Remember(old(Abs()), id)
    {
      if |agedOut| >= MAX_SEATS {
        remoteNames := remoteNames - {id};
        return;
      }
      agedOut := agedOut + {id};
    }

    method SweepOne(id: Id, cutoff: int)
      requires id in roster
      modifies this`roster, this`agedOut, this`remoteNames
      ensures Abs() == SweptOne(old(Abs()), id, cutoff)
      ensures old(roster).Keys - {id} <= roster.Keys
    {
      hide IsLocal;
      if roster[id] == 0 || roster[id] >= cutoff || IsLocal(id) {
        return;
      }
      if id in remotes {
        return;
      }
      roster := roster - {id};
      RememberAgedOut(id);
    }

    method SweepSeatless(cutoff: int) returns (ghost order: seq<Id>)
      modifies this`roster, this`agedOut, this`remoteNames
      ensures Abs() == Swept(old(Abs()), order, cutoff)
      ensures old(roster).Keys <= (set id | id in order)
    {
      hide SweptOne;
      ghost var before := Abs();
      order := [];
      var todo := roster.Keys;
      while todo != {}
        invariant todo <= roster.Keys
        invariant old(roster).Keys <= todo + (set id | id in order)
        invariant Abs() == Swept(before, order, cutoff)
        decreases todo
      {
        var id :| id in todo;
        todo := todo - {id};
        SweepOne(id, cutoff);
        assert Front(order + [id]) == order;
        order := order + [id];
      }
    }

    method AgeOutOne(id: Id, cutoff: int)
      requires id in remotes
      modifies this`roster, this`remotes, this`agedOut, this`remoteNames
      ensures Abs() == AgedOne(old(Abs()), id, cutoff)
      ensures old(remotes).Keys - {id} <= remotes.Keys
    {
      hide IsLocal;
      var buf := remotes[id];
      if !IsLocal(id) && (buf.newest < cutoff || buf.arrived < cutoff) {
        remotes := remotes - {id};
        roster := roster - {id};
        RememberAgedOut(id);
      }
    }

    /** The age-out half of a render tick, after the sweep. */
    method AgeOut(cutoff: int) returns (ghost order: seq<Id>)
      modifies this`roster, this`remotes, this`agedOut, this`remoteNames
      ensures Abs() == Aged(old(Abs()), order, cutoff)
      ensures old(remotes).Keys <= (set id | id in order)
    {
      hide AgedOne;
      ghost var before := Abs();
      order := [];
      var todo := remotes.Keys;
      while todo != {}
        invariant todo <= remotes.Keys
        invariant old(remotes).Keys <= todo + (set id | id in order)
        invariant Abs() == Aged(before, order, cutoff)
        decreases todo
      {
        var id :| id in todo;
        todo := todo - {id};
        AgeOutOne(id, cutoff);
        assert Front(order + [id]) == order;
        order := order + [id];
      }
    }

    /** A Join's first section. */
    method AdmitJoined(id: Id, now: int) returns (admitted: bool)
      requires Acceptable(id)
      modifies this`roster, this`announced, this`naming
      ensures Abs() == Joining(old(Abs()), id, now) && admitted == CanSeat(old(roster), id)
    {
      hide Acceptable;
      announced := announced + {id};
      admitted := AdmitToRoster(id, now);
      if admitted {
        naming := naming + multiset{id};
      }
    }

    method HandleJoin(id: Id, tag: Tag, seed: Option<int>, now: int)
      modifies this`roster, this`agedOut, this`remotes, this`remoteNames, this`announced, this`naming
      ensures Abs() == Joined(old(Abs()), id, tag, seed, now)
    {
      hide Acceptable, Joining, Naming, Stored, CanSeat;
      if !Acceptable(id) {
        JoiningNobody(Abs(), id, now);
        return;
      }
      var admitted := AdmitJoined(id, now);
      if !admitted {
        return;
      }
      StoreRemoteName(id, tag);
      if seed.Some? {
        StoreRemoteState(id, seed.value, now);
      }
    }

    /** A Leave's first section. */
    method ForgetPeer(id: Id)
      requires Acceptable(id)
      modifies this`roster, this`agedOut, this`remoteNames, this`announced, this`leaving
      ensures Abs() == Leaving(old(Abs()), id)
    {
      hide Acceptable;
      UnseatPeer(id);
      NoteLeaving(id);
    }

    method UnseatPeer(id: Id)
      modifies this`roster, this`agedOut, this`remoteNames
      ensures Abs() == old(Abs()).(roster := old(roster) - {id}, names := old(remoteNames) - {id},
                                   agedOut := old(agedOut) - {id})
    {
      roster := roster - {id};
      remoteNames := remoteNames - {id};
      agedOut := agedOut - {id};
    }

    ghost method NoteLeaving(id: Id)
      modifies this`announced, this`leaving
      ensures Abs() == old(Abs()).(announced := old(announced) - {id}, leaving := old(leaving) + multiset{id})
    {
      announced, leaving := announced - {id}, leaving + multiset{id};
    }

    method DropRemote(id: Id)
      modifies this`remotes, this`leaving
      ensures Abs() == Dropping(old(Abs()), id)
    {
      remotes := remotes - {id};
      leaving := leaving - multiset{id};
    }

    method HandleLeave(id: Id)
      modifies this`roster, this`agedOut, this`remotes, this`remoteNames, this`announced, this`leaving
      ensures Abs() == Left(old(Abs()), id)
    {
      hide Acceptable, Leaving, Dropping;
      if !Acceptable(id) {
        return;
      }
      ForgetPeer(id);
      DropRemote(id);
    }

    /** A Welcome's roster: an unusable id is passed over, a full table ends it. */
    method MergeRoster(ids: seq<Id>, now: int)
      modifies this`roster
      ensures roster == Merged(old(roster), ids, now)
    {
      var rest := ids;
      while rest != []
        invariant Merged(roster, rest, now) == Merged(old(roster), ids, now)
        decreases |rest|
      {
        var id := rest[0];
        rest := rest[1..];
        if !Acceptable(id) {
          continue;
        }
        var ok := AdmitToRoster(id, now);
        if !ok {
          return;
        }
      }
    }

    /** A Welcome's section under the lock, after the check that no session is up. */
    method MergeWelcome(id: Id, ids: seq<Id>, now: int)
      requires Acceptable(id)
      modifies this`roster, this`welcomed, this`announced
      ensures Abs() == Merging(old(Abs()), id, ids, now)
    {
      hide Acceptable;
      welcomed := true;
      MergeRoster(ids, now);
      announced := announced + (set k | k in ids && Acceptable(k));
    }

    /** Which of a Welcome's names are kept: those of ids the roster holds now. */
    method KeepNames(tags: map<Id, Tag>) returns (keep: set<Id>)
      modifies this`naming
      ensures keep == tags.Keys * old(roster).Keys && Abs() == Keeping(old(Abs()), tags.Keys)
    {
      keep := set id | id in tags && id in roster;
      naming := naming + multiset(keep);
      assert keep == tags.Keys * roster.Keys;
    }

    method StoreRosterNames(tags: map<Id, Tag>) returns (ghost order: seq<Id>)
      modifies this`remoteNames, this`naming
      ensures forall id :: id in order <==> id in tags && id in old(roster)
      ensures Abs() == NamingEach(Keeping(old(Abs()), tags.Keys), order, tags)
    {
      hide Naming;
      var keep := KeepNames(tags);
      ghost var kept := Abs();
      order := [];
      while keep != {}
        invariant forall id :: id in keep || id in order <==> id in tags && id in old(roster)
        invariant Abs() == NamingEach(kept, order, tags)
        decreases keep
      {
        var id :| id in keep;
        StoreRemoteName(id, tags[id]);
        keep := keep - {id};
        assert Front(order + [id]) == order;
        order := order + [id];
      }
    }

    method HandleWelcome(id: Id, ids: seq<Id>, tags: map<Id, Tag>, now: int) returns (ghost order: seq<Id>)
      modifies this`roster, this`remoteNames, this`welcomed, this`announced, this`naming
      ensures forall k :: k in order ==> k in tags
      ensures if old(welcomed) || !Acceptable(id) then Abs() == old(Abs())
              else (forall k :: k in order <==> k in tags && k in Merged(old(roster), ids, now))
                   && Abs() == NamingEach(Keeping(Merging(old(Abs()), id, ids, now), tags.Keys), order, tags)
    {
      hide Acceptable, Merged, Keeping, NamingEach;
      order := [];
      if welcomed || !Acceptable(id) {
        return;
      }
      MergeWelcome(id, ids, now);
      order := StoreRosterNames(tags);
    }

    /** The first section of admitting a ghost of our own. */
    method SeatLocalPeer(id: Id, now: int) returns (ok: bool)
      modifies this`roster, this`localPeers, this`naming
      ensures Abs() == AdmittingLocal(old(Abs()), id, now) && ok == CanSeat(old(roster), id)
    {
      ok := AdmitToRoster(id, now);
      if ok {
        localPeers := localPeers + {id};
        naming := naming + multiset{id};
      }
    }

    method AdmitLocalPeer(id: Id, tag: Tag, now: int) returns (ok: bool)
      modifies this`roster, this`localPeers, this`remoteNames, this`naming
      ensures ok == CanSeat(old(roster), id)
      ensures Abs() == if ok then Naming(AdmittingLocal(old(Abs()), id, now), id, tag) else old(Abs())
    {
      ok := SeatLocalPeer(id, now);
      if ok {
        StoreRemoteName(id, tag);
      }
    }

    method FeedLocalPeer(id: Id, newest: int, now: int) returns (ok: bool)
      modifies this`roster, this`agedOut, this`remotes
      ensures ok == (id in localPeers && CanSeat(old(roster), id))
      ensures Abs() == if ok then Stored(Reseating(old(Abs()), id, now), id, newest, now) else old(Abs())
    {
      if id !in localPeers {
        return false;
      }
      ok := AdmitToRoster(id, now);
      if ok {
        StoreRemoteState(id, newest, now);
      }
    }

    /** The first section of dropping a ghost of our own. */
    method UnseatLocalPeer(id: Id)
      modifies this`roster, this`remoteNames, this`localPeers, this`leaving
      ensures Abs() == DroppingLocal(old(Abs()), id)
    {
      roster := roster - {id};
      remoteNames := remoteNames - {id};
      localPeers := localPeers - {id};
      leaving := leaving + multiset{id};
    }

    method DropLocalPeer(id: Id)
      modifies this`roster, this`remoteNames, this`localPeers, this`remotes, this`leaving
      ensures Abs() == Dropping(DroppingLocal(old(Abs()), id), id)
    {
      hide Dropping, DroppingLocal;
      UnseatLocalPeer(id);
      DropRemote(id);
    }

    method ForgetRelaySession()
      modifies this`roster, this`agedOut, this`remoteNames, this`playerId, this`welcomed, this`announced, this`gaps
      ensures Abs() == Forgetting(old(Abs()))
    {
      hide OwnNames;
      ForgetIdentity();
      ForgetSeats();
      ForgetNames();
    }

    method ForgetIdentity()
      modifies this`playerId, this`welcomed, this`gaps
      ensures Abs() == old(Abs()).(me := "", welcomed := false, gaps := old(gaps) + 1)
    {
      playerId, welcomed, gaps := "", false, gaps + 1;
    }

    method ForgetSeats()
      modifies this`roster, this`agedOut, this`announced
      ensures Abs() == old(Abs()).(roster := map[], agedOut := {}, announced := {})
    {
      roster, agedOut, announced := map[], {}, {};
    }

    /** Every name but our own ghosts'. */
    method ForgetNames()
      modifies this`remoteNames
      ensures remoteNames == OwnNames(old(remoteNames))
    {
      hide IsLocal;
      var todo := remoteNames.Keys;
      while todo != {}
        invariant todo <= old(remoteNames).Keys
        invariant forall id :: id in remoteNames <==> id in old(remoteNames) && (id in todo || IsLocal(id))
        invariant forall id | id in remoteNames :: remoteNames[id] == old(remoteNames)[id]
        decreases todo
      {
        var id :| id in todo;
        todo := todo - {id};
        if !IsLocal(id) {
          remoteNames := remoteNames - {id};
        }
      }
    }

    method DropAllRemotes()
      requires gaps > 0
      modifies this`remotes, this`gaps
      ensures Abs() == DroppingAll(old(Abs()))
    {
      remotes, gaps := map[], gaps - 1;
    }
  }
}
