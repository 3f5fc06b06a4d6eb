/**
  Two-party escrow (relay/escrow.go): both deposits commit or neither does, in a table that stays bounded while
  parties drop, return and leave.
 */
module Escrow {
  import opened Lists
  import opened Wire

  type Id = string

  const MAX_LIVE: nat := 64
  const MAX_LIVE_PER_MEMBER: nat := 8
  const MAX_RECORDS: nat := 4 * MAX_LIVE
  const MAX_SNAPSHOT_LINES: nat := 48

  datatype Phase = Open | Deposited | Committed | Aborted

  datatype Reason = NoReason | ByParty | TimedOut | PartyLeft | Rejected

  /** One exchange. birth is unique to it: it stands for the record's identity, which a reused id does not share. */
  datatype Record = Record(
    birth: nat,
    opener: string,
    other: string,
    blobs: map<string, Text>,
    deposited: set<string>,
    committed: set<string>,
    phase: Phase,
    reason: Reason,
    terminalAt: int)
  {
    predicate Terminal() { phase == Committed || phase == Aborted }

    predicate IsParty(p: string) { p == opener || p == other }

    predicate BothDeposited() { opener in deposited && other in deposited }

    predicate Ready() { BothDeposited() && opener in committed && other in committed }
  }

  /** What the relay sends: deposited and committed name the parties that have done each. */
  datatype EscrowState = EscrowState(
    id: Id,
    stamp: nat,
    phase: Phase,
    parties: seq<string>,
    deposited: seq<string>,
    committed: seq<string>,
    blobs: Option<map<string, Text>>,
    reason: Reason)

  /** A line sent, and the exchange it is about; birth 0 is a refusal, which concerns none. */
  datatype Told = Told(birth: nat, state: EscrowState, to: seq<string>)

  datatype Request = OpenWith(with: string) | Deposit(blob: Option<Text>) | Commit | Abort

  datatype Deed = Gave(blob: Text) | Agreed

  /** A party's accepted part in an exchange. */
  datatype Act = Act(birth: nat, who: string, deed: Deed)

  datatype Outcome = Outcome(opener: string, other: string, phase: Phase, reason: Reason, blobs: map<string, Text>)

  /**
    The escrow part of a room. acts, outcomes and told are its history: what each party did, how each exchange ended,
    and every line sent.
   */
  datatype Desk = Desk(
    records: map<Id, Record>,
    live: int,
    liveBy: map<string, int>,
    members: set<string>,
    suspended: set<string>,
    stamp: nat,
    born: nat,
    acts: set<Act>,
    outcomes: map<nat, Outcome>,
    told: seq<Told>)

  const NEW_DESK := Desk(map[], 0, map[], {}, {}, 0, 0, {}, map[], [])

  // ----- Lines -----

  const NULL_BLOB: Text := [110, 117, 108, 108]

  /** No blob is still a deposit, of JSON null. */
  function Offered(blob: Option<Text>): Text {
    if blob.Some? then blob.value else NULL_BLOB
  }

  function Among(r: Record, who: set<string>): seq<string> {
    (if r.opener in who then [r.opener] else []) + if r.other in who then [r.other] else []
  }

  /** The wire form; blobs are attached only once committed. */
  function StateOf(id: Id, r: Record, stamp: nat): EscrowState {
    EscrowState(id, stamp, r.phase, [r.opener, r.other], Among(r, r.deposited), Among(r, r.committed),
                if r.phase == Committed then Some(r.blobs) else None, r.reason)
  }

  function Tell(d: Desk, id: Id, to: seq<string>): Desk
    requires id in d.records
  {
    d.(stamp := d.stamp + 1, told := d.told + [Told(d.records[id].birth, StateOf(id, d.records[id], d.stamp + 1), to)])
  }

  function Announce(d: Desk, id: Id): Desk
    requires id in d.records
  {
    Tell(d, id, [d.records[id].opener, d.records[id].other])
  }

  function Refuse(d: Desk, id: Id, to: string): Desk {
    d.(stamp := d.stamp + 1,
       told := d.told + [Told(0, EscrowState(id, d.stamp + 1, Aborted, [], [], [], None, Rejected), [to])])
  }

  // ----- Opening and the table's bound -----

  predicate Full(d: Desk, opener: string) {
    d.live >= MAX_LIVE || Count(d.liveBy, opener) >= MAX_LIVE_PER_MEMBER
  }

  /** A suspended party has yet to read this exchange. */
  predicate Owed(d: Desk, r: Record) {
    (r.opener != "" && r.opener in d.members && r.opener in d.suspended) ||
    (r.other != "" && r.other in d.members && r.other in d.suspended)
  }

  predicate Evictable(d: Desk, id: Id, owed: bool) {
    id in d.records && d.records[id].Terminal() && Owed(d, d.records[id]) == owed
  }

  ghost predicate Oldest(d: Desk, id: Id, owed: bool) {
    && Evictable(d, id, owed)
    && forall k | k in d.records :: Evictable(d, k, owed) ==> d.records[id].terminalAt <= d.records[k].terminalAt
  }

  /** The record to evict: an oldest one nobody suspended waits for; an oldest owed one only when every one is owed. */
  ghost predicate Victim(d: Desk, id: Id) {
    Oldest(d, id, false) || (Oldest(d, id, true) && forall k | k in d.records :: !Evictable(d, k, false))
  }

  function Evicted(d: Desk, victim: Option<Id>): Desk {
    if victim.Some? then d.(records := d.records - {victim.value}) else d
  }

  function Opened(d: Desk, id: Id, opener: string, other: string): Desk {
    d.(records := d.records[id := Record(d.born + 1, opener, other, map[], {}, {}, Open, NoReason, 0)],
       live := d.live + 1,
       liveBy := Raised(d.liveBy, opener),
       born := d.born + 1)
  }

  /** An id in use, ended or not, is refused: reusing it would answer for the wrong exchange. */
  predicate Opens(d: Desk, from: string, id: Id, with: string) {
    id !in d.records && with != "" && with != from && with in d.members && !Full(d, from)
  }

  function Opening(d: Desk, from: string, id: Id, with: string, victim: Option<Id>): Desk {
    if !Opens(d, from, id, with) then Refuse(d, id, from)
    else Announce(Opened(Evicted(d, victim), id, from, with), id)
  }

  // ----- Depositing, committing and finishing -----

  function Put(d: Desk, id: Id, r: Record): Desk {
    d.(records := d.records[id := r])
  }

  function OutcomeOf(r: Record): Outcome {
    Outcome(r.opener, r.other, r.phase, r.reason, r.blobs)
  }

  /** The only way out of live. */
  function Ended(d: Desk, id: Id, phase: Phase, reason: Reason, now: int): Desk
    requires id in d.records
  {
    var r := d.records[id];
    var t := r.(phase := phase, reason := reason, terminalAt := now,
                blobs := if phase == Committed then r.blobs else map[]);
    d.(records := d.records[id := t],
       live := if r.Terminal() then d.live else d.live - 1,
       liveBy := if r.Terminal() then d.liveBy else Lowered(d.liveBy, r.opener),
       outcomes := d.outcomes[t.birth := OutcomeOf(t)])
  }

  function Finish(d: Desk, id: Id, phase: Phase, reason: Reason, now: int): Desk
    requires id in d.records
  {
    Announce(Ended(d, id, phase, reason, now), id)
  }

  lemma EndedIsHere(d: Desk, id: Id, phase: Phase, reason: Reason, now: int)
    requires id in d.records
    ensures id in Ended(d, id, phase, reason, now).records
  {
  }

  /** A step that completes the exchange announces only the end. */
  function Settle(d: Desk, id: Id, now: int): Desk
    requires id in d.records
  {
    if d.records[id].Ready() then Finish(d, id, Committed, NoReason, now) else Announce(d, id)
  }

  /** A live record after from's deposit. */
  function Given(r: Record, from: string, blob: Text): Record {
    var given := r.(blobs := r.blobs[from := blob], deposited := r.deposited + {from});
    if given.BothDeposited() then given.(phase := Deposited) else given
  }

  function Depositing(d: Desk, from: string, id: Id, blob: Option<Text>, now: int): Desk {
    if id !in d.records then d
    else
      var r := d.records[id];
      if r.Terminal() || !r.IsParty(from) || from in r.deposited then d
      else
        var s := Given(r, from, Offered(blob));
        Settle(Put(d, id, s).(acts := d.acts + {Act(r.birth, from, Gave(Offered(blob)))}), id, now)
  }

  /** A commit before both deposits is recorded: it means "ready". */
  function Committing(d: Desk, from: string, id: Id, now: int): Desk {
    if id !in d.records then d
    else
      var r := d.records[id];
      if r.Terminal() || !r.IsParty(from) || from in r.committed then d
      else
        var s := r.(committed := r.committed + {from});
        Settle(Put(d, id, s).(acts := d.acts + {Act(r.birth, from, Agreed)}), id, now)
  }

  function Aborting(d: Desk, from: string, id: Id, now: int): Desk {
    if id in d.records && !d.records[id].Terminal() && d.records[id].IsParty(from)
    then Finish(d, id, Aborted, ByParty, now) else d
  }

  function TimingOut(d: Desk, id: Id, now: int): Desk {
    if id in d.records && !d.records[id].Terminal() then Finish(d, id, Aborted, TimedOut, now) else d
  }

  /** A party really leaves; ids is the order in which the table is walked. */
  function AbortAll(d: Desk, ids: seq<Id>, party: string, now: int): Desk
  {
    if ids == [] then d
    else
      var e := AbortAll(d, Front(ids), party, now);
      var id := Last(ids);
      if id in e.records && !e.records[id].Terminal() && e.records[id].IsParty(party)
      then Finish(e, id, Aborted, PartyLeft, now) else e
  }

  /** Retirement removes the record it was armed for, never a later one with the same id. */
  function Retiring(d: Desk, id: Id, birth: nat): Desk {
    if id in d.records && d.records[id].birth == birth then d.(records := d.records - {id}) else d
  }

  /** A resume snapshot; listing is the parties' exchanges, live first, then terminal ones newest first. */
  function Snapshotting(d: Desk, to: string, listing: seq<Id>): (e: Desk)
    requires forall id | id in listing :: id in d.records
    ensures e.(stamp := d.stamp, told := d.told) == d
  {
    if listing == [] then d
    else if |listing| > MAX_SNAPSHOT_LINES then Snapshotting(d, to, Front(listing))
    else Tell(Snapshotting(d, to, Front(listing)), Last(listing), [to])
  }

  // ----- Runs -----

  datatype Op =
    | Ask(from: string, id: Id, req: Request, victim: Option<Id>, now: int)
    | Timeout(id: Id, now: int)
    | Retire(id: Id, birth: nat)
    | Join(who: string)
    | Suspend(who: string)
    | Return(who: string)
    | Depart(who: string, order: seq<Id>, now: int)
    | Remove(who: string)
    | Snapshot(to: string, listing: seq<Id>)
    | Elsewhere(stamps: nat)

  /** The choices the source leaves to map order are the right ones; a retirement timer belongs to an ended record. */
  ghost predicate Legal(d: Desk, op: Op) {
    match op
    case Ask(from, id, OpenWith(with), victim, _) =>
      if Opens(d, from, id, with) && |d.records| >= MAX_RECORDS then victim.Some? && Victim(d, victim.value)
      else victim.None?
    case Retire(_, birth) => birth in d.outcomes
    case Depart(_, order, _) => forall id :: id in order <==> id in d.records
    case Snapshot(to, listing) => IsListing(d, to, listing)
    case _ => true
  }

  ghost predicate IsListing(d: Desk, to: string, listing: seq<Id>) {
    && (forall id :: id in listing <==> id in d.records && d.records[id].IsParty(to))
    && (forall i, j | 0 <= i < j < |listing| :: listing[i] != listing[j])
    && (forall i, j | 0 <= i < j < |listing| ::
          d.records[listing[j]].Terminal() || !d.records[listing[i]].Terminal())
    && (forall i, j | 0 <= i < j < |listing| :: d.records[listing[i]].Terminal() ==>
          d.records[listing[i]].terminalAt >= d.records[listing[j]].terminalAt)
  }

  ghost function Step(d: Desk, op: Op): Desk
    requires Legal(d, op)
  {
    match op
    case Ask(from, id, OpenWith(with), victim, _) => Opening(d, from, id, with, victim)
    case Ask(from, id, Deposit(blob), _, now) => Depositing(d, from, id, blob, now)
    case Ask(from, id, Commit, _, now) => Committing(d, from, id, now)
    case Ask(from, id, Abort, _, now) => Aborting(d, from, id, now)
    case Timeout(id, now) => TimingOut(d, id, now)
    case Retire(id, birth) => Retiring(d, id, birth)
    case Join(who) => d.(members := d.members + {who}, suspended := d.suspended - {who})
    case Suspend(who) => d.(suspended := d.suspended + {who})
    case Return(who) => d.(suspended := d.suspended - {who})
    case Depart(who, order, now) => AbortAll(d, order, who, now)
    case Remove(who) => d.(members := d.members - {who}, suspended := d.suspended - {who})
    case Snapshot(to, listing) => Snapshotting(d, to, listing)
    case Elsewhere(stamps) => d.(stamp := d.stamp + stamps)
  }

  // ----- What every step keeps -----

  /** Every blob was given and every commitment made by the party it is filed under. */
  ghost predicate Backed(acts: set<Act>, birth: nat, blobs: map<string, Text>, committed: set<string>) {
    && (forall p | p in blobs :: Act(birth, p, Gave(blobs[p])) in acts)
    && (forall p | p in committed :: Act(birth, p, Agreed) in acts)
  }

  ghost predicate LiveOk(r: Record, acts: set<Act>, outcomes: map<nat, Outcome>) {
    && r.birth !in outcomes
    && r.phase == (if r.BothDeposited() then Deposited else Open)
    && r.blobs.Keys == r.deposited
    && r.reason == NoReason
    && Backed(acts, r.birth, r.blobs, r.committed)
  }

  ghost predicate RecordOk(r: Record, born: nat, acts: set<Act>, outcomes: map<nat, Outcome>) {
    && 1 <= r.birth <= born
    && r.opener != r.other
    && r.deposited <= {r.opener, r.other} && r.committed <= {r.opener, r.other}
    && (!r.Terminal() ==> LiveOk(r, acts, outcomes))
    && (r.Terminal() ==> r.birth in outcomes && outcomes[r.birth] == OutcomeOf(r))
  }

  ghost predicate Shape(records: map<Id, Record>, born: nat, acts: set<Act>, outcomes: map<nat, Outcome>) {
    forall id | id in records :: RecordOk(records[id], born, acts, outcomes)
  }

  ghost predicate Distinct(records: map<Id, Record>) {
    forall i, j | i in records && j in records :: records[i].birth == records[j].birth ==> i == j
  }

  /** Both or neither: a committed exchange holds a deposit and a commitment of both parties, an aborted one nothing. */
  ghost predicate OutcomeOk(b: nat, o: Outcome, born: nat, acts: set<Act>) {
    && 1 <= b <= born
    && o.opener != o.other
    && (o.phase == Committed || (o.phase == Aborted && o.blobs == map[]))
    && (o.phase == Committed ==>
          o.blobs.Keys == {o.opener, o.other} && Backed(acts, b, o.blobs, {o.opener, o.other}))
  }

  ghost predicate OutcomesOk(outcomes: map<nat, Outcome>, born: nat, acts: set<Act>) {
    forall b | b in outcomes :: OutcomeOk(b, outcomes[b], born, acts)
  }

  predicate Final(p: Phase) { p == Committed || p == Aborted }

  ghost predicate ToldOk(t: Told, stamp: nat, born: nat, outcomes: map<nat, Outcome>) {
    && t.state.stamp <= stamp
    && t.birth <= born
    && (t.state.blobs.Some? <==> t.state.phase == Committed)
    && (t.birth == 0 ==> t.state.phase == Aborted && t.state.reason == Rejected)
    && (t.birth > 0 && Final(t.state.phase) ==> t.birth in outcomes && TellsOutcome(t.state, outcomes[t.birth]))
  }

  ghost predicate TellsOutcome(s: EscrowState, o: Outcome) {
    && s.parties == [o.opener, o.other] && s.phase == o.phase && s.reason == o.reason
    && s.blobs == if o.phase == Committed then Some(o.blobs) else None
  }

  ghost predicate AllToldOk(told: seq<Told>, stamp: nat, born: nat, outcomes: map<nat, Outcome>) {
    forall i | 0 <= i < |told| :: ToldOk(told[i], stamp, born, outcomes)
  }

  /** Lines are stamped in order, and once an exchange was reported over it is never reported live. */
  ghost predicate NoTurningBack(told: seq<Told>) {
    forall i, j | 0 <= i < j < |told| ::
      && told[i].state.stamp < told[j].state.stamp
      && (told[i].birth == told[j].birth > 0 && Final(told[i].state.phase) ==> Final(told[j].state.phase))
  }

  /** A party deposits at most once in an exchange. */
  ghost predicate GaveOnce(acts: set<Act>, born: nat, records: map<Id, Record>) {
    && (forall a | a in acts :: a.birth <= born)
    && (forall a, b | a in acts && b in acts ::
          a.birth == b.birth && a.who == b.who && a.deed.Gave? && b.deed.Gave? ==> a == b)
    && (forall id | id in records && !records[id].Terminal() :: Recorded(acts, records[id]))
  }

  ghost predicate Recorded(acts: set<Act>, r: Record) {
    forall a | a in acts :: a.birth == r.birth && a.deed.Gave? ==> a.who in r.deposited
  }

  ghost function LiveIds(records: map<Id, Record>): set<Id> {
    set id | id in records && !records[id].Terminal()
  }

  ghost function LiveOf(records: map<Id, Record>, p: string): set<Id> {
    set id | id in records && !records[id].Terminal() && records[id].opener == p
  }

  ghost predicate Counted(records: map<Id, Record>, live: int, liveBy: map<string, int>) {
    && live == |LiveIds(records)|
    && (forall p :: Count(liveBy, p) == |LiveOf(records, p)|)
    && (forall p | p in liveBy :: liveBy[p] > 0)
  }

  ghost predicate Bounded(records: map<Id, Record>, live: int, liveBy: map<string, int>) {
    && live <= MAX_LIVE && |records| <= MAX_RECORDS
    && forall p :: Count(liveBy, p) <= MAX_LIVE_PER_MEMBER
  }

  ghost predicate Books(records: map<Id, Record>, born: nat, acts: set<Act>, outcomes: map<nat, Outcome>) {
    && Shape(records, born, acts, outcomes)
    && Distinct(records)
    && OutcomesOk(outcomes, born, acts)
    && GaveOnce(acts, born, records)
  }

  ghost predicate Journal(told: seq<Told>, stamp: nat, born: nat, outcomes: map<nat, Outcome>) {
    AllToldOk(told, stamp, born, outcomes) && NoTurningBack(told)
  }

  ghost predicate Tally(records: map<Id, Record>, live: int, liveBy: map<string, int>) {
    Counted(records, live, liveBy) && Bounded(records, live, liveBy)
  }

  ghost predicate Inv(d: Desk) {
    && Books(d.records, d.born, d.acts, d.outcomes)
    && Journal(d.told, d.stamp, d.born, d.outcomes)
    && Tally(d.records, d.live, d.liveBy)
  }

  // ----- Telling -----

  lemma JournalGrows(told: seq<Told>, t: Told, stamp: nat, born: nat, outcomes: map<nat, Outcome>)
    requires Journal(told, stamp, born, outcomes)
    requires t.state.stamp == stamp + 1 && ToldOk(t, stamp + 1, born, outcomes)
    requires t.birth > 0 && t.birth in outcomes ==> Final(t.state.phase)
    ensures Journal(told + [t], stamp + 1, born, outcomes)
  {
    var all := told + [t];
    forall i | 0 <= i < |all|
      ensures ToldOk(all[i], stamp + 1, born, outcomes)
    {
      assert i < |told| ==> ToldOk(told[i], stamp, born, outcomes);
    }
    forall i | 0 <= i < |told|
      ensures told[i].state.stamp < t.state.stamp
      ensures told[i].birth == t.birth > 0 && Final(told[i].state.phase) ==> Final(t.state.phase)
    {
      assert ToldOk(told[i], stamp, born, outcomes);
    }
  }

  lemma StateIsRight(id: Id, r: Record, stamp: nat, born: nat, acts: set<Act>, outcomes: map<nat, Outcome>,
                     to: seq<string>)
    requires RecordOk(r, born, acts, outcomes)
    ensures ToldOk(Told(r.birth, StateOf(id, r, stamp), to), stamp, born, outcomes)
    ensures r.birth in outcomes ==> Final(r.phase)
  {
  }

  lemma RecordIsOk(d: Desk, id: Id)
    requires Inv(d) && id in d.records
    ensures RecordOk(d.records[id], d.born, d.acts, d.outcomes)
  {
  }

  lemma TellKeeps(d: Desk, id: Id, to: seq<string>)
    requires Inv(d) && id in d.records
    ensures Inv(Tell(d, id, to))
  {
    hide Books, Journal, Tally;
    var r := d.records[id];
    RecordIsOk(d, id);
    StateIsRight(id, r, d.stamp + 1, d.born, d.acts, d.outcomes, to);
    JournalGrows(d.told, Told(r.birth, StateOf(id, r, d.stamp + 1), to), d.stamp, d.born, d.outcomes);
  }

  lemma RefuseKeeps(d: Desk, id: Id, to: string)
    requires Inv(d)
    ensures Inv(Refuse(d, id, to))
  {
    hide Books, Journal, Tally;
    var s := EscrowState(id, d.stamp + 1, Aborted, [], [], [], None, Rejected);
    JournalGrows(d.told, Told(0, s, [to]), d.stamp, d.born, d.outcomes);
  }

  // ----- Opening -----

  lemma OpenedBooks(records: map<Id, Record>, id: Id, r: Record, born: nat, acts: set<Act>, outcomes: map<nat, Outcome>)
    requires Books(records, born, acts, outcomes) && id !in records
    requires r.birth == born + 1 && r.opener != r.other && r.phase == Open && r.reason == NoReason
    requires r.deposited == {} && r.committed == {} && r.blobs == map[]
    ensures Books(records[id := r], born + 1, acts, outcomes)
  {
    forall k | k in records
      ensures RecordOk(records[k], born + 1, acts, outcomes) && records[k].birth <= born
    {
      assert RecordOk(records[k], born, acts, outcomes);
    }
    forall b | b in outcomes
      ensures OutcomeOk(b, outcomes[b], born + 1, acts) && b <= born
    {
      assert OutcomeOk(b, outcomes[b], born, acts);
    }
    assert RecordOk(r, born + 1, acts, outcomes);
  }

  lemma LiveGains(records: map<Id, Record>, id: Id, r: Record)
    requires id !in records && !r.Terminal()
    ensures |LiveIds(records[id := r])| == |LiveIds(records)| + 1
  {
    assert LiveIds(records[id := r]) == LiveIds(records) + {id};
  }

  lemma LiveOfGains(records: map<Id, Record>, id: Id, r: Record, p: string)
    requires id !in records && !r.Terminal()
    ensures |LiveOf(records[id := r], p)| == |LiveOf(records, p)| + if p == r.opener then 1 else 0
  {
    assert LiveOf(records[id := r], p) == LiveOf(records, p) + if p == r.opener then {id} else {};
  }

  lemma OpenedTally(records: map<Id, Record>, id: Id, r: Record, live: int, liveBy: map<string, int>)
    requires Tally(records, live, liveBy) && id !in records && !r.Terminal()
    requires live < MAX_LIVE && Count(liveBy, r.opener) < MAX_LIVE_PER_MEMBER && |records| < MAX_RECORDS
    ensures Tally(records[id := r], live + 1, Raised(liveBy, r.opener))
  {
    hide LiveIds, LiveOf;
    var tally := Raised(liveBy, r.opener);
    LiveGains(records, id, r);
    forall p
      ensures Count(tally, p) == |LiveOf(records[id := r], p)| && Count(tally, p) <= MAX_LIVE_PER_MEMBER
    {
      LiveOfGains(records, id, r, p);
      assert Count(liveBy, p) == |LiveOf(records, p)|;
    }
    assert records[id := r].Keys == records.Keys + {id};
  }

  lemma OpenedKeeps(d: Desk, id: Id, opener: string, other: string)
    requires Inv(d) && id !in d.records && opener != other && !Full(d, opener) && |d.records| < MAX_RECORDS
    ensures Inv(Opened(d, id, opener, other))
  {
    hide Books, Journal, Tally;
    var r := Record(d.born + 1, opener, other, map[], {}, {}, Open, NoReason, 0);
    OpenedBooks(d.records, id, r, d.born, d.acts, d.outcomes);
    OpenedTally(d.records, id, r, d.live, d.liveBy);
    JournalAges(d.told, d.stamp, d.born, d.outcomes);
  }

  lemma JournalAges(told: seq<Told>, stamp: nat, born: nat, outcomes: map<nat, Outcome>)
    requires Journal(told, stamp, born, outcomes)
    ensures Journal(told, stamp, born + 1, outcomes)
  {
    forall i | 0 <= i < |told|
      ensures ToldOk(told[i], stamp, born + 1, outcomes)
    {
      assert ToldOk(told[i], stamp, born, outcomes);
    }
  }

  // ----- Deleting an ended record -----

  lemma DeletedBooks(records: map<Id, Record>, id: Id, born: nat, acts: set<Act>, outcomes: map<nat, Outcome>)
    requires Books(records, born, acts, outcomes)
    ensures Books(records - {id}, born, acts, outcomes)
  {
    forall k | k in records - {id}
      ensures RecordOk((records - {id})[k], born, acts, outcomes)
    {
      assert RecordOk(records[k], born, acts, outcomes);
    }
  }

  lemma DeletedTally(records: map<Id, Record>, id: Id, live: int, liveBy: map<string, int>)
    requires Tally(records, live, liveBy) && id in records && records[id].Terminal()
    ensures Tally(records - {id}, live, liveBy)
    ensures |records - {id}| == |records| - 1
  {
    assert LiveIds(records - {id}) == LiveIds(records);
    forall p
      ensures LiveOf(records - {id}, p) == LiveOf(records, p)
    {
    }
    assert (records - {id}).Keys == records.Keys - {id};
    assert |(records - {id}).Keys| == |records.Keys| - 1;
  }

  lemma DeletedKeeps(d: Desk, id: Id)
    requires Inv(d) && id in d.records && d.records[id].Terminal()
    ensures Inv(d.(records := d.records - {id}))
    ensures |d.records - {id}| == |d.records| - 1
  {
    hide Books, Journal, Tally;
    DeletedBooks(d.records, id, d.born, d.acts, d.outcomes);
    DeletedTally(d.records, id, d.live, d.liveBy);
  }

  lemma SomeEnded(d: Desk)
    requires Inv(d) && |d.records| >= MAX_RECORDS
    ensures exists id :: id in d.records && d.records[id].Terminal()
  {
    SubsetSize(LiveIds(d.records), d.records.Keys);
    assert LiveIds(d.records) != d.records.Keys;
  }

  lemma VictimIsEnded(d: Desk, id: Id)
    requires Victim(d, id)
    ensures id in d.records && d.records[id].Terminal()
  {
  }

  /** A full table always has a record to evict: at most a quarter of it is live. */
  lemma VictimExists(d: Desk)
    requires Inv(d) && |d.records| >= MAX_RECORDS
    ensures exists id :: Victim(d, id)
  {
    SomeEnded(d);
    hide Inv;
    var id :| id in d.records && d.records[id].Terminal();
    if k :| k in d.records && Evictable(d, k, false) {
      var o := OldestAmong(d, d.records.Keys, false, k);
      assert Victim(d, o);
    } else {
      assert Evictable(d, id, true);
      var o := OldestAmong(d, d.records.Keys, true, id);
      assert Victim(d, o);
    }
  }

  lemma {:induction false} OldestAmong(d: Desk, ids: set<Id>, owed: bool, k: Id) returns (o: Id)
    requires ids <= d.records.Keys && k in ids && Evictable(d, k, owed)
    ensures o in ids && Evictable(d, o, owed)
    ensures forall j | j in ids && Evictable(d, j, owed) :: d.records[o].terminalAt <= d.records[j].terminalAt
    decreases |ids|
  {
    o := k;
    if j :| j in ids && Evictable(d, j, owed) && d.records[j].terminalAt < d.records[k].terminalAt {
      assert |ids - {k}| < |ids|;
      o := OldestAmong(d, ids - {k}, owed, j);
    }
  }

  // ----- Changing a live record -----

  lemma PutBooks(records: map<Id, Record>, id: Id, r: Record, act: Act, born: nat, acts: set<Act>,
                 outcomes: map<nat, Outcome>)
    requires Books(records, born, acts, outcomes)
    requires id in records && !records[id].Terminal() && !r.Terminal() && act.birth == r.birth == records[id].birth
    requires records[id].deposited <= r.deposited
    requires act.deed.Gave? ==> act.who !in records[id].deposited && act.who in r.deposited
    requires RecordOk(r, born, acts + {act}, outcomes)
    ensures Books(records[id := r], born, acts + {act}, outcomes)
  {
    forall k | k in records && k != id
      ensures RecordOk(records[k], born, acts + {act}, outcomes)
    {
      assert RecordOk(records[k], born, acts, outcomes);
    }
    assert RecordOk(records[id], born, acts, outcomes);
    forall b | b in outcomes
      ensures OutcomeOk(b, outcomes[b], born, acts + {act})
    {
      assert OutcomeOk(b, outcomes[b], born, acts);
    }
    PutGaveOnce(records, id, r, act, born, acts);
  }

  lemma PutGaveOnce(records: map<Id, Record>, id: Id, r: Record, act: Act, born: nat, acts: set<Act>)
    requires GaveOnce(acts, born, records) && Distinct(records) && act.birth <= born
    requires id in records && !records[id].Terminal() && !r.Terminal() && act.birth == r.birth == records[id].birth
    requires records[id].deposited <= r.deposited
    requires act.deed.Gave? ==> act.who !in records[id].deposited && act.who in r.deposited
    ensures GaveOnce(acts + {act}, born, records[id := r])
  {
    forall a | a in acts && a.birth == act.birth && a.who == act.who && a.deed.Gave?
      ensures !act.deed.Gave?
    {
      assert Recorded(acts, records[id]);
    }
    forall k | k in records && k != id && !records[k].Terminal()
      ensures Recorded(acts + {act}, records[k])
    {
      assert Recorded(acts, records[k]) && act.birth != records[k].birth;
    }
    assert Recorded(acts, records[id]) && Recorded(acts + {act}, r);
  }

  lemma PutTally(records: map<Id, Record>, id: Id, r: Record, live: int, liveBy: map<string, int>)
    requires Tally(records, live, liveBy) && id in records && !records[id].Terminal() && !r.Terminal()
    requires r.opener == records[id].opener
    ensures Tally(records[id := r], live, liveBy)
  {
    assert LiveIds(records[id := r]) == LiveIds(records);
    forall p
      ensures LiveOf(records[id := r], p) == LiveOf(records, p)
    {
    }
    assert records[id := r].Keys == records.Keys;
    assert |records[id := r]| == |records|;
  }

  lemma PutKeeps(d: Desk, id: Id, r: Record, act: Act)
    requires Inv(d) && id in d.records && !d.records[id].Terminal() && !r.Terminal()
    requires act.birth == r.birth == d.records[id].birth && r.opener == d.records[id].opener
    requires d.records[id].deposited <= r.deposited
    requires act.deed.Gave? ==> act.who !in d.records[id].deposited && act.who in r.deposited
    requires RecordOk(r, d.born, d.acts + {act}, d.outcomes)
    ensures Inv(Put(d, id, r).(acts := d.acts + {act}))
  {
    hide Books, Journal, Tally, RecordOk;
    PutBooks(d.records, id, r, act, d.born, d.acts, d.outcomes);
    PutTally(d.records, id, r, d.live, d.liveBy);
  }

  // ----- Finishing -----

  lemma FinishBooks(records: map<Id, Record>, id: Id, t: Record, born: nat, acts: set<Act>, outcomes: map<nat, Outcome>)
    requires Books(records, born, acts, outcomes) && id in records && !records[id].Terminal() && t.Terminal()
    requires t.birth == records[id].birth && 1 <= t.birth <= born && t.opener != t.other
    requires t.deposited <= {t.opener, t.other} && t.committed <= {t.opener, t.other}
    requires OutcomeOk(t.birth, OutcomeOf(t), born, acts)
    ensures Books(records[id := t], born, acts, outcomes[t.birth := OutcomeOf(t)])
    ensures t.birth !in outcomes
  {
    assert RecordOk(records[id], born, acts, outcomes);
    forall k | k in records && k != id
      ensures RecordOk(records[k], born, acts, outcomes[t.birth := OutcomeOf(t)])
    {
      assert RecordOk(records[k], born, acts, outcomes) && records[k].birth != t.birth;
    }
    forall b | b in outcomes
      ensures OutcomeOk(b, outcomes[b], born, acts)
    {
    }
    assert RecordOk(t, born, acts, outcomes[t.birth := OutcomeOf(t)]);
  }

  lemma LiveLoses(records: map<Id, Record>, id: Id, t: Record)
    requires id in records && !records[id].Terminal() && t.Terminal()
    ensures |LiveIds(records[id := t])| == |LiveIds(records)| - 1
  {
    assert LiveIds(records[id := t]) == LiveIds(records) - {id};
  }

  lemma LiveOfLoses(records: map<Id, Record>, id: Id, t: Record, p: string)
    requires id in records && !records[id].Terminal() && t.Terminal()
    ensures |LiveOf(records[id := t], p)| == |LiveOf(records, p)| - if p == records[id].opener then 1 else 0
  {
    assert LiveOf(records[id := t], p) == LiveOf(records, p) - if p == records[id].opener then {id} else {};
  }

  lemma FinishTally(records: map<Id, Record>, id: Id, t: Record, live: int, liveBy: map<string, int>)
    requires Tally(records, live, liveBy) && id in records && !records[id].Terminal() && t.Terminal()
    ensures Tally(records[id := t], live - 1, Lowered(liveBy, records[id].opener))
  {
    hide LiveIds, LiveOf;
    var o := records[id].opener;
    var tally := Lowered(liveBy, o);
    LiveLoses(records, id, t);
    forall p
      ensures Count(tally, p) == |LiveOf(records[id := t], p)| && Count(tally, p) <= MAX_LIVE_PER_MEMBER
    {
      LiveOfLoses(records, id, t, p);
      assert Count(liveBy, p) == |LiveOf(records, p)|;
    }
    assert records[id := t].Keys == records.Keys;
    assert |records[id := t]| == |records|;
  }

  lemma JournalLearns(told: seq<Told>, stamp: nat, born: nat, outcomes: map<nat, Outcome>, b: nat, o: Outcome)
    requires Journal(told, stamp, born, outcomes) && b !in outcomes
    ensures Journal(told, stamp, born, outcomes[b := o])
  {
    forall i | 0 <= i < |told|
      ensures ToldOk(told[i], stamp, born, outcomes[b := o])
    {
      assert ToldOk(told[i], stamp, born, outcomes);
    }
  }

  /** Ending a live exchange: as committed only when both parties are ready. */
  lemma FinishKeeps(d: Desk, id: Id, phase: Phase, reason: Reason, now: int)
    requires Inv(d) && id in d.records && !d.records[id].Terminal()
    requires phase == Aborted || (phase == Committed && d.records[id].Ready())
    ensures Inv(Finish(d, id, phase, reason, now))
  {
    hide Books, Journal, Tally;
    var r := d.records[id];
    var t := r.(phase := phase, reason := reason, terminalAt := now,
                blobs := if phase == Committed then r.blobs else map[]);
    RecordIsOk(d, id);
    assert phase == Committed ==> r.deposited == {r.opener, r.other} == r.committed;
    assert OutcomeOk(t.birth, OutcomeOf(t), d.born, d.acts);
    FinishBooks(d.records, id, t, d.born, d.acts, d.outcomes);
    FinishTally(d.records, id, t, d.live, d.liveBy);
    JournalLearns(d.told, d.stamp, d.born, d.outcomes, t.birth, OutcomeOf(t));
    var e := d.(records := d.records[id := t], live := d.live - 1, liveBy := Lowered(d.liveBy, r.opener),
                outcomes := d.outcomes[t.birth := OutcomeOf(t)]);
    TellKeeps(e, id, [r.opener, r.other]);
  }

  lemma SettleKeeps(d: Desk, id: Id, now: int)
    requires Inv(d) && id in d.records && !d.records[id].Terminal()
    ensures Inv(Settle(d, id, now))
  {
    if d.records[id].Ready() {
      FinishKeeps(d, id, Committed, NoReason, now);
    } else {
      TellKeeps(d, id, [d.records[id].opener, d.records[id].other]);
    }
  }

  // ----- Every step -----

  /** No live exchange is complete: it ends with the step that completes it. */
  ghost predicate NoneReady(records: map<Id, Record>) {
    forall id | id in records && !records[id].Terminal() :: !records[id].Ready()
  }

  ghost predicate Sound(d: Desk) {
    Inv(d) && NoneReady(d.records)
  }

  lemma OpeningKeeps(d: Desk, from: string, id: Id, with: string, victim: Option<Id>, now: int)
    requires Sound(d) && Legal(d, Ask(from, id, OpenWith(with), victim, now))
    ensures Sound(Opening(d, from, id, with, victim))
  {
    hide Books, Journal, Tally, StateOf, Victim;
    if !Opens(d, from, id, with) {
      RefuseKeeps(d, id, from);
    } else {
      if victim.Some? {
        VictimIsEnded(d, victim.value);
        DeletedKeeps(d, victim.value);
      }
      var e := Evicted(d, victim);
      RecordsBounded(d);
      OpenedKeeps(e, id, from, with);
      TellKeeps(Opened(e, id, from, with), id, [from, with]);
    }
  }

  lemma RecordsBounded(d: Desk)
    requires Inv(d)
    ensures |d.records| <= MAX_RECORDS
  {
  }

  lemma GivenIsOk(r: Record, from: string, blob: Text, born: nat, acts: set<Act>, outcomes: map<nat, Outcome>)
    requires RecordOk(r, born, acts, outcomes) && !r.Terminal() && r.IsParty(from) && from !in r.deposited
    ensures RecordOk(Given(r, from, blob), born, acts + {Act(r.birth, from, Gave(blob))}, outcomes)
  {
  }

  lemma AgreedIsOk(r: Record, from: string, born: nat, acts: set<Act>, outcomes: map<nat, Outcome>)
    requires RecordOk(r, born, acts, outcomes) && !r.Terminal() && r.IsParty(from)
    ensures RecordOk(r.(committed := r.committed + {from}), born, acts + {Act(r.birth, from, Agreed)}, outcomes)
  {
  }

  lemma SettledNoneReady(records: map<Id, Record>, d: Desk, id: Id, r: Record, now: int)
    requires NoneReady(records) && id in records && d.records == records[id := r] && !r.Terminal()
    ensures NoneReady(Settle(d, id, now).records)
  {
  }

  lemma DepositingKeeps(d: Desk, from: string, id: Id, blob: Option<Text>, now: int)
    requires Sound(d)
    ensures Sound(Depositing(d, from, id, blob, now))
  {
    hide Books, Journal, Tally, RecordOk, NoneReady, Settle;
    if id in d.records && !d.records[id].Terminal() && d.records[id].IsParty(from) && from !in d.records[id].deposited {
      var r := d.records[id];
      var s := Given(r, from, Offered(blob));
      var act := Act(r.birth, from, Gave(Offered(blob)));
      RecordIsOk(d, id);
      GivenIsOk(r, from, Offered(blob), d.born, d.acts, d.outcomes);
      PutKeeps(d, id, s, act);
      var e := Put(d, id, s).(acts := d.acts + {act});
      SettleKeeps(e, id, now);
      SettledNoneReady(d.records, e, id, s, now);
    }
  }

  lemma CommittingKeeps(d: Desk, from: string, id: Id, now: int)
    requires Sound(d)
    ensures Sound(Committing(d, from, id, now))
  {
    hide Books, Journal, Tally, RecordOk, NoneReady, Settle;
    if id in d.records && !d.records[id].Terminal() && d.records[id].IsParty(from) && from !in d.records[id].committed {
      var r := d.records[id];
      var s := r.(committed := r.committed + {from});
      var act := Act(r.birth, from, Agreed);
      RecordIsOk(d, id);
      AgreedIsOk(r, from, d.born, d.acts, d.outcomes);
      PutKeeps(d, id, s, act);
      var e := Put(d, id, s).(acts := d.acts + {act});
      SettleKeeps(e, id, now);
      SettledNoneReady(d.records, e, id, s, now);
    }
  }

  lemma EndingKeeps(d: Desk, id: Id, reason: Reason, now: int)
    requires Sound(d) && id in d.records && !d.records[id].Terminal()
    ensures Sound(Finish(d, id, Aborted, reason, now))
  {
    hide Books, Journal, Tally;
    FinishKeeps(d, id, Aborted, reason, now);
  }

  lemma {:induction false} AbortAllKeeps(d: Desk, ids: seq<Id>, party: string, now: int)
    requires Sound(d)
    ensures Sound(AbortAll(d, ids, party, now))
  {
    hide Sound;
    if ids != [] {
      AbortAllKeeps(d, Front(ids), party, now);
      var e := AbortAll(d, Front(ids), party, now);
      var id := Last(ids);
      if id in e.records && !e.records[id].Terminal() && e.records[id].IsParty(party) {
        EndingKeeps(e, id, PartyLeft, now);
      }
    }
  }

  lemma {:induction false} SnapshottingKeeps(d: Desk, to: string, listing: seq<Id>)
    requires Inv(d) && forall id | id in listing :: id in d.records
    ensures Inv(Snapshotting(d, to, listing))
  {
    hide Inv;
    if listing != [] {
      SnapshottingKeeps(d, to, Front(listing));
      if |listing| <= MAX_SNAPSHOT_LINES {
        TellKeeps(Snapshotting(d, to, Front(listing)), Last(listing), [to]);
      }
    }
  }

  lemma RetiringKeeps(d: Desk, id: Id, birth: nat)
    requires Sound(d) && birth in d.outcomes
    ensures Sound(Retiring(d, id, birth))
  {
    hide Books, Journal, Tally;
    if id in d.records && d.records[id].birth == birth {
      RecordIsOk(d, id);
      DeletedKeeps(d, id);
    }
  }

  lemma StampsElsewhere(d: Desk, stamps: nat)
    requires Sound(d)
    ensures Sound(d.(stamp := d.stamp + stamps))
  {
    hide Books, Tally;
    forall i | 0 <= i < |d.told|
      ensures ToldOk(d.told[i], d.stamp + stamps, d.born, d.outcomes)
    {
      assert ToldOk(d.told[i], d.stamp, d.born, d.outcomes);
    }
  }

  lemma StepKeeps(d: Desk, op: Op)
    requires Sound(d) && Legal(d, op)
    ensures Sound(Step(d, op))
  {
    hide Books, Journal, Tally, NoneReady, Opening, Depositing, Committing, AbortAll, Finish, Snapshotting, Retiring;
    match op {
      case Ask(from, id, OpenWith(with), victim, now) => OpeningKeeps(d, from, id, with, victim, now);
      case Ask(from, id, Deposit(blob), _, now) => DepositingKeeps(d, from, id, blob, now);
      case Ask(from, id, Commit, _, now) => CommittingKeeps(d, from, id, now);
      case Ask(from, id, Abort, _, now) =>
        if id in d.records && !d.records[id].Terminal() {
          EndingKeeps(d, id, ByParty, now);
        }
      case Timeout(id, now) =>
        if id in d.records && !d.records[id].Terminal() {
          EndingKeeps(d, id, TimedOut, now);
        }
      case Depart(who, order, now) => AbortAllKeeps(d, order, who, now);
      case Snapshot(to, listing) => SnapshottingKeeps(d, to, listing);
      case Retire(id, birth) => RetiringKeeps(d, id, birth);
      case Elsewhere(stamps) => StampsElsewhere(d, stamps);
      case _ =>
    }
  }

  // ----- Every run -----

  ghost predicate LegalRun(ops: seq<Op>)
    decreases |ops|, 0
  {
    ops == [] || (LegalRun(Front(ops)) && Legal(Run(Front(ops)), Last(ops)))
  }

  ghost function Run(ops: seq<Op>): Desk
    requires LegalRun(ops)
    decreases |ops|, 1
  {
    if ops == [] then NEW_DESK else Step(Run(Front(ops)), Last(ops))
  }

  lemma NewDeskIsSound()
    ensures Sound(NEW_DESK)
  {
    assert LiveIds(map[]) == {};
    assert forall p :: LiveOf(map[], p) == {};
  }

  lemma {:induction false} RunKeeps(ops: seq<Op>)
    requires LegalRun(ops)
    ensures Sound(Run(ops))
  {
    if ops == [] {
      NewDeskIsSound();
    } else {
      RunKeeps(Front(ops));
      hide Sound, Step;
      StepKeeps(Run(Front(ops)), Last(ops));
    }
  }

  /**
    Both or neither. Blobs leave the relay only in a committed state; that state carries exactly the deposits both
    parties made, after both of them also committed; and every line that reports an exchange over reports the same
    end, so both parties read one identical map, or none.
   */
  lemma BothOrNeither(ops: seq<Op>, i: nat, j: nat)
    requires LegalRun(ops) && i < |Run(ops).told| && j < |Run(ops).told|
    ensures var d := Run(ops);
            var s, t := d.told[i], d.told[j];
            && (s.state.blobs.Some? <==> s.state.phase == Committed)
            && (s.state.phase == Committed ==>
                  && |s.state.parties| == 2 && s.state.parties[0] != s.state.parties[1]
                  && s.state.blobs.value.Keys == {s.state.parties[0], s.state.parties[1]}
                  && forall p | p in s.state.blobs.value ::
                       && Act(s.birth, p, Agreed) in d.acts
                       && Act(s.birth, p, Gave(s.state.blobs.value[p])) in d.acts
                       && forall x | Act(s.birth, p, Gave(x)) in d.acts :: x == s.state.blobs.value[p])
            && (s.birth == t.birth > 0 && Final(s.state.phase) && Final(t.state.phase) ==>
                  && s.state.phase == t.state.phase && s.state.blobs == t.state.blobs
                  && s.state.parties == t.state.parties && s.state.reason == t.state.reason)
            && (s.birth == t.birth > 0 && Final(s.state.phase) && i < j ==> Final(t.state.phase))
  {
    RunKeeps(ops);
    hide Tally, NoneReady, Run, LegalRun;
    var d := Run(ops);
    var s := d.told[i];
    assert ToldOk(s, d.stamp, d.born, d.outcomes) && ToldOk(d.told[j], d.stamp, d.born, d.outcomes);
    if s.state.phase == Committed {
      var o := d.outcomes[s.birth];
      assert OutcomeOk(s.birth, o, d.born, d.acts);
      assert GaveOnce(d.acts, d.born, d.records);
    }
  }

  lemma LiveIsOpenEnded(d: Desk, id: Id)
    requires Sound(d) && id in d.records && !d.records[id].Terminal()
    ensures d.records[id].birth !in d.outcomes
  {
    RecordIsOk(d, id);
  }

  lemma {:induction false} AbortAllKeepsOutcomes(d: Desk, ids: seq<Id>, party: string, now: int, b: nat)
    requires Sound(d) && b in d.outcomes
    ensures var e := AbortAll(d, ids, party, now); b in e.outcomes && e.outcomes[b] == d.outcomes[b]
  {
    hide Sound;
    if ids != [] {
      AbortAllKeepsOutcomes(d, Front(ids), party, now, b);
      AbortAllKeeps(d, Front(ids), party, now);
      var e := AbortAll(d, Front(ids), party, now);
      if Last(ids) in e.records && !e.records[Last(ids)].Terminal() {
        LiveIsOpenEnded(e, Last(ids));
      }
    }
  }

  lemma SettleSpares(d: Desk, id: Id, now: int, b: nat)
    requires id in d.records && d.records[id].birth != b && b in d.outcomes
    ensures var e := Settle(d, id, now); b in e.outcomes && e.outcomes[b] == d.outcomes[b]
  {
  }

  lemma GivenIsSame(r: Record, from: string, blob: Text)
    ensures Given(r, from, blob).birth == r.birth
  {
  }

  lemma AskSpares(d: Desk, from: string, id: Id, req: Request, victim: Option<Id>, now: int, b: nat)
    requires Sound(d) && Legal(d, Ask(from, id, req, victim, now)) && b in d.outcomes
    ensures var e := Step(d, Ask(from, id, req, victim, now)); b in e.outcomes && e.outcomes[b] == d.outcomes[b]
  {
    hide Sound, Settle, Given, Opens, Victim;
    if id in d.records && !d.records[id].Terminal() {
      var r := d.records[id];
      LiveIsOpenEnded(d, id);
      match req {
        case Deposit(blob) =>
          var s := Given(r, from, Offered(blob));
          GivenIsSame(r, from, Offered(blob));
          SettleSpares(Put(d, id, s).(acts := d.acts + {Act(r.birth, from, Gave(Offered(blob)))}), id, now, b);
        case Commit =>
          var s := r.(committed := r.committed + {from});
          SettleSpares(Put(d, id, s).(acts := d.acts + {Act(r.birth, from, Agreed)}), id, now, b);
        case _ =>
      }
    }
  }

  /** Once an exchange has ended, no step changes how. */
  lemma OutcomesAreForever(d: Desk, op: Op, b: nat)
    requires Sound(d) && Legal(d, op) && b in d.outcomes
    ensures b in Step(d, op).outcomes && Step(d, op).outcomes[b] == d.outcomes[b]
  {
    match op {
      case Depart(who, order, now) => AbortAllKeepsOutcomes(d, order, who, now, b);
      case Ask(from, id, req, victim, now) => AskSpares(d, from, id, req, victim, now, b);
      case Timeout(id, _) =>
        hide Sound;
        if id in d.records && !d.records[id].Terminal() {
          LiveIsOpenEnded(d, id);
        }
      case _ =>
        hide Sound;
    }
  }

  /** How an exchange may end, and by whom. */
  ghost predicate EndedBy(op: Op, id: Id, o: Outcome) {
    match op
    case Ask(from, k, Deposit(_), _, _) => k == id && (from == o.opener || from == o.other) && o.phase == Committed
    case Ask(from, k, Commit, _, _) => k == id && (from == o.opener || from == o.other) && o.phase == Committed
    case Ask(from, k, Abort, _, _) =>
      k == id && (from == o.opener || from == o.other) && o.phase == Aborted && o.reason == ByParty
    case Timeout(k, _) => k == id && o.phase == Aborted && o.reason == TimedOut
    case Depart(who, _, _) => (who == o.opener || who == o.other) && o.phase == Aborted && o.reason == PartyLeft
    case _ => false
  }

  /** What a settled step leaves of its own record: live, or committed. */
  lemma SettleEnds(d: Desk, id: Id, now: int)
    requires id in d.records && !d.records[id].Terminal()
    ensures var e, r := Settle(d, id, now), d.records[id];
            && e.acts == d.acts && e.records.Keys == d.records.Keys
            && (forall k | k in d.records && k != id :: e.records[k] == d.records[k])
            && e.records[id].birth == r.birth && e.records[id].opener == r.opener && e.records[id].other == r.other
            && (e.records[id] == r || e.records[id].phase == Committed)
  {
  }

  lemma GivenIsLive(r: Record, from: string, blob: Text)
    requires !r.Terminal()
    ensures var s := Given(r, from, blob);
            s.birth == r.birth && s.opener == r.opener && s.other == r.other && !s.Terminal()
  {
  }

  lemma PartEnds(d: Desk, from: string, k: Id, req: Request, now: int, id: Id)
    requires id in d.records && !d.records[id].Terminal() && (req.Deposit? || req.Commit?)
    ensures var e := if req.Deposit? then Depositing(d, from, k, req.blob, now) else Committing(d, from, k, now);
            && id in e.records && e.records[id].birth == d.records[id].birth
            && (e.records[id].Terminal() ==> EndedBy(Ask(from, k, req, None, now), id, OutcomeOf(e.records[id])))
  {
    hide Settle, Given;
    if k in d.records && !d.records[k].Terminal() && d.records[k].IsParty(from) {
      var r := d.records[k];
      if req.Deposit? {
        var s := Given(r, from, Offered(req.blob));
        GivenIsLive(r, from, Offered(req.blob));
        SettleEnds(Put(d, k, s).(acts := d.acts + {Act(r.birth, from, Gave(Offered(req.blob)))}), k, now);
      } else {
        var s := r.(committed := r.committed + {from});
        SettleEnds(Put(d, k, s).(acts := d.acts + {Act(r.birth, from, Agreed)}), k, now);
      }
    }
  }

  lemma PartActs(d: Desk, from: string, k: Id, req: Request, now: int)
    requires req.Deposit? || req.Commit?
    ensures var e := if req.Deposit? then Depositing(d, from, k, req.blob, now) else Committing(d, from, k, now);
            forall a | a in e.acts && a !in d.acts :: AsksFor(d, Ask(from, k, req, None, now), a)
  {
    hide Given, Settle;
    if k in d.records && !d.records[k].Terminal() && d.records[k].IsParty(from) {
      var r := d.records[k];
      if req.Deposit? {
        GivenIsLive(r, from, Offered(req.blob));
        SettleEnds(Put(d, k, Given(r, from, Offered(req.blob)))
                     .(acts := d.acts + {Act(r.birth, from, Gave(Offered(req.blob)))}), k, now);
      } else {
        var s := r.(committed := r.committed + {from});
        SettleEnds(Put(d, k, s).(acts := d.acts + {Act(r.birth, from, Agreed)}), k, now);
      }
    }
  }

  /** A live exchange stays live, or is ended by a party's own step, its timeout, or a party leaving, and says so. */
  lemma EndsOnlyByItsOwn(d: Desk, op: Op, id: Id)
    requires Sound(d) && Legal(d, op) && id in d.records && !d.records[id].Terminal()
    ensures var e := Step(d, op);
            id in e.records && e.records[id].birth == d.records[id].birth &&
            (e.records[id].Terminal() ==> EndedBy(op, id, OutcomeOf(e.records[id])))
  {
    hide Inv, NoneReady, IsListing, Depositing, Committing, AbortAll, Victim, StateOf, Lowered;
    match op {
      case Depart(who, order, now) => DepartureEnds(d, order, who, now, id);
      case Ask(from, k, req, victim, now) =>
        if req.Deposit? || req.Commit? {
          PartEnds(d, from, k, req, now, id);
        } else if req.OpenWith? && victim.Some? {
          VictimIsEnded(d, victim.value);
        }
      case Retire(k, birth) => RetiresEnded(d, id);
      case _ =>
    }
  }

  lemma RetiresEnded(d: Desk, id: Id)
    requires Sound(d) && id in d.records && !d.records[id].Terminal()
    ensures d.records[id].birth !in d.outcomes
  {
    RecordIsOk(d, id);
  }

  lemma {:induction false} DepartureEnds(d: Desk, ids: seq<Id>, party: string, now: int, id: Id)
    requires id in d.records && !d.records[id].Terminal()
    ensures var e := AbortAll(d, ids, party, now).records;
            && id in e && e[id].birth == d.records[id].birth
            && e[id].opener == d.records[id].opener && e[id].other == d.records[id].other
            && (e[id].Terminal() <==> id in ids && d.records[id].IsParty(party))
            && (e[id].Terminal() ==> e[id].phase == Aborted && e[id].reason == PartyLeft)
  {
    if ids != [] {
      DepartureEnds(d, Front(ids), party, now, id);
      assert ids == Front(ids) + [Last(ids)];
    }
  }

  /** A request for act a: by the party it is filed under, with that blob, naming the exchange it is filed under. */
  predicate AsksFor(d: Desk, op: Op, a: Act) {
    && op.Ask? && op.from == a.who
    && op.id in d.records && d.records[op.id].birth == a.birth
    && match a.deed
       case Gave(blob) => op.req.Deposit? && Offered(op.req.blob) == blob
       case Agreed => op.req.Commit?
  }

  /** The k-th step of a run asked for act a. */
  ghost predicate AskedAt(ops: seq<Op>, k: nat, a: Act) {
    k < |ops| && LegalRun(ops[..k]) && AsksFor(Run(ops[..k]), ops[k], a)
  }

  lemma AskedEarlier(ops: seq<Op>, k: nat, a: Act)
    requires ops != [] && AskedAt(Front(ops), k, a)
    ensures AskedAt(ops, k, a)
  {
    assert Front(ops)[..k] == ops[..k];
    hide AsksFor, Run, LegalRun;
  }

  lemma AskedLast(ops: seq<Op>, a: Act)
    requires ops != [] && LegalRun(ops) && AsksFor(Run(Front(ops)), Last(ops), a)
    ensures AskedAt(ops, |ops| - 1, a)
  {
    assert ops[..|ops| - 1] == Front(ops);
    hide AsksFor, Run;
  }

  /** Every act on record is a request that party made in the run, naming the exchange it counts for. */
  lemma {:induction false} ActsWereAsked(ops: seq<Op>, a: Act)
    requires LegalRun(ops) && a in Run(ops).acts
    ensures exists k: nat :: AskedAt(ops, k, a)
  {
    if ops != [] {
      var d := Run(Front(ops));
      hide AsksFor, AskedAt, Step;
      if a in d.acts {
        ActsWereAsked(Front(ops), a);
        var k: nat :| AskedAt(Front(ops), k, a);
        AskedEarlier(ops, k, a);
      } else {
        NewActIsAsked(d, Last(ops), a);
        AskedLast(ops, a);
      }
    }
  }

  lemma NewActIsAsked(d: Desk, op: Op, a: Act)
    requires Legal(d, op) && a !in d.acts && a in Step(d, op).acts
    ensures AsksFor(d, op, a)
  {
    hide Victim, IsListing, Depositing, Committing, AbortAll;
    match op {
      case Depart(who, order, now) => DepartureActsNothing(d, order, who, now);
      case Ask(from, k, req, _, now) =>
        if req.Deposit? || req.Commit? {
          PartActs(d, from, k, req, now);
        }
      case _ =>
    }
  }

  lemma {:induction false} DepartureActsNothing(d: Desk, ids: seq<Id>, party: string, now: int)
    ensures AbortAll(d, ids, party, now).acts == d.acts
  {
    if ids != [] {
      DepartureActsNothing(d, Front(ids), party, now);
    }
  }

  // ----- Requests take effect -----

  /** e is d with one more line, about r under id in its present state, to both its parties. */
  ghost predicate TellsBoth(d: Desk, e: Desk, id: Id, r: Record) {
    && e.stamp == d.stamp + 1
    && e.told == d.told + [Told(r.birth, StateOf(id, r, d.stamp + 1), [r.opener, r.other])]
  }

  /** Nothing but id changes hands. */
  ghost predicate OnlyTouches(d: Desk, e: Desk, id: Id) {
    && (forall k | k in d.records && k != id :: k in e.records && e.records[k] == d.records[k])
    && (forall k | k in e.records && k != id :: k in d.records)
    && e.members == d.members && e.suspended == d.suspended && e.born == d.born
  }

  /** The live exchange id ends: its record says so, its outcome is noted, and both parties are told. */
  ghost predicate EndsNow(d: Desk, e: Desk, id: Id, phase: Phase, reason: Reason, blobs: map<string, Text>)
    requires id in d.records
  {
    && id in e.records
    && var r, t := d.records[id], e.records[id];
       && t.birth == r.birth && t.opener == r.opener && t.other == r.other
       && t.phase == phase && t.reason == reason && t.blobs == blobs
       && r.birth in e.outcomes && e.outcomes[r.birth] == Outcome(r.opener, r.other, phase, reason, blobs)
       && TellsBoth(d, e, id, t) && OnlyTouches(d, e, id)
  }

  /** The exchange is open between the two, both are told, and nothing but the evicted record is gone. */
  ghost predicate OpensNow(d: Desk, e: Desk, id: Id, from: string, with: string, victim: Option<Id>) {
    && e.born == d.born + 1 && id in e.records
    && e.records[id] == Record(e.born, from, with, map[], {}, {}, Open, NoReason, 0)
    && TellsBoth(d, e, id, e.records[id])
    && forall k | k in d.records && Some(k) != victim :: k in e.records && e.records[k] == d.records[k]
  }

  /** Only the asker is told, of a refusal. */
  ghost predicate RefusesNow(d: Desk, e: Desk, id: Id, from: string) {
    && e.records == d.records && e.stamp == d.stamp + 1 && e.born == d.born
    && e.told == d.told + [Told(0, EscrowState(id, e.stamp, Aborted, [], [], [], None, Rejected), [from])]
  }

  lemma GrantedIsOpen(d: Desk, from: string, id: Id, with: string, victim: Option<Id>)
    requires id !in d.records
    ensures OpensNow(d, Announce(Opened(Evicted(d, victim), id, from, with), id), id, from, with, victim)
  {
    hide StateOf, Raised;
  }

  lemma RefusedIsToldSo(d: Desk, id: Id, from: string)
    ensures RefusesNow(d, Refuse(d, id, from), id, from)
  {
  }

  /**
    An open is granted if and only if its id is unused, its partner is another member, and fewer than 64 exchanges are
    live and 8 of the opener's; otherwise it is refused.
   */
  lemma OpenIsHeeded(ops: seq<Op>, from: string, id: Id, with: string, victim: Option<Id>, now: int)
    requires LegalRun(ops) && Legal(Run(ops), Ask(from, id, OpenWith(with), victim, now))
    ensures var d := Run(ops);
            var e := Step(d, Ask(from, id, OpenWith(with), victim, now));
            if id !in d.records && with != "" && with != from && with in d.members
               && |LiveIds(d.records)| < 64 && |LiveOf(d.records, from)| < 8
            then OpensNow(d, e, id, from, with, victim) else RefusesNow(d, e, id, from)
  {
    var d := Run(ops);
    FullByCount(ops, from);
    hide Run, LegalRun, LiveIds, LiveOf, OpensNow, RefusesNow, Announce, Opened, Evicted, Refuse, Full;
    RefusedIsToldSo(d, id, from);
    if id !in d.records {
      GrantedIsOpen(d, from, id, with, victim);
    }
  }

  lemma FullByCount(ops: seq<Op>, from: string)
    requires LegalRun(ops)
    ensures var d := Run(ops);
            Full(d, from) <==> |LiveIds(d.records)| >= 64 || |LiveOf(d.records, from)| >= 8
  {
    TableAccounting(ops);
    hide Run, LegalRun, LiveIds, LiveOf, Victim, NoneReady;
  }

  /** What a deposit or a commitment adds to a record. */
  function WithPart(r: Record, from: string, req: Request): Record
    requires req.Deposit? || req.Commit?
  {
    if req.Deposit? then r.(blobs := r.blobs[from := Offered(req.blob)], deposited := r.deposited + {from})
    else r.(committed := r.committed + {from})
  }

  /** A party of a live exchange has yet to do this. */
  predicate MayStill(d: Desk, from: string, id: Id, req: Request)
    requires req.Deposit? || req.Commit?
  {
    && id in d.records && !d.records[id].Terminal() && (from == d.records[id].opener || from == d.records[id].other)
    && from !in if req.Deposit? then d.records[id].deposited else d.records[id].committed
  }

  /** The part counts: the exchange commits with it when it was the last one missing, and otherwise says it has it. */
  ghost predicate PartCounts(d: Desk, e: Desk, from: string, id: Id, req: Request)
    requires req.Deposit? || req.Commit?
    requires id in d.records
  {
    var r := WithPart(d.records[id], from, req);
    var both := {r.opener, r.other};
    if r.deposited == both && r.committed == both then EndsNow(d, e, id, Committed, NoReason, r.blobs)
    else
      && id in e.records
      && e.records[id] == r.(phase := if r.deposited == both then Deposited else Open)
      && TellsBoth(d, e, id, e.records[id]) && OnlyTouches(d, e, id) && e.outcomes == d.outcomes
  }

  lemma FinishEndsNow(d: Desk, id: Id, phase: Phase, reason: Reason, now: int)
    requires id in d.records && (phase == Committed || phase == Aborted)
    ensures EndsNow(d, Finish(d, id, phase, reason, now), id, phase, reason,
                    if phase == Committed then d.records[id].blobs else map[])
  {
    hide StateOf, Lowered;
  }

  /** e0 is d with id's record changed, but for what names it. */
  ghost predicate PutFrom(d: Desk, e0: Desk, id: Id, s: Record) {
    && id in d.records && e0 == Put(d, id, s).(acts := e0.acts)
    && s.birth == d.records[id].birth && s.opener == d.records[id].opener && s.other == d.records[id].other
  }

  lemma EndsNowFrom(d: Desk, e0: Desk, e: Desk, id: Id, s: Record, phase: Phase, reason: Reason,
                    blobs: map<string, Text>)
    requires PutFrom(d, e0, id, s) && EndsNow(e0, e, id, phase, reason, blobs)
    ensures EndsNow(d, e, id, phase, reason, blobs)
  {
    hide StateOf;
  }

  lemma TellsFrom(d: Desk, e0: Desk, id: Id, s: Record)
    requires PutFrom(d, e0, id, s)
    ensures var e := Announce(e0, id);
            id in e.records && e.records[id] == s && TellsBoth(d, e, id, s) && OnlyTouches(d, e, id)
            && e.outcomes == d.outcomes
  {
    hide StateOf;
  }

  /** A live record after from's part is in. */
  function After(r: Record, from: string, req: Request): Record
    requires req.Deposit? || req.Commit?
  {
    if req.Deposit? then Given(r, from, Offered(req.blob)) else r.(committed := r.committed + {from})
  }

  /** All four parts are in exactly when both sets hold both parties. */
  lemma PartsComplete(r: Record, from: string, req: Request)
    requires req.Deposit? || req.Commit?
    requires r.deposited <= {r.opener, r.other} && r.committed <= {r.opener, r.other} && r.IsParty(from)
    requires r.phase == if r.BothDeposited() then Deposited else Open
    ensures var s, both := After(r, from, req), {r.opener, r.other};
            && (s.Ready() <==> s.deposited == both && s.committed == both)
            && s == WithPart(r, from, req).(phase := if s.deposited == both then Deposited else Open)
  {
  }

  lemma PartSteps(d: Desk, from: string, id: Id, req: Request, now: int)
    requires (req.Deposit? || req.Commit?) && MayStill(d, from, id, req)
    ensures var e := if req.Deposit? then Depositing(d, from, id, req.blob, now) else Committing(d, from, id, now);
            var s := After(d.records[id], from, req);
            exists e0 :: PutFrom(d, e0, id, s) && e == Settle(e0, id, now)
  {
    var r := d.records[id];
    var s := After(r, from, req);
    var act := Act(r.birth, from, if req.Deposit? then Gave(Offered(req.blob)) else Agreed);
    var e0 := Put(d, id, s).(acts := d.acts + {act});
    assert PutFrom(d, e0, id, s);
    hide Settle;
  }

  lemma SettledCounts(d: Desk, e0: Desk, from: string, id: Id, req: Request, now: int)
    requires (req.Deposit? || req.Commit?) && id in d.records
    requires var r := d.records[id];
             r.deposited <= {r.opener, r.other} && r.committed <= {r.opener, r.other} && r.IsParty(from)
             && r.phase == if r.BothDeposited() then Deposited else Open
    requires PutFrom(d, e0, id, After(d.records[id], from, req))
    ensures PartCounts(d, Settle(e0, id, now), from, id, req)
  {
    var s := After(d.records[id], from, req);
    PartsComplete(d.records[id], from, req);
    hide After;
    if s.Ready() {
      FinishEndsNow(e0, id, Committed, NoReason, now);
      hide EndsNow, Finish;
      EndsNowFrom(d, e0, Finish(e0, id, Committed, NoReason, now), id, s, Committed, NoReason, s.blobs);
    } else {
      TellsFrom(d, e0, id, s);
      hide TellsBoth, OnlyTouches, Announce, EndsNow;
    }
  }

  /** A party's first deposit or commitment in a live exchange counts; any other changes nothing. */
  lemma PartIsHeeded(d: Desk, from: string, id: Id, req: Request, victim: Option<Id>, now: int)
    requires Sound(d) && (req.Deposit? || req.Commit?) && Legal(d, Ask(from, id, req, victim, now))
    ensures var e := Step(d, Ask(from, id, req, victim, now));
            if MayStill(d, from, id, req) then PartCounts(d, e, from, id, req) else e == d
  {
    if MayStill(d, from, id, req) {
      RecordIsOk(d, id);
      PartSteps(d, from, id, req, now);
      hide Sound, Depositing, Committing, Settle, PartCounts, After;
      var e := Step(d, Ask(from, id, req, victim, now));
      var e0 :| PutFrom(d, e0, id, After(d.records[id], from, req)) && e == Settle(e0, id, now);
      SettledCounts(d, e0, from, id, req, now);
    }
  }

  /** A party's abort ends its live exchange; any other abort changes nothing. */
  lemma AbortIsHeeded(d: Desk, from: string, id: Id, victim: Option<Id>, now: int)
    requires Legal(d, Ask(from, id, Abort, victim, now))
    ensures var e := Step(d, Ask(from, id, Abort, victim, now));
            if id in d.records && !d.records[id].Terminal() && from in {d.records[id].opener, d.records[id].other}
            then EndsNow(d, e, id, Aborted, ByParty, map[]) else e == d
  {
    if id in d.records {
      FinishEndsNow(d, id, Aborted, ByParty, now);
    }
    hide EndsNow, Finish;
  }

  /** A timeout ends a live exchange of its id; on any other id it changes nothing. */
  lemma TimeoutIsHeeded(d: Desk, id: Id, now: int)
    ensures var e := Step(d, Timeout(id, now));
            if id in d.records && !d.records[id].Terminal() then EndsNow(d, e, id, Aborted, TimedOut, map[]) else e == d
  {
    if id in d.records {
      FinishEndsNow(d, id, Aborted, TimedOut, now);
    }
    hide EndsNow, Finish;
  }

  /** A departure ends every live exchange of who left, and no other; a retirement takes out the record it names. */
  lemma DepartureIsHeeded(d: Desk, op: Op, id: Id)
    requires Legal(d, op) && id in d.records && (op.Depart? || (op.Retire? && op.id == id))
    ensures var e := Step(d, op);
            && (op.Retire? ==> (id !in e.records <==> d.records[id].birth == op.birth))
            && (op.Depart? && !d.records[id].Terminal() ==>
                  && id in e.records
                  && if d.records[id].IsParty(op.who)
                     then e.records[id].phase == Aborted && e.records[id].reason == PartyLeft
                     else !e.records[id].Terminal())
  {
    hide IsListing;
    if op.Depart? && !d.records[id].Terminal() {
      DepartureEnds(d, op.order, op.who, op.now, id);
    }
    hide AbortAll;
  }

  // ----- Who is here -----

  /** who joined and has not been removed since. */
  predicate IsHere(ops: seq<Op>, who: string) {
    if ops == [] then false
    else
      match Last(ops)
      case Join(w) => w == who || IsHere(Front(ops), who)
      case Remove(w) => w != who && IsHere(Front(ops), who)
      case _ => IsHere(Front(ops), who)
  }

  /** who was suspended and has not come back since. */
  predicate IsAway(ops: seq<Op>, who: string) {
    if ops == [] then false
    else
      match Last(ops)
      case Suspend(w) => w == who || IsAway(Front(ops), who)
      case Join(w) => w != who && IsAway(Front(ops), who)
      case Return(w) => w != who && IsAway(Front(ops), who)
      case Remove(w) => w != who && IsAway(Front(ops), who)
      case _ => IsAway(Front(ops), who)
  }

  /** In every run the members and the suspended are those the steps say. */
  lemma {:induction false} DeskFollowsSteps(ops: seq<Op>, who: string)
    requires LegalRun(ops)
    ensures who in Run(ops).members <==> IsHere(ops, who)
    ensures who in Run(ops).suspended <==> IsAway(ops, who)
  {
    if ops != [] {
      DeskFollowsSteps(Front(ops), who);
      var op := Last(ops);
      if !op.Join? && !op.Suspend? && !op.Return? && !op.Remove? {
        OnlyPresenceMoves(Run(Front(ops)), op);
      }
      hide Opening, Depositing, Committing, AbortAll, Aborting, TimingOut, Retiring, Snapshotting, Legal;
    }
  }

  lemma FinishMovesNobody(d: Desk, id: Id, phase: Phase, reason: Reason, now: int)
    requires id in d.records
    ensures var e := Finish(d, id, phase, reason, now); e.members == d.members && e.suspended == d.suspended
  {
    hide StateOf, Lowered;
  }

  lemma AskMovesNobody(d: Desk, from: string, id: Id, req: Request, victim: Option<Id>, now: int)
    requires Legal(d, Ask(from, id, req, victim, now))
    ensures var e := Step(d, Ask(from, id, req, victim, now)); e.members == d.members && e.suspended == d.suspended
  {
    if id in d.records {
      FinishMovesNobody(d, id, Aborted, ByParty, now);
      if req.Deposit? || req.Commit? {
        var s := After(d.records[id], from, req);
        var act := Act(s.birth, from, if req.Deposit? then Gave(Offered(req.blob)) else Agreed);
        FinishMovesNobody(Put(d, id, s).(acts := d.acts + {act}), id, Committed, NoReason, now);
      }
    }
    hide Finish, StateOf, Opens, Legal;
  }

  lemma OnlyPresenceMoves(d: Desk, op: Op)
    requires Legal(d, op) && !op.Join? && !op.Suspend? && !op.Return? && !op.Remove?
    ensures Step(d, op).members == d.members && Step(d, op).suspended == d.suspended
  {
    match op {
      case Ask(from, id, req, victim, now) => AskMovesNobody(d, from, id, req, victim, now);
      case Timeout(id, now) =>
        if id in d.records {
          FinishMovesNobody(d, id, Aborted, TimedOut, now);
        }
        hide Finish;
      case Depart(who, order, now) => DepartureMovesNobody(d, order, who, now);
      case _ =>
    }
  }

  lemma {:induction false} DepartureMovesNobody(d: Desk, ids: seq<Id>, party: string, now: int)
    ensures AbortAll(d, ids, party, now).members == d.members && AbortAll(d, ids, party, now).suspended == d.suspended
  {
    hide StateOf, Lowered;
    if ids != [] {
      DepartureMovesNobody(d, Front(ids), party, now);
    }
  }

  // ----- Who is told -----

  /** Every line of e beyond d's about an exchange is to both its parties. */
  ghost predicate NewToBoth(d: Desk, e: Desk) {
    && d.told <= e.told
    && forall i | |d.told| <= i < |e.told| :: e.told[i].birth > 0 ==>
         |e.told[i].state.parties| == 2 && e.told[i].to == e.told[i].state.parties
  }

  lemma BothToldOn(d: Desk, e: Desk, f: Desk)
    requires NewToBoth(d, e) && NewToBoth(e, f)
    ensures NewToBoth(d, f)
  {
    forall i | |d.told| <= i < |f.told| && f.told[i].birth > 0
      ensures |f.told[i].state.parties| == 2 && f.told[i].to == f.told[i].state.parties
    {
      if i < |e.told| {
        assert f.told[i] == e.told[i];
      }
    }
  }

  lemma FinishTellsBoth(d: Desk, id: Id, phase: Phase, reason: Reason, now: int)
    requires id in d.records
    ensures NewToBoth(d, Finish(d, id, phase, reason, now))
  {
    hide Lowered;
  }

  lemma {:induction false} DepartureTellsBoth(d: Desk, ids: seq<Id>, party: string, now: int)
    ensures NewToBoth(d, AbortAll(d, ids, party, now))
  {
    if ids != [] {
      DepartureTellsBoth(d, Front(ids), party, now);
      var e := AbortAll(d, Front(ids), party, now);
      hide NewToBoth, Finish;
      if Last(ids) in e.records {
        FinishTellsBoth(e, Last(ids), Aborted, PartyLeft, now);
        BothToldOn(d, e, Finish(e, Last(ids), Aborted, PartyLeft, now));
      }
    }
  }

  lemma AnnounceTellsBoth(d: Desk, id: Id)
    requires id in d.records
    ensures NewToBoth(d, Announce(d, id))
  {
  }

  lemma PartTellsBoth(d: Desk, from: string, k: Id, req: Request, now: int)
    requires req.Deposit? || req.Commit?
    ensures NewToBoth(d, if req.Deposit? then Depositing(d, from, k, req.blob, now) else Committing(d, from, k, now))
  {
    if k in d.records {
      var r := d.records[k];
      var s := if req.Deposit? then Given(r, from, Offered(req.blob)) else r.(committed := r.committed + {from});
      var act := Act(r.birth, from, if req.Deposit? then Gave(Offered(req.blob)) else Agreed);
      var e := Put(d, k, s).(acts := d.acts + {act});
      FinishTellsBoth(e, k, Committed, NoReason, now);
      AnnounceTellsBoth(e, k);
      assert NewToBoth(d, e);
      hide Given, Finish, Announce;
      BothToldOn(d, e, Settle(e, k, now));
    }
  }

  /** Outside a resume snapshot, whatever is sent about an exchange goes to both its parties. */
  lemma StepTellsBoth(d: Desk, op: Op)
    requires Legal(d, op) && !op.Snapshot?
    ensures NewToBoth(d, Step(d, op))
  {
    hide Depositing, Committing, AbortAll, Finish, Legal;
    match op {
      case Depart(who, order, now) => DepartureTellsBoth(d, order, who, now);
      case Timeout(k, now) =>
        if k in d.records {
          FinishTellsBoth(d, k, Aborted, TimedOut, now);
        }
      case Ask(from, k, req, victim, now) =>
        if k in d.records {
          FinishTellsBoth(d, k, Aborted, ByParty, now);
        }
        if req.Deposit? || req.Commit? {
          PartTellsBoth(d, from, k, req, now);
        }
      case _ =>
    }
  }

  /** The end of exchange b, as noted, was told to both its parties. */
  ghost predicate EndTold(told: seq<Told>, b: nat, o: Outcome) {
    exists i | 0 <= i < |told| ::
      told[i].birth == b && TellsOutcome(told[i].state, o) && told[i].to == [o.opener, o.other]
  }

  ghost predicate AllEndsTold(d: Desk) {
    forall b | b in d.outcomes :: EndTold(d.told, b, d.outcomes[b])
  }

  lemma EndToldOn(told: seq<Told>, more: seq<Told>, b: nat, o: Outcome)
    requires EndTold(told, b, o) && told <= more
    ensures EndTold(more, b, o)
  {
    var i :| 0 <= i < |told| && told[i].birth == b && TellsOutcome(told[i].state, o)
             && told[i].to == [o.opener, o.other];
    assert more[i] == told[i];
  }

  lemma FinishIsTold(d: Desk, id: Id, phase: Phase, reason: Reason, now: int)
    requires AllEndsTold(d) && id in d.records && (phase == Committed || phase == Aborted)
    ensures AllEndsTold(Finish(d, id, phase, reason, now))
  {
    var e := Finish(d, id, phase, reason, now);
    var r := d.records[id];
    hide Lowered;
    forall b | b in e.outcomes
      ensures EndTold(e.told, b, e.outcomes[b])
    {
      if b == r.birth {
        assert e.told[|d.told|].birth == b && e.told[|d.told|].to == [r.opener, r.other];
        assert TellsOutcome(e.told[|d.told|].state, e.outcomes[b]);
      } else {
        assert EndTold(d.told, b, d.outcomes[b]);
        EndToldOn(d.told, e.told, b, d.outcomes[b]);
      }
    }
  }

  lemma ToldMore(d: Desk, e: Desk)
    requires AllEndsTold(d) && d.told <= e.told && e.outcomes == d.outcomes
    ensures AllEndsTold(e)
  {
    forall b | b in e.outcomes
      ensures EndTold(e.told, b, e.outcomes[b])
    {
      EndToldOn(d.told, e.told, b, d.outcomes[b]);
    }
  }

  lemma {:induction false} DepartureIsTold(d: Desk, ids: seq<Id>, party: string, now: int)
    requires AllEndsTold(d)
    ensures AllEndsTold(AbortAll(d, ids, party, now))
  {
    if ids != [] {
      DepartureIsTold(d, Front(ids), party, now);
      var e := AbortAll(d, Front(ids), party, now);
      hide AllEndsTold, Finish;
      if Last(ids) in e.records {
        FinishIsTold(e, Last(ids), Aborted, PartyLeft, now);
      }
    }
  }

  lemma SettleIsTold(d: Desk, id: Id, now: int)
    requires AllEndsTold(d) && id in d.records
    ensures AllEndsTold(Settle(d, id, now))
  {
    FinishIsTold(d, id, Committed, NoReason, now);
    ToldMore(d, Announce(d, id));
    hide AllEndsTold, Finish, Announce;
  }

  lemma PartIsTold(d: Desk, from: string, k: Id, req: Request, now: int)
    requires AllEndsTold(d) && (req.Deposit? || req.Commit?)
    ensures AllEndsTold(if req.Deposit? then Depositing(d, from, k, req.blob, now) else Committing(d, from, k, now))
  {
    if k in d.records {
      var r := d.records[k];
      var s := if req.Deposit? then Given(r, from, Offered(req.blob)) else r.(committed := r.committed + {from});
      var act := Act(r.birth, from, if req.Deposit? then Gave(Offered(req.blob)) else Agreed);
      var e := Put(d, k, s).(acts := d.acts + {act});
      ToldMore(d, e);
      hide AllEndsTold, Given, Settle;
      SettleIsTold(e, k, now);
    }
  }

  lemma OthersAreTold(d: Desk, op: Op)
    requires Legal(d, op) && AllEndsTold(d)
    requires !op.Depart? && !op.Timeout? && (op.Ask? ==> op.req.OpenWith?)
    ensures AllEndsTold(Step(d, op))
  {
    hide AllEndsTold, StateOf, Snapshotting, Opening, AbortAll, Depositing, Committing;
    if op.Snapshot? {
      SnapshotOnlyTells(d, op.to, op.listing);
    } else if op.Ask? {
      OpeningOnlyTells(d, op.from, op.id, op.req.with, op.victim);
    }
    ToldMore(d, Step(d, op));
  }

  lemma OpeningOnlyTells(d: Desk, from: string, id: Id, with: string, victim: Option<Id>)
    ensures var e := Opening(d, from, id, with, victim); d.told <= e.told && e.outcomes == d.outcomes
  {
    hide StateOf, Opens;
  }

  lemma {:induction false} SnapshotOnlyTells(d: Desk, to: string, listing: seq<Id>)
    requires forall id | id in listing :: id in d.records
    ensures d.told <= Snapshotting(d, to, listing).told
  {
    if listing != [] {
      SnapshotOnlyTells(d, to, Front(listing));
    }
  }

  lemma StepIsTold(d: Desk, op: Op)
    requires Legal(d, op) && AllEndsTold(d)
    ensures AllEndsTold(Step(d, op))
  {
    hide AllEndsTold, Depositing, Committing, AbortAll, Finish, Legal;
    match op {
      case Depart(who, order, now) => DepartureIsTold(d, order, who, now);
      case Timeout(k, now) =>
        if k in d.records {
          FinishIsTold(d, k, Aborted, TimedOut, now);
        }
      case Ask(from, k, Deposit(blob), _, now) => PartIsTold(d, from, k, Deposit(blob), now);
      case Ask(from, k, Commit, _, now) => PartIsTold(d, from, k, Commit, now);
      case Ask(from, k, Abort, _, now) =>
        if k in d.records {
          FinishIsTold(d, k, Aborted, ByParty, now);
        }
      case _ => OthersAreTold(d, op);
    }
  }

  /** In every run, the end of every exchange was told to both its parties, blobs and all when it was committed. */
  lemma {:induction false} EveryEndIsTold(ops: seq<Op>)
    requires LegalRun(ops)
    ensures AllEndsTold(Run(ops))
  {
    if ops != [] {
      EveryEndIsTold(Front(ops));
      hide AllEndsTold, Step;
      StepIsTold(Run(Front(ops)), Last(ops));
    }
  }

  /** In every run, a line about an exchange that is not part of a resume snapshot is addressed to both its parties. */
  lemma {:induction false} LinesGoToBoth(ops: seq<Op>, k: nat, i: nat)
    requires LegalRun(ops) && k < |ops| && !ops[k].Snapshot?
    requires LegalRun(ops[..k]) && LegalRun(ops[..k + 1])
    requires |Run(ops[..k]).told| <= i < |Run(ops[..k + 1]).told| && Run(ops[..k + 1]).told[i].birth > 0
    ensures var t := Run(ops[..k + 1]).told[i]; |t.state.parties| == 2 && t.to == t.state.parties
  {
    var all := ops[..k + 1];
    assert Front(all) == ops[..k] && Last(all) == ops[k];
    hide Step;
    StepTellsBoth(Run(ops[..k]), ops[k]);
  }

  /** The counters equal what they count, and every bound holds, in every reachable table. */
  lemma TableAccounting(ops: seq<Op>)
    requires LegalRun(ops)
    ensures var d := Run(ops);
            && d.live == |LiveIds(d.records)| <= MAX_LIVE
            && (forall p :: Count(d.liveBy, p) == |LiveOf(d.records, p)| <= MAX_LIVE_PER_MEMBER)
            && |d.records| <= MAX_RECORDS
            && (|d.records| == MAX_RECORDS ==> exists id :: Victim(d, id))
            && NoneReady(d.records)
  {
    RunKeeps(ops);
    hide Books, Journal, LiveIds, LiveOf, Victim, NoneReady, Run, LegalRun;
    if |Run(ops).records| == MAX_RECORDS {
      VictimExists(Run(ops));
    }
  }

  /** The step retires that very record. */
  predicate RetiresIt(d: Desk, op: Op, id: Id)
    requires id in d.records
  {
    op.Retire? && op.id == id && op.birth == d.records[id].birth
  }

  /** The step opens an exchange in a full table. */
  predicate OpensFull(d: Desk, op: Op) {
    op.Ask? && op.req.OpenWith? && Opens(d, op.from, op.id, op.req.with) && |d.records| >= MAX_RECORDS
  }

  /** One of its parties is a member, and away. */
  predicate Awaited(d: Desk, r: Record) {
    exists p | p in {r.opener, r.other} :: p != "" && p in d.members && p in d.suspended
  }

  /** No ended record of the same standing is older, and where someone waits for it, someone waits for every one. */
  ghost predicate LastToGo(d: Desk, id: Id)
    requires id in d.records
  {
    var r := d.records[id];
    && (forall k | k in d.records && d.records[k].Terminal() && Awaited(d, d.records[k]) == Awaited(d, r) ::
          r.terminalAt <= d.records[k].terminalAt)
    && (Awaited(d, r) ==> forall k | k in d.records && d.records[k].Terminal() :: Awaited(d, d.records[k]))
  }

  lemma OwedIsAwaited(d: Desk, r: Record)
    ensures Owed(d, r) <==> Awaited(d, r)
  {
    assert r.opener in {r.opener, r.other} && r.other in {r.opener, r.other};
  }

  /** An open that drops a record drops one that goes last, and only from a full table. */
  lemma OpeningDrops(d: Desk, from: string, k: Id, with: string, victim: Option<Id>, now: int, id: Id)
    requires Legal(d, Ask(from, k, OpenWith(with), victim, now))
    requires id in d.records && id !in Opening(d, from, k, with, victim).records
    ensures OpensFull(d, Ask(from, k, OpenWith(with), victim, now)) && LastToGo(d, id)
  {
    hide Opens, Victim, LastToGo, StateOf;
    if victim.Some? {
      VictimIsLast(d, victim.value);
    }
  }

  /**
    A record leaves the table only once ended, and then by its own retirement or to make room for an open in a table
    of 256; one a suspended party still waits for makes room only when every ended record is waited for.
   */
  lemma OwedGoLast(d: Desk, op: Op, id: Id)
    requires Sound(d) && Legal(d, op) && id in d.records && id !in Step(d, op).records
    ensures d.records[id].Terminal()
    ensures RetiresIt(d, op, id) || (OpensFull(d, op) && LastToGo(d, id))
  {
    if !d.records[id].Terminal() {
      EndsOnlyByItsOwn(d, op, id);
    }
    hide Sound, Opening, Retiring, LastToGo, OpensFull;
    if op.Ask? && op.req.OpenWith? {
      OpeningDrops(d, op.from, op.id, op.req.with, op.victim, op.now, id);
    } else if op.Retire? {
      RetiringDrops(d, op.id, op.birth, id);
    } else {
      OthersDropNothing(d, op);
    }
  }

  lemma RetiringDrops(d: Desk, k: Id, birth: nat, id: Id)
    requires id in d.records && id !in Retiring(d, k, birth).records
    ensures RetiresIt(d, Retire(k, birth), id)
  {
  }

  lemma FinishDropsNothing(d: Desk, id: Id, phase: Phase, reason: Reason, now: int)
    requires id in d.records
    ensures Finish(d, id, phase, reason, now).records.Keys == d.records.Keys
  {
    hide StateOf, Lowered;
  }

  lemma OthersDropNothing(d: Desk, op: Op)
    requires Legal(d, op) && !op.Retire? && !(op.Ask? && op.req.OpenWith?)
    ensures Step(d, op).records.Keys == d.records.Keys
  {
    hide Legal, Depositing, Committing, AbortAll, Finish, Snapshotting;
    match op {
      case Depart(who, order, now) => DepartureDropsNothing(d, order, who, now);
      case Ask(from, k, req, victim, now) =>
        if k in d.records {
          FinishDropsNothing(d, k, Aborted, ByParty, now);
        }
        if req.Deposit? || req.Commit? {
          PartDropsNothing(d, from, k, req, now);
        }
      case Timeout(k, now) =>
        if k in d.records {
          FinishDropsNothing(d, k, Aborted, TimedOut, now);
        }
      case _ =>
    }
  }

  lemma VictimIsLast(d: Desk, victim: Id)
    requires Victim(d, victim)
    ensures victim in d.records && LastToGo(d, victim)
  {
    OwedIsAwaited(d, d.records[victim]);
    forall k | k in d.records && d.records[k].Terminal()
      ensures Owed(d, d.records[k]) == Awaited(d, d.records[k])
      ensures Evictable(d, k, Owed(d, d.records[k]))
    {
      OwedIsAwaited(d, d.records[k]);
    }
    hide Owed, Awaited;
  }

  lemma PartDropsNothing(d: Desk, from: string, k: Id, req: Request, now: int)
    requires req.Deposit? || req.Commit?
    ensures var e := if req.Deposit? then Depositing(d, from, k, req.blob, now) else Committing(d, from, k, now);
            e.records.Keys == d.records.Keys
  {
    hide Given, StateOf, Lowered;
  }

  lemma {:induction false} DepartureDropsNothing(d: Desk, ids: seq<Id>, party: string, now: int)
    ensures AbortAll(d, ids, party, now).records.Keys == d.records.Keys
  {
    hide StateOf, Lowered;
    if ids != [] {
      DepartureDropsNothing(d, Front(ids), party, now);
    }
  }

  /**
    A resume snapshot sends the party its exchanges in the listing's order, at most 48 of them, and a live one is left
    out only when every line sent is about a live one.
   */
  lemma {:induction false} SnapshotTells(d: Desk, to: string, listing: seq<Id>)
    requires IsListing(d, to, listing)
    ensures var n := if |listing| > MAX_SNAPSHOT_LINES then MAX_SNAPSHOT_LINES else |listing|;
            var e := Snapshotting(d, to, listing);
            && |e.told| == |d.told| + n && d.told <= e.told
            && (forall i | 0 <= i < n ::
                  e.told[|d.told| + i] == Told(d.records[listing[i]].birth,
                                               StateOf(listing[i], d.records[listing[i]], d.stamp + i + 1), [to]))
            && forall k | n <= k < |listing| && !d.records[listing[k]].Terminal() ::
                 forall i | 0 <= i < n :: !d.records[listing[i]].Terminal()
  {
    SnapshotLines(d, to, listing);
  }

  lemma {:induction false} SnapshotLines(d: Desk, to: string, listing: seq<Id>)
    requires forall id | id in listing :: id in d.records
    ensures var n := if |listing| > MAX_SNAPSHOT_LINES then MAX_SNAPSHOT_LINES else |listing|;
            var e := Snapshotting(d, to, listing);
            && e.stamp == d.stamp + n
            && |e.told| == |d.told| + n && d.told <= e.told
            && forall i | 0 <= i < n ::
                 e.told[|d.told| + i] == Told(d.records[listing[i]].birth,
                                              StateOf(listing[i], d.records[listing[i]], d.stamp + i + 1), [to])
  {
    hide StateOf;
    if |listing| > MAX_SNAPSHOT_LINES {
      SnapshotLines(d, to, Front(listing));
      assert forall i | 0 <= i < |Front(listing)| :: Front(listing)[i] == listing[i];
    } else if listing != [] {
      SnapshotLines(d, to, Front(listing));
      var f := Snapshotting(d, to, Front(listing));
      var r := d.records[Last(listing)];
      assert Snapshotting(d, to, listing).told ==
             f.told + [Told(r.birth, StateOf(Last(listing), r, f.stamp + 1), [to])];
    }
  }

  // ----- The table as the source keeps it -----

  class EscrowTable {
    var records: map<Id, Record>
    var live: int
    var liveBy: map<string, int>
    var members: set<string>
    var suspended: set<string>
    var stamp: nat
    var born: nat
    ghost var acts: set<Act>
    ghost var outcomes: map<nat, Outcome>
    ghost var told: seq<Told>

    ghost function Abs(): Desk
      reads this
    {
      Desk(records, live, liveBy, members, suspended, stamp, born, acts, outcomes, told)
    }

    constructor ()
      ensures Abs() == NEW_DESK
    {
      records, live, liveBy, members, suspended, stamp, born := map[], 0, map[], {}, {}, 0, 0;
      acts, outcomes, told := {}, map[], [];
    }

    method Announce(id: Id, to: seq<string>)
      requires id in records
      modifies this`stamp, this`told
      ensures Abs() == Tell(old(Abs()), id, to)
    {
      stamp := stamp + 1;
      told := told + [Told(records[id].birth, StateOf(id, records[id], stamp), to)];
    }

    method Reject(id: Id, to: string)
      modifies this`stamp, this`told
      ensures Abs() == Refuse(old(Abs()), id, to)
    {
      stamp := stamp + 1;
      told := told + [Told(0, EscrowState(id, stamp, Aborted, [], [], [], None, Rejected), [to])];
    }

    /** The oldest ended record that is owed, or not owed, to a suspended party. */
    method Pick(owed: bool) returns (best: Option<Id>)
      ensures best.Some? ==> Oldest(Abs(), best.value, owed)
      ensures best.None? ==> forall k | k in records :: !Evictable(Abs(), k, owed)
    {
      best := None;
      var todo := records.Keys;
      while todo != {}
        invariant todo <= records.Keys
        invariant best.Some? ==> Evictable(Abs(), best.value, owed)
        invariant forall k | k in records && k !in todo && Evictable(Abs(), k, owed) ::
                    best.Some? && records[best.value].terminalAt <= records[k].terminalAt
        decreases todo
      {
        var id :| id in todo;
        todo := todo - {id};
        var e := records[id];
        if e.Terminal() && Owes(e) == owed {
          if best.None? || e.terminalAt < records[best.value].terminalAt {
            best := Some(id);
          }
        }
      }
    }

    predicate Owes(e: Record)
      reads this
      ensures Owes(e) == Owed(Abs(), e)
    {
      (e.opener != "" && e.opener in members && e.opener in suspended) ||
      (e.other != "" && e.other in members && e.other in suspended)
    }

    method EvictTerminal() returns (found: bool, ghost victim: Option<Id>)
      modifies this`records
      ensures found <==> victim.Some?
      ensures found ==> Victim(old(Abs()), victim.value)
      ensures !found ==> forall k | k in records :: !records[k].Terminal()
      ensures Abs() == Evicted(old(Abs()), victim)
    {
      var oldest := Pick(false);
      if oldest.None? {
        oldest := Pick(true);
      }
      if oldest.None? {
        forall k | k in records
          ensures !records[k].Terminal()
        {
          assert !Evictable(Abs(), k, false) && !Evictable(Abs(), k, true);
        }
        return false, None;
      }
      victim := oldest;
      records := records - {oldest.value};
      return true, victim;
    }

    /** Bounds the table before an open. The loop runs at most once, and its way out without a victim is never taken. */
    method MakeRoom() returns (ghost victim: Option<Id>)
      requires Inv(Abs())
      modifies this`records
      ensures if old(|records|) >= MAX_RECORDS then victim.Some? && Victim(old(Abs()), victim.value) else victim.None?
      ensures Abs() == Evicted(old(Abs()), victim)
    {
      hide Books, Journal, Tally, Victim;
      victim := None;
      ghost var before := Abs();
      RecordsBounded(before);
      while |records| >= MAX_RECORDS
        invariant victim.None? ==> Abs() == before
        invariant victim.Some? ==> |before.records| >= MAX_RECORDS && Victim(before, victim.value)
        invariant victim.Some? ==> Abs() == Evicted(before, victim) && |records| < MAX_RECORDS
        decreases |records|
      {
        var found;
        SomeEnded(before);
        found, victim := EvictTerminal();
        assert found;
        VictimIsEnded(before, victim.value);
        DeletedKeeps(before, victim.value);
        if !found {
          break;
        }
      }
    }

    /** Records one more live exchange of its opener. */
    method OpenedEscrow(opener: string) returns (ghost victim: Option<Id>)
      requires Inv(Abs())
      modifies this`records, this`live, this`liveBy
      ensures if old(|records|) >= MAX_RECORDS then victim.Some? && Victim(old(Abs()), victim.value) else victim.None?
      ensures Abs() == Evicted(old(Abs()), victim).(live := old(live) + 1,
                                                    liveBy := Raised(old(liveBy), opener))
    {
      hide Inv, Victim;
      victim := MakeRoom();
      live := live + 1;
      liveBy := liveBy[opener := (if opener in liveBy then liveBy[opener] else 0) + 1];
    }

    method LowerCount(opener: string)
      modifies this`liveBy
      ensures liveBy == Lowered(old(liveBy), opener)
    {
      var n := (if opener in liveBy then liveBy[opener] else 0) - 1;
      if n > 0 {
        liveBy := liveBy[opener := n];
      } else {
        liveBy := liveBy - {opener};
      }
    }

    method FinishEscrow(id: Id, phase: Phase, reason: Reason, now: int)
      requires id in records
      modifies this
      ensures Abs() == Finish(old(Abs()), id, phase, reason, now)
    {
      hide Ended, StateOf;
      EndedIsHere(Abs(), id, phase, reason, now);
      EndRecord(id, phase, reason, now);
      Announce(id, [records[id].opener, records[id].other]);
    }

    /** Guards the counters, drops the blobs unless committed, and notes the outcome. */
    method EndRecord(id: Id, phase: Phase, reason: Reason, now: int)
      requires id in records
      modifies this`records, this`live, this`liveBy, this`outcomes
      ensures Abs() == Ended(old(Abs()), id, phase, reason, now)
    {
      hide Lowered, OutcomeOf;
      var e := records[id];
      if !e.Terminal() {
        live := live - 1;
        LowerCount(e.opener);
      }
      e := e.(phase := phase, reason := reason, terminalAt := now);
      if phase != Committed {
        e := e.(blobs := map[]);
      }
      records := records[id := e];
      outcomes := outcomes[e.birth := OutcomeOf(e)];
    }

    /** Completes the exchange once both parties have deposited and committed. */
    method MaybeCommit(id: Id, now: int) returns (done: bool)
      requires id in records && !records[id].Terminal()
      modifies this
      ensures done == old(records[id].Ready())
      ensures Abs() == if done then Finish(old(Abs()), id, Committed, NoReason, now) else old(Abs())
    {
      var e := records[id];
      done := e.opener in e.deposited && e.other in e.deposited && e.opener in e.committed && e.other in e.committed;
      if done {
        FinishEscrow(id, Committed, NoReason, now);
      }
    }

    method HandleOpen(from: string, id: Id, with: string, now: int) returns (ghost victim: Option<Id>)
      requires Inv(Abs())
      modifies this
      ensures Legal(old(Abs()), Ask(from, id, OpenWith(with), victim, now))
      ensures Abs() == Opening(old(Abs()), from, id, with, victim)
    {
      hide Inv, Victim, StateOf;
      victim := None;
      if id in records {
        Reject(id, from);
      } else if with == "" || with == from || with !in members || live >= MAX_LIVE
                || (if from in liveBy then liveBy[from] else 0) >= MAX_LIVE_PER_MEMBER {
        Reject(id, from);
      } else {
        victim := OpenedEscrow(from);
        born := born + 1;
        records := records[id := Record(born, from, with, map[], {}, {}, Open, NoReason, 0)];
        assert Abs() == Opened(Evicted(old(Abs()), victim), id, from, with);
        Announce(id, [from, with]);
      }
    }

    method HandleDeposit(from: string, id: Id, blob: Option<Text>, now: int)
      modifies this
      ensures Abs() == Depositing(old(Abs()), from, id, blob, now)
    {
      if id in records && !records[id].Terminal() && records[id].IsParty(from) && from !in records[id].deposited {
        var e := records[id];
        acts := acts + {Act(e.birth, from, Gave(Offered(blob)))};
        e := e.(blobs := e.blobs[from := if blob.Some? then blob.value else NULL_BLOB]);
        e := e.(deposited := e.deposited + {from});
        if e.opener in e.deposited && e.other in e.deposited {
          e := e.(phase := Deposited);
        }
        records := records[id := e];
        var done := MaybeCommit(id, now);
        if !done {
          Announce(id, [e.opener, e.other]);
        }
      }
    }

    method HandleCommit(from: string, id: Id, now: int)
      modifies this
      ensures Abs() == Committing(old(Abs()), from, id, now)
    {
      if id in records && !records[id].Terminal() && records[id].IsParty(from) && from !in records[id].committed {
        var e := records[id];
        acts := acts + {Act(e.birth, from, Agreed)};
        e := e.(committed := e.committed + {from});
        records := records[id := e];
        var done := MaybeCommit(id, now);
        if !done {
          Announce(id, [e.opener, e.other]);
        }
      }
    }

    method HandleEscrow(from: string, id: Id, req: Request, now: int) returns (ghost victim: Option<Id>)
      requires Sound(Abs())
      modifies this
      ensures Legal(old(Abs()), Ask(from, id, req, victim, now))
      ensures Abs() == Step(old(Abs()), Ask(from, id, req, victim, now)) && Sound(Abs())
    {
      ghost var before := Abs();
      victim := None;
      match req {
        case OpenWith(with) =>
          victim := HandleOpen(from, id, with, now);
        case Deposit(blob) =>
          HandleDeposit(from, id, blob, now);
        case Commit =>
          HandleCommit(from, id, now);
        case Abort =>
          if id in records && !records[id].Terminal() && records[id].IsParty(from) {
            FinishEscrow(id, Aborted, ByParty, now);
          }
      }
      hide *;
      StepKeeps(before, Ask(from, id, req, victim, now));
    }

    method TimeoutEscrow(id: Id, now: int)
      modifies this
      ensures Abs() == Step(old(Abs()), Timeout(id, now))
    {
      if id in records && !records[id].Terminal() {
        FinishEscrow(id, Aborted, TimedOut, now);
      }
    }

    /** The retirement timer armed when the exchange born as `birth` ended. */
    method RetireEscrow(id: Id, birth: nat)
      modifies this`records
      ensures Abs() == Retiring(old(Abs()), id, birth)
    {
      if id in records && records[id].birth == birth {
        records := records - {id};
      }
    }

    /** Ends every live exchange of a party that really leaves, in the order the table is walked. */
    method AbortEscrowsOf(party: string, now: int) returns (ghost order: seq<Id>)
      modifies this
      ensures forall id :: id in order <==> id in old(records)
      ensures Abs() == AbortAll(old(Abs()), order, party, now)
    {
      ghost var before := Abs();
      order := [];
      var todo := records.Keys;
      while todo != {}
        invariant forall id :: id in before.records <==> id in order || id in todo
        invariant todo <= records.Keys
        invariant Abs() == AbortAll(before, order, party, now)
        decreases todo
      {
        var id :| id in todo;
        todo := todo - {id};
        if !records[id].Terminal() && records[id].IsParty(party) {
          FinishEscrow(id, Aborted, PartyLeft, now);
        }
        assert Front(order + [id]) == order;
        order := order + [id];
      }
    }

    method EscrowSnapshot(to: string, listing: seq<Id>)
      requires IsListing(Abs(), to, listing)
      modifies this`stamp, this`told
      ensures Abs() == Snapshotting(old(Abs()), to, listing)
    {
      ghost var before := Abs();
      var n := 0;
      while n < |listing| && n < MAX_SNAPSHOT_LINES
        invariant n <= |listing| && n <= MAX_SNAPSHOT_LINES
        invariant Abs() == Snapshotting(before, to, listing[..n])
      {
        assert Front(listing[..n + 1]) == listing[..n];
        Announce(listing[n], [to]);
        n := n + 1;
      }
      SnapshotCut(before, to, listing, n);
    }
  }

  lemma {:induction false} SnapshotCut(d: Desk, to: string, listing: seq<Id>, n: nat)
    requires n <= |listing| && (n == |listing| || n == MAX_SNAPSHOT_LINES)
    requires forall id | id in listing :: id in d.records
    ensures Snapshotting(d, to, listing) == Snapshotting(d, to, listing[..n])
    decreases |listing|
  {
    if n == |listing| {
      assert listing[..n] == listing;
    } else {
      SnapshotCut(d, to, Front(listing), n);
      assert Front(listing)[..n] == listing[..n];
    }
  }
}
