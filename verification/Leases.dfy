/**
  Lease authority over opaque keys (relay/leases.go): one holder per key, for a time. Times are in nanoseconds.
 */
module Leases {
  import opened Lists

  const MAX_LEASES: nat := 256
  const MAX_PER_MEMBER: nat := MAX_LEASES / 8

  const SECOND: int := 1_000_000_000
  const MILLISECOND: int := 1_000_000
  const MIN_TTL: int := SECOND
  const MAX_TTL: int := 300 * SECOND
  const DEFAULT_TTL: int := 30 * SECOND

  // ----- The requested hold -----

  predicate Int64(x: int) {
    -0x8000_0000_0000_0000 <= x < 0x8000_0000_0000_0000
  }

  /** 64-bit two's complement. */
  function Wrap64(x: int): (r: int)
    ensures Int64(r) && (Int64(x) ==> r == x)
  {
    (x + 0x8000_0000_0000_0000) % 0x1_0000_0000_0000_0000 - 0x8000_0000_0000_0000
  }

  /** ClampLeaseTTL, whose multiplication is a 64-bit one. */
  function ClampTTL(ms: int): (ttl: int)
    requires Int64(ms)
    ensures MIN_TTL <= ttl <= MAX_TTL
  {
    var d := Wrap64(ms * MILLISECOND);
    if ms <= 0 then DEFAULT_TTL else if d < MIN_TTL then MIN_TTL else if d > MAX_TTL then MAX_TTL else d
  }

  /** What its documentation promises: an out-of-range hold is clamped to the nearer end. */
  function PromisedTTL(ms: int): int {
    if ms <= 0 then DEFAULT_TTL
    else if ms * MILLISECOND < MIN_TTL then MIN_TTL
    else if ms * MILLISECOND > MAX_TTL then MAX_TTL
    else ms * MILLISECOND
  }

  /** The promise holds for every hold 64 bits of nanoseconds can express, and beyond only where the wrap lands high. */
  lemma ClampKeepsPromise(ms: int)
    requires Int64(ms)
    ensures ClampTTL(ms) == PromisedTTL(ms) <==> ms <= 9_223_372_036_854 || Wrap64(ms * MILLISECOND) >= MAX_TTL
  {
    assert ms > 9_223_372_036_854 ==> PromisedTTL(ms) == MAX_TTL;
    assert 0 < ms <= 9_223_372_036_854 ==> Wrap64(ms * MILLISECOND) == ms * MILLISECOND;
  }

  /** A hold of 292 years and a little is granted for one second. */
  lemma ClampCanWrap()
    ensures ClampTTL(9_223_372_036_855) == MIN_TTL && PromisedTTL(9_223_372_036_855) == MAX_TTL
  {
  }

  // ----- The table -----

  datatype Lease = Lease(holder: string, expiresAt: int)

  datatype Reason = Granted | Denied | TooMany | Released | Expired | HolderLeft

  datatype LeaseState = LeaseState(key: string, holder: string, stamp: nat, expiresAtMs: int, reason: Reason)

  /** A line sent at time `at`; until is the expiry behind a grant's expiresAtMs. */
  datatype Line = Line(state: LeaseState, until: int, at: int, to: set<string>)

  /**
    The lease part of a room. lines is everything sent; informed are the members that have been here, connected, since
    before any key was held.
   */
  datatype Keys = Keys(
    leases: map<string, Lease>,
    heldBy: map<string, int>,
    members: set<string>,
    stamp: nat,
    lines: seq<Line>,
    informed: set<string>)

  const NO_KEYS := Keys(map[], map[], {}, 0, [], {})

  predicate Free(r: Reason) {
    r == Released || r == Expired || r == HolderLeft
  }

  function Say(r: Keys, key: string, holder: string, until: int, reason: Reason, at: int, to: set<string>): Keys {
    var ms := if holder == "" then 0 else until / MILLISECOND;
    r.(stamp := r.stamp + 1, lines := r.lines + [Line(LeaseState(key, holder, r.stamp + 1, ms, reason), until, at, to)])
  }

  predicate TableFull(r: Keys, claimant: string) {
    |r.leases| >= MAX_LEASES || Count(r.heldBy, claimant) >= MAX_PER_MEMBER
  }

  function Recount(heldBy: map<string, int>, was: Option<Lease>, holder: string): map<string, int> {
    if was.None? then Raised(heldBy, holder)
    else if was.value.holder != holder then Raised(Lowered(heldBy, was.value.holder), holder)
    else heldBy
  }

  function Current(r: Keys, key: string): Option<Lease> {
    if key in r.leases then Some(r.leases[key]) else None
  }

  /** Nothing a receiver renders changes: the same holder, and the expiry to the second. */
  predicate Unremarkable(was: Option<Lease>, next: Lease) {
    was.Some? && was.value.holder == next.holder && was.value.expiresAt / SECOND == next.expiresAt / SECOND
  }

  /** Grants key, and when the holder changed sends it `world` lines of the world it adopts. */
  function Grant(r: Keys, key: string, holder: string, ttl: int, now: int, world: nat): Keys {
    var was := Current(r, key);
    var l := Lease(holder, now + ttl);
    var g := r.(leases := r.leases[key := l], heldBy := Recount(r.heldBy, was, holder));
    var s := Say(g, key, holder, l.expiresAt, Granted, now, if Unremarkable(was, l) then {holder} else r.members);
    if was.Some? && was.value.holder == holder then s else s.(stamp := s.stamp + world)
  }

  function FreeKey(r: Keys, key: string, reason: Reason, now: int): Keys {
    if key !in r.leases then r
    else
      Say(r.(leases := r.leases - {key}, heldBy := Lowered(r.heldBy, r.leases[key].holder)),
          key, "", 0, reason, now, r.members)
  }

  datatype Request = Claim(ttlMs: int) | Renew(ttlMs: int) | Release | Unknown

  function Claiming(r: Keys, from: string, key: string, ttl: int, now: int, world: nat): Keys {
    if key in r.leases && r.leases[key].holder != from
    then Say(r, key, r.leases[key].holder, r.leases[key].expiresAt, Denied, now, {from})
    else if key !in r.leases && TableFull(r, from) then Say(r, key, "", 0, TooMany, now, {from})
    else Grant(r, key, from, ttl, now, world)
  }

  function Renewing(r: Keys, from: string, key: string, ttl: int, now: int): Keys {
    if key in r.leases && r.leases[key].holder == from then Grant(r, key, from, ttl, now, 0)
    else if key in r.leases then Say(r, key, r.leases[key].holder, r.leases[key].expiresAt, Denied, now, {from})
    else Say(r, key, "", 0, Denied, now, {from})
  }

  function Releasing(r: Keys, from: string, key: string, now: int): Keys {
    if key in r.leases && r.leases[key].holder == from then FreeKey(r, key, Released, now) else r
  }

  /** An expiry timer, whenever it fires and whatever it captured. */
  function Expiring(r: Keys, key: string, holder: string, now: int): Keys {
    if key !in r.leases || r.leases[key].holder != holder || now < r.leases[key].expiresAt then r
    else FreeKey(r, key, Expired, now)
  }

  /** Every key of a member that really leaves, in the order the table is walked. */
  function FreeAll(r: Keys, order: seq<string>, who: string, now: int): Keys {
    if order == [] then r
    else
      var s := FreeAll(r, Front(order), who, now);
      if Last(order) in s.leases && s.leases[Last(order)].holder == who then FreeKey(s, Last(order), HolderLeft, now)
      else s
  }

  function Snapshotting(r: Keys, to: string, order: seq<string>, now: int): (s: Keys)
    requires forall k | k in order :: k in r.leases
    ensures s.(stamp := r.stamp, lines := r.lines) == r
  {
    if order == [] then r
    else
      var l := r.leases[Last(order)];
      Say(Snapshotting(r, to, Front(order), now), Last(order), l.holder, l.expiresAt, Granted, now, {to})
  }

  datatype Op =
    | Ask(from: string, key: string, req: Request, now: int, world: nat)
    | Expire(key: string, holder: string, now: int)
    | Join(who: string)
    | Suspend(who: string)
    | Depart(who: string, order: seq<string>, now: int)
    | Remove(who: string)
    | Snapshot(to: string, order: seq<string>, now: int)
    | Elsewhere(stamps: nat)

  /** No key is held, and nothing was ever said to who. */
  predicate NewHere(r: Keys, who: string) {
    r.leases == map[] && Heard(r.lines, who) == []
  }

  predicate Legal(r: Keys, op: Op) {
    match op
    case Ask(from, _, req, _, _) =>
      from != "" && (req.Claim? ==> Int64(req.ttlMs)) && (req.Renew? ==> Int64(req.ttlMs))
    case Snapshot(_, order, _) => forall k | k in order :: k in r.leases
    case _ => true
  }

  function Step(r: Keys, op: Op): Keys
    requires Legal(r, op)
  {
    match op
    case Ask(from, key, Claim(ttlMs), now, world) => Claiming(r, from, key, ClampTTL(ttlMs), now, world)
    case Ask(from, key, Renew(ttlMs), now, _) => Renewing(r, from, key, ClampTTL(ttlMs), now)
    case Ask(from, key, Release, now, _) => Releasing(r, from, key, now)
    case Ask(_, _, Unknown, _, _) => r
    case Expire(key, holder, now) => Expiring(r, key, holder, now)
    case Join(who) =>
      r.(members := r.members + {who}, informed := if NewHere(r, who) then r.informed + {who} else r.informed - {who})
    case Suspend(who) => r.(informed := r.informed - {who})
    case Depart(who, order, now) => FreeAll(r, order, who, now)
    case Remove(who) => r.(members := r.members - {who}, informed := r.informed - {who})
    case Snapshot(to, order, now) => Snapshotting(r, to, order, now)
    case Elsewhere(stamps) => r.(stamp := r.stamp + stamps)
  }

  // ----- What the lines say -----

  /** The last word in lines on key: held by whom and until when, or free. */
  function LastWord(lines: seq<Line>, key: string): Option<Lease> {
    if lines == [] then None
    else
      var l := Last(lines);
      if l.state.key != key then LastWord(Front(lines), key)
      else if l.state.reason == Granted then Some(Lease(l.state.holder, l.until))
      else if Free(l.state.reason) then None
      else LastWord(Front(lines), key)
  }

  /** The lines that reached m. */
  function Heard(lines: seq<Line>, m: string): seq<Line> {
    if lines == [] then []
    else if m in Last(lines).to then Heard(Front(lines), m) + [Last(lines)] else Heard(Front(lines), m)
  }

  /** A line's place in what came before it. */
  predicate Follows(before: seq<Line>, l: Line) {
    var word := LastWord(before, l.state.key);
    && (before != [] ==> Last(before).state.stamp < l.state.stamp)
    && (l.state.reason == Granted ==> word.None? || word.value.holder == l.state.holder)
    && (Free(l.state.reason) ==> word.Some?)
    && (l.state.reason == Expired ==> word.Some? && word.value.expiresAt <= l.at)
  }

  predicate Proper(lines: seq<Line>) {
    lines == [] || (Proper(Front(lines)) && Follows(Front(lines), Last(lines)))
  }

  predicate SameToTheSecond(a: Option<Lease>, b: Option<Lease>) {
    && a.Some? == b.Some?
    && (a.Some? ==> a.value.holder == b.value.holder && a.value.expiresAt / SECOND == b.value.expiresAt / SECOND)
  }

  ghost predicate Truthful(lines: seq<Line>, leases: map<string, Lease>) {
    forall k :: LastWord(lines, k) == if k in leases then Some(leases[k]) else None
  }

  ghost predicate InTheKnow(lines: seq<Line>, m: string) {
    forall k :: SameToTheSecond(LastWord(Heard(lines, m), k), LastWord(lines, k))
  }

  ghost predicate AllInTheKnow(lines: seq<Line>, informed: set<string>) {
    forall m | m in informed :: InTheKnow(lines, m)
  }

  ghost function HeldKeys(leases: map<string, Lease>, m: string): set<string> {
    set k | k in leases && leases[k].holder == m
  }

  ghost predicate Counted(leases: map<string, Lease>, heldBy: map<string, int>) {
    && (forall m :: Count(heldBy, m) == |HeldKeys(leases, m)| <= MAX_PER_MEMBER)
    && (forall m | m in heldBy :: heldBy[m] > 0)
    && |leases| <= MAX_LEASES
  }

  ghost predicate Journal(lines: seq<Line>, stamp: nat) {
    Proper(lines) && (lines != [] ==> Last(lines).state.stamp <= stamp)
  }

  ghost predicate Inv(r: Keys) {
    && Counted(r.leases, r.heldBy)
    && Journal(r.lines, r.stamp)
    && Truthful(r.lines, r.leases)
    && AllInTheKnow(r.lines, r.informed)
    && r.informed <= r.members
  }

  // ----- One more line -----

  lemma LastWordAfter(lines: seq<Line>, l: Line, k: string)
    ensures LastWord(lines + [l], k) ==
            if l.state.key != k || !(l.state.reason == Granted || Free(l.state.reason)) then LastWord(lines, k)
            else if l.state.reason == Granted then Some(Lease(l.state.holder, l.until)) else None
  {
    assert Front(lines + [l]) == lines;
  }

  lemma HeardAfter(lines: seq<Line>, l: Line, m: string)
    ensures Heard(lines + [l], m) == if m in l.to then Heard(lines, m) + [l] else Heard(lines, m)
  {
    assert Front(lines + [l]) == lines;
  }

  /** A line all members get, or one that changes nothing to the second, keeps an informed member informed. */
  lemma StaysInTheKnow(lines: seq<Line>, l: Line, m: string)
    requires InTheKnow(lines, m)
    requires Free(l.state.reason) ==> m in l.to
    requires m !in l.to && l.state.reason == Granted ==>
               SameToTheSecond(LastWord(lines, l.state.key), Some(Lease(l.state.holder, l.until)))
    ensures InTheKnow(lines + [l], m)
  {
    forall k
      ensures SameToTheSecond(LastWord(Heard(lines + [l], m), k), LastWord(lines + [l], k))
    {
      HeardAfter(lines, l, m);
      LastWordAfter(lines, l, k);
      LastWordAfter(Heard(lines, m), l, k);
      assert SameToTheSecond(LastWord(Heard(lines, m), k), LastWord(lines, k));
    }
  }

  lemma JournalGrows(lines: seq<Line>, l: Line, stamp: nat)
    requires Journal(lines, stamp) && l.state.stamp == stamp + 1
    requires Follows(lines, l)
    ensures Journal(lines + [l], stamp + 1)
  {
    assert Front(lines + [l]) == lines;
  }

  // ----- Every step -----

  /** A line that decides nothing: a denial, or a restatement of what is held. */
  lemma SayKeeps(r: Keys, key: string, holder: string, until: int, reason: Reason, at: int, to: set<string>)
    requires Inv(r)
    requires reason == Denied || reason == TooMany ||
             (reason == Granted && key in r.leases && r.leases[key] == Lease(holder, until))
    ensures Inv(Say(r, key, holder, until, reason, at, to))
  {
    hide Counted, Journal, InTheKnow;
    var ms := if holder == "" then 0 else until / MILLISECOND;
    var l := Line(LeaseState(key, holder, r.stamp + 1, ms, reason), until, at, to);
    FollowsStamp(r.lines, r.stamp, l);
    JournalGrows(r.lines, l, r.stamp);
    forall k
      ensures LastWord(r.lines + [l], k) == if k in r.leases then Some(r.leases[k]) else None
    {
      LastWordAfter(r.lines, l, k);
    }
    forall m | m in r.informed
      ensures InTheKnow(r.lines + [l], m)
    {
      StaysInTheKnow(r.lines, l, m);
    }
  }

  lemma FollowsStamp(lines: seq<Line>, stamp: nat, l: Line)
    requires Journal(lines, stamp) && l.state.stamp == stamp + 1
    requires var word := LastWord(lines, l.state.key);
             && (l.state.reason == Granted ==> word.None? || word.value.holder == l.state.holder)
             && (Free(l.state.reason) ==> word.Some?)
             && (l.state.reason == Expired ==> word.Some? && word.value.expiresAt <= l.at)
    ensures Follows(lines, l)
  {
  }

  lemma HeldAfter(leases: map<string, Lease>, key: string, l: Lease, m: string)
    ensures |HeldKeys(leases[key := l], m)| ==
            |HeldKeys(leases, m)| - (if key in leases && leases[key].holder == m then 1 else 0)
            + (if l.holder == m then 1 else 0)
  {
    var before, after := HeldKeys(leases, m), HeldKeys(leases[key := l], m);
    assert after == before - {key} + if l.holder == m then {key} else {};
    assert key in before <==> key in leases && leases[key].holder == m;
  }

  lemma HeldWithout(leases: map<string, Lease>, key: string, m: string)
    requires key in leases
    ensures |HeldKeys(leases - {key}, m)| == |HeldKeys(leases, m)| - if leases[key].holder == m then 1 else 0
  {
    assert HeldKeys(leases - {key}, m) == HeldKeys(leases, m) - {key};
  }

  lemma GrantCounted(leases: map<string, Lease>, heldBy: map<string, int>, key: string, l: Lease)
    requires Counted(leases, heldBy)
    requires key in leases ==> leases[key].holder == l.holder
    requires key !in leases ==> |leases| < MAX_LEASES && Count(heldBy, l.holder) < MAX_PER_MEMBER
    ensures Counted(leases[key := l], Recount(heldBy, if key in leases then Some(leases[key]) else None, l.holder))
  {
    hide HeldKeys;
    var tally := Recount(heldBy, if key in leases then Some(leases[key]) else None, l.holder);
    forall m
      ensures Count(tally, m) == |HeldKeys(leases[key := l], m)| <= MAX_PER_MEMBER
    {
      HeldAfter(leases, key, l, m);
      assert Count(heldBy, m) == |HeldKeys(leases, m)| <= MAX_PER_MEMBER;
    }
    assert leases[key := l].Keys == leases.Keys + {key};
    assert |leases[key := l].Keys| == |leases.Keys| + if key in leases then 0 else 1;
  }

  lemma FreeCounted(leases: map<string, Lease>, heldBy: map<string, int>, key: string)
    requires Counted(leases, heldBy) && key in leases
    ensures Counted(leases - {key}, Lowered(heldBy, leases[key].holder))
  {
    hide HeldKeys;
    var tally := Lowered(heldBy, leases[key].holder);
    forall m
      ensures Count(tally, m) == |HeldKeys(leases - {key}, m)| <= MAX_PER_MEMBER
    {
      HeldWithout(leases, key, m);
      assert Count(heldBy, m) == |HeldKeys(leases, m)| <= MAX_PER_MEMBER;
    }
    assert (leases - {key}).Keys == leases.Keys - {key};
    assert |(leases - {key}).Keys| == |leases.Keys| - 1;
  }

  lemma TruthAfter(lines: seq<Line>, leases: map<string, Lease>, l: Line)
    requires Truthful(lines, leases) && (l.state.reason == Granted || Free(l.state.reason))
    ensures Truthful(lines + [l],
                     if l.state.reason == Granted then leases[l.state.key := Lease(l.state.holder, l.until)]
                     else leases - {l.state.key})
  {
    forall k
      ensures LastWord(lines + [l], k) ==
              if k != l.state.key then LastWord(lines, k)
              else if l.state.reason == Granted then Some(Lease(l.state.holder, l.until)) else None
    {
      LastWordAfter(lines, l, k);
    }
  }

  lemma GrantKeeps(r: Keys, key: string, holder: string, ttl: int, now: int, world: nat)
    requires Inv(r) && holder != ""
    requires key in r.leases ==> r.leases[key].holder == holder
    requires key !in r.leases ==> !TableFull(r, holder)
    ensures Inv(Grant(r, key, holder, ttl, now, world))
  {
    hide Counted, Journal, InTheKnow;
    var was, next := Current(r, key), Lease(holder, now + ttl);
    var to := if Unremarkable(was, next) then {holder} else r.members;
    var l := Line(LeaseState(key, holder, r.stamp + 1, next.expiresAt / MILLISECOND, Granted), next.expiresAt, now, to);
    GrantCounted(r.leases, r.heldBy, key, next);
    assert LastWord(r.lines, key) == was;
    FollowsStamp(r.lines, r.stamp, l);
    JournalGrows(r.lines, l, r.stamp);
    TruthAfter(r.lines, r.leases, l);
    forall m | m in r.informed
      ensures InTheKnow(r.lines + [l], m)
    {
      StaysInTheKnow(r.lines, l, m);
    }
    if was.None? {
      JournalWaits(r.lines + [l], r.stamp + 1, world);
    }
  }

  lemma JournalWaits(lines: seq<Line>, stamp: nat, more: nat)
    requires Journal(lines, stamp)
    ensures Journal(lines, stamp + more)
  {
  }

  lemma FreeKeeps(r: Keys, key: string, reason: Reason, now: int)
    requires Inv(r) && Free(reason) && key in r.leases && (reason == Expired ==> r.leases[key].expiresAt <= now)
    ensures Inv(FreeKey(r, key, reason, now))
  {
    hide Counted, Journal, InTheKnow;
    var l := Line(LeaseState(key, "", r.stamp + 1, 0, reason), 0, now, r.members);
    FreeCounted(r.leases, r.heldBy, key);
    assert LastWord(r.lines, key) == Some(r.leases[key]);
    FollowsStamp(r.lines, r.stamp, l);
    JournalGrows(r.lines, l, r.stamp);
    TruthAfter(r.lines, r.leases, l);
    forall m | m in r.informed
      ensures InTheKnow(r.lines + [l], m)
    {
      StaysInTheKnow(r.lines, l, m);
    }
  }

  lemma {:induction false} FreeAllKeeps(r: Keys, order: seq<string>, who: string, now: int)
    requires Inv(r)
    ensures Inv(FreeAll(r, order, who, now))
  {
    hide Inv, FreeKey;
    if order != [] {
      FreeAllKeeps(r, Front(order), who, now);
      var s := FreeAll(r, Front(order), who, now);
      if Last(order) in s.leases && s.leases[Last(order)].holder == who {
        FreeKeeps(s, Last(order), HolderLeft, now);
      }
    }
  }

  lemma {:induction false} SnapshottingKeeps(r: Keys, to: string, order: seq<string>, now: int)
    requires Inv(r) && forall k | k in order :: k in r.leases
    ensures Inv(Snapshotting(r, to, order, now))
  {
    hide Inv, Say;
    if order != [] {
      SnapshottingKeeps(r, to, Front(order), now);
      var l := r.leases[Last(order)];
      SayKeeps(Snapshotting(r, to, Front(order), now), Last(order), l.holder, l.expiresAt, Granted, now, {to});
    }
  }

  lemma AskKeeps(r: Keys, from: string, key: string, req: Request, now: int, world: nat)
    requires Inv(r) && Legal(r, Ask(from, key, req, now, world))
    ensures Inv(Step(r, Ask(from, key, req, now, world)))
  {
    hide Inv, Grant, Say, FreeKey, TableFull;
    match req {
      case Claim(ttlMs) =>
        if key in r.leases && r.leases[key].holder != from {
          SayKeeps(r, key, r.leases[key].holder, r.leases[key].expiresAt, Denied, now, {from});
        } else if key !in r.leases && TableFull(r, from) {
          SayKeeps(r, key, "", 0, TooMany, now, {from});
        } else {
          GrantKeeps(r, key, from, ClampTTL(ttlMs), now, world);
        }
      case Renew(ttlMs) =>
        if key in r.leases && r.leases[key].holder == from {
          GrantKeeps(r, key, from, ClampTTL(ttlMs), now, 0);
        } else if key in r.leases {
          SayKeeps(r, key, r.leases[key].holder, r.leases[key].expiresAt, Denied, now, {from});
        } else {
          SayKeeps(r, key, "", 0, Denied, now, {from});
        }
      case Release =>
        if key in r.leases && r.leases[key].holder == from {
          FreeKeeps(r, key, Released, now);
        }
      case Unknown =>
    }
  }

  /** A newcomer to a room where nothing is held knows all there is to know. */
  lemma NewcomerKnows(lines: seq<Line>, m: string)
    requires Truthful(lines, map[]) && Heard(lines, m) == []
    ensures InTheKnow(lines, m)
  {
  }

  lemma JoinKeeps(r: Keys, who: string)
    requires Inv(r)
    ensures Inv(Step(r, Join(who)))
  {
    hide Counted, Journal, InTheKnow;
    if NewHere(r, who) {
      NewcomerKnows(r.lines, who);
    }
  }

  lemma LessInformed(r: Keys, who: string)
    requires Inv(r)
    ensures Inv(Step(r, Suspend(who))) && Inv(Step(r, Remove(who)))
  {
    hide Counted, Journal, Truthful, InTheKnow;
  }

  lemma ExpireKeeps(r: Keys, key: string, holder: string, now: int)
    requires Inv(r)
    ensures Inv(Expiring(r, key, holder, now))
  {
    hide Inv, FreeKey;
    if key in r.leases && now >= r.leases[key].expiresAt {
      FreeKeeps(r, key, Expired, now);
    }
  }

  lemma StepKeeps(r: Keys, op: Op)
    requires Inv(r) && Legal(r, op)
    ensures Inv(Step(r, op))
  {
    hide Counted, Truthful, AllInTheKnow, Journal, Expiring, FreeAll, Snapshotting, Claiming, Renewing, Releasing;
    match op {
      case Ask(from, key, req, now, world) => AskKeeps(r, from, key, req, now, world);
      case Expire(key, holder, now) => ExpireKeeps(r, key, holder, now);
      case Depart(who, order, now) => FreeAllKeeps(r, order, who, now);
      case Snapshot(to, order, now) => SnapshottingKeeps(r, to, order, now);
      case Elsewhere(stamps) => JournalWaits(r.lines, r.stamp, stamps);
      case Join(who) => JoinKeeps(r, who);
      case Suspend(who) => LessInformed(r, who);
      case Remove(who) => LessInformed(r, who);
    }
  }

  // ----- Every run -----

  predicate LegalRun(ops: seq<Op>)
    decreases |ops|, 0
  {
    ops == [] || (LegalRun(Front(ops)) && Legal(Run(Front(ops)), Last(ops)))
  }

  function Run(ops: seq<Op>): Keys
    requires LegalRun(ops)
    decreases |ops|, 1
  {
    if ops == [] then NO_KEYS else Step(Run(Front(ops)), Last(ops))
  }

  lemma {:induction false} RunKeeps(ops: seq<Op>)
    requires LegalRun(ops)
    ensures Inv(Run(ops))
  {
    if ops == [] {
      assert forall m :: HeldKeys(map[], m) == {};
    } else {
      RunKeeps(Front(ops));
      hide Inv, Step;
      StepKeeps(Run(Front(ops)), Last(ops));
    }
  }

  /** Lines are stamped in strictly increasing order. */
  lemma {:induction false} StampsIncrease(lines: seq<Line>, i: nat, j: nat)
    requires Proper(lines) && i < j < |lines|
    ensures lines[i].state.stamp < lines[j].state.stamp
  {
    if j < |lines| - 1 {
      StampsIncrease(Front(lines), i, j);
    } else if i < j - 1 {
      StampsIncrease(Front(lines), i, j - 1);
    }
  }

  lemma {:induction false} ProperPrefix(lines: seq<Line>, n: nat)
    requires Proper(lines) && n <= |lines|
    ensures Proper(lines[..n])
    ensures n < |lines| ==> Follows(lines[..n], lines[n])
  {
    if n < |lines| {
      ProperPrefix(Front(lines), if n < |lines| - 1 then n else |lines| - 1);
      assert Front(lines)[..n] == lines[..n];
    } else {
      assert lines[..n] == lines;
    }
  }

  predicate FreedBetween(lines: seq<Line>, key: string, i: nat, j: nat) {
    exists n :: i < n < j < |lines| && lines[n].state.key == key && Free(lines[n].state.reason)
  }

  /** With no word of freedom after the grant at i, every later word names its holder. */
  lemma {:induction false} WordStands(lines: seq<Line>, i: nat, j: nat)
    requires Proper(lines) && i < j <= |lines| && lines[i].state.reason == Granted
    requires forall n | i < n < j :: !(lines[n].state.key == lines[i].state.key && Free(lines[n].state.reason))
    ensures var w := LastWord(lines[..j], lines[i].state.key); w.Some? && w.value.holder == lines[i].state.holder
    decreases j
  {
    var key := lines[i].state.key;
    ProperPrefix(lines, j - 1);
    assert lines[..j] == lines[..j - 1] + [lines[j - 1]];
    LastWordAfter(lines[..j - 1], lines[j - 1], key);
    if i < j - 1 {
      WordStands(lines, i, j - 1);
    }
  }

  /** Two different holders of one key, ordered by stamp, are always separated by word that it was free. */
  lemma LeaseExclusion(ops: seq<Op>, i: nat, j: nat)
    requires LegalRun(ops) && i < j < |Run(ops).lines|
    requires var a, b := Run(ops).lines[i].state, Run(ops).lines[j].state;
             a.key == b.key && a.reason == b.reason == Granted && a.holder != b.holder
    ensures FreedBetween(Run(ops).lines, Run(ops).lines[i].state.key, i, j)
    ensures Run(ops).lines[i].state.stamp < Run(ops).lines[j].state.stamp
  {
    var lines := Run(ops).lines;
    RunKeeps(ops);
    ProperPrefix(lines, j);
    StampsIncrease(lines, i, j);
    if !FreedBetween(lines, lines[i].state.key, i, j) {
      WordStands(lines, i, j);
    }
  }

  /** An expiry is announced only of a held key, at or after the expiry it was last granted, renewals included. */
  lemma ExpiryIsNeverEarly(ops: seq<Op>, j: nat)
    requires LegalRun(ops) && j < |Run(ops).lines| && Run(ops).lines[j].state.reason == Expired
    ensures var l := Run(ops).lines[j];
            var word := LastWord(Run(ops).lines[..j], l.state.key);
            word.Some? && word.value.expiresAt <= l.at
  {
    RunKeeps(ops);
    ProperPrefix(Run(ops).lines, j);
  }

  /** In every reachable table: what was last said of a key is the truth, the counts are right and every bound holds. */
  lemma TableIsRight(ops: seq<Op>, key: string, m: string)
    requires LegalRun(ops)
    ensures var r := Run(ops);
            && LastWord(r.lines, key) == Current(r, key)
            && Count(r.heldBy, m) == |HeldKeys(r.leases, m)| <= MAX_PER_MEMBER
            && |r.leases| <= MAX_LEASES
  {
    RunKeeps(ops);
  }

  /**
    A renewal that changes nothing to the second is told to its holder alone, and yet every member connected since
    before the first grant knows every key's holder, and its expiry to the second.
   */
  lemma SilentRenewalsAreHarmless(ops: seq<Op>, m: string, key: string)
    requires LegalRun(ops) && m in Run(ops).informed
    ensures SameToTheSecond(LastWord(Heard(Run(ops).lines, m), key), Current(Run(ops), key))
  {
    RunKeeps(ops);
    assert InTheKnow(Run(ops).lines, m);
  }

  /** A key leaves its holder's hands only by the holder's own release, its departure, or an expiry that is due. */
  lemma OnlyHolderOrTimeFrees(r: Keys, op: Op, key: string)
    requires Legal(r, op) && key in r.leases
    ensures var h := r.leases[key].holder;
            var after := Step(r, op).leases;
            key !in after || after[key].holder != h ==>
              key !in after &&
              match op
              case Ask(from, k, Release, _, _) => from == h && k == key
              case Expire(k, holder, now) => k == key && holder == h && r.leases[key].expiresAt <= now
              case Depart(who, _, _) => who == h
              case _ => false
  {
    match op {
      case Depart(who, order, now) => OthersKeepTheirs(r, order, who, now, key);
      case _ =>
    }
  }

  lemma {:induction false} OthersKeepTheirs(r: Keys, order: seq<string>, who: string, now: int, key: string)
    requires key in r.leases
    ensures var after := FreeAll(r, order, who, now).leases;
            key in after <==> !(r.leases[key].holder == who && key in order)
    ensures key in FreeAll(r, order, who, now).leases ==> FreeAll(r, order, who, now).leases[key] == r.leases[key]
  {
    if order != [] {
      OthersKeepTheirs(r, Front(order), who, now, key);
      assert order == Front(order) + [Last(order)];
    }
  }

  /** A holder's claim or renewal always succeeds, however full the table is. */
  lemma HolderIsNeverRefused(r: Keys, key: string, ttlMs: int, now: int, world: nat)
    requires Inv(r) && key in r.leases && Int64(ttlMs)
    ensures var h := r.leases[key].holder;
            && Claiming(r, h, key, ClampTTL(ttlMs), now, world).leases[key] == Lease(h, now + ClampTTL(ttlMs))
            && Renewing(r, h, key, ClampTTL(ttlMs), now).leases[key] == Lease(h, now + ClampTTL(ttlMs))
            && Claiming(r, h, key, ClampTTL(ttlMs), now, world).heldBy == r.heldBy
  {
  }

  // ----- Requests take effect -----

  /** s is r with one more line at `at`, about key, to these members. */
  ghost predicate Tells(r: Keys, s: Keys, key: string, holder: string, until: int, reason: Reason, at: int,
                        to: set<string>)
  {
    var ms := if holder == "" then 0 else until / 1_000_000;
    s.lines == r.lines + [Line(LeaseState(key, holder, r.stamp + 1, ms, reason), until, at, to)]
  }

  /** Nothing is held, freed or counted differently. */
  predicate SameKeys(r: Keys, s: Keys) {
    s.leases == r.leases && s.heldBy == r.heldBy && s.members == r.members
  }

  predicate SameSecond(a: int, b: int) {
    a / 1_000_000_000 == b / 1_000_000_000
  }

  /** from now holds key until then; no other key changes hands, and everyone is told when the room did not know. */
  ghost predicate GrantsTo(r: Keys, s: Keys, key: string, from: string, until: int, now: int) {
    && s.leases == r.leases[key := Lease(from, until)] && s.members == r.members
    && Tells(r, s, key, from, until, Granted, now,
             if key in r.leases && r.leases[key].holder == from && SameSecond(r.leases[key].expiresAt, until)
             then {from} else r.members)
  }

  /**
    A claim is granted if and only if the key is the claimant's, or free while fewer than 256 keys are held in the room
    and 32 by the claimant; otherwise it alone is told why, and who holds the key.
   */
  lemma ClaimIsHeeded(ops: seq<Op>, from: string, key: string, ttlMs: int, now: int, world: nat)
    requires LegalRun(ops) && from != "" && Int64(ttlMs)
    ensures var r := Run(ops);
            var s := Step(r, Ask(from, key, Claim(ttlMs), now, world));
            if key in r.leases && r.leases[key].holder != from
            then SameKeys(r, s) && Tells(r, s, key, r.leases[key].holder, r.leases[key].expiresAt, Denied, now, {from})
            else if key !in r.leases && (|r.leases| >= 256 || |HeldKeys(r.leases, from)| >= 32)
            then SameKeys(r, s) && Tells(r, s, key, "", 0, TooMany, now, {from})
            else GrantsTo(r, s, key, from, now + ClampTTL(ttlMs), now)
  {
    TableIsRight(ops, key, from);
    hide Run, LegalRun, ClampTTL, HeldKeys, LastWord, Claiming;
    ClaimIsJudged(Run(ops), from, key, ClampTTL(ttlMs), now, world);
    hide GrantsTo, Tells, SameKeys;
  }

  lemma ClaimIsJudged(r: Keys, from: string, key: string, ttl: int, now: int, world: nat)
    requires from != "" && Count(r.heldBy, from) == |HeldKeys(r.leases, from)|
    ensures var s := Claiming(r, from, key, ttl, now, world);
            if key in r.leases && r.leases[key].holder != from
            then SameKeys(r, s) && Tells(r, s, key, r.leases[key].holder, r.leases[key].expiresAt, Denied, now, {from})
            else if key !in r.leases && (|r.leases| >= 256 || |HeldKeys(r.leases, from)| >= 32)
            then SameKeys(r, s) && Tells(r, s, key, "", 0, TooMany, now, {from})
            else GrantsTo(r, s, key, from, now + ttl, now)
  {
    hide HeldKeys;
    GrantIsHeeded(r, key, from, ttl, now, world);
    RefusalIsHeeded(r, key, from, now);
    hide Grant, GrantsTo, Say, Tells, SameKeys;
  }

  lemma GrantIsHeeded(r: Keys, key: string, from: string, ttl: int, now: int, world: nat)
    requires from != ""
    ensures key !in r.leases || r.leases[key].holder == from ==>
              GrantsTo(r, Grant(r, key, from, ttl, now, world), key, from, now + ttl, now)
  {
    hide Recount;
  }

  lemma RefusalIsHeeded(r: Keys, key: string, from: string, now: int)
    ensures key in r.leases ==>
              var was := r.leases[key];
              var s := Say(r, key, was.holder, was.expiresAt, Denied, now, {from});
              SameKeys(r, s) && Tells(r, s, key, was.holder, was.expiresAt, Denied, now, {from})
    ensures var s := Say(r, key, "", 0, TooMany, now, {from});
            SameKeys(r, s) && Tells(r, s, key, "", 0, TooMany, now, {from})
    ensures var s := Say(r, key, "", 0, Denied, now, {from});
            SameKeys(r, s) && Tells(r, s, key, "", 0, Denied, now, {from})
  {
  }

  /** A renewal is granted to the holder alone; anyone else alone is told that it is denied, and who holds the key. */
  lemma RenewalIsHeeded(r: Keys, from: string, key: string, ttlMs: int, now: int, world: nat)
    requires from != "" && Int64(ttlMs)
    ensures var s := Step(r, Ask(from, key, Renew(ttlMs), now, world));
            if key in r.leases && r.leases[key].holder == from
            then GrantsTo(r, s, key, from, now + ClampTTL(ttlMs), now)
            else
              && SameKeys(r, s)
              && if key in r.leases
                 then Tells(r, s, key, r.leases[key].holder, r.leases[key].expiresAt, Denied, now, {from})
                 else Tells(r, s, key, "", 0, Denied, now, {from})
  {
    hide ClampTTL;
    GrantIsHeeded(r, key, from, ClampTTL(ttlMs), now, 0);
    RefusalIsHeeded(r, key, from, now);
    hide Grant, GrantsTo, Say, Tells, SameKeys;
  }

  /** The key is free and everyone is told why; no other key changes hands. */
  ghost predicate FreesKey(r: Keys, s: Keys, key: string, reason: Reason, now: int) {
    && key !in s.leases && s.leases == r.leases - {key} && s.members == r.members
    && Tells(r, s, key, "", 0, reason, now, r.members)
  }

  /** A holder's release frees its key, and an expiry timer a due lease of the holder it was armed for; else nothing. */
  lemma ReleaseIsHeeded(r: Keys, from: string, key: string, now: int, world: nat)
    requires from != ""
    ensures var s := Step(r, Ask(from, key, Release, now, world));
            if key in r.leases && r.leases[key].holder == from then FreesKey(r, s, key, Released, now) else s == r
    ensures var s := Step(r, Expire(key, from, now));
            if key in r.leases && r.leases[key].holder == from && r.leases[key].expiresAt <= now
            then FreesKey(r, s, key, Expired, now) else s == r
    ensures Step(r, Ask(from, key, Unknown, now, world)) == r
  {
    hide Lowered;
  }

  /** Everyone was told, in a line after the first n, that the key is free because its holder left. */
  ghost predicate ToldFreed(lines: seq<Line>, n: nat, key: string, to: set<string>) {
    exists i | n <= i < |lines| ::
      lines[i].state.key == key && lines[i].state.reason == HolderLeft && lines[i].to == to
  }

  /** Whoever leaves loses every key walked, nobody else any, and everyone is told. */
  lemma DepartureIsHeeded(r: Keys, who: string, order: seq<string>, now: int, key: string)
    requires key in r.leases
    ensures var s := Step(r, Depart(who, order, now));
            && (key in s.leases <==> !(r.leases[key].holder == who && key in order))
            && (key !in s.leases ==> ToldFreed(s.lines, |r.lines|, key, r.members))
  {
    OthersKeepTheirs(r, order, who, now, key);
    DepartureTells(r, order, who, now, key);
  }

  lemma {:induction false} DepartureTells(r: Keys, order: seq<string>, who: string, now: int, key: string)
    requires key in r.leases
    ensures var s := FreeAll(r, order, who, now);
            && r.lines <= s.lines && s.members == r.members
            && (key !in s.leases ==> ToldFreed(s.lines, |r.lines|, key, r.members))
  {
    if order != [] {
      var s := FreeAll(r, Front(order), who, now);
      DepartureTells(r, Front(order), who, now, key);
      if Last(order) in s.leases && s.leases[Last(order)].holder == who {
        var t := FreeKey(s, Last(order), HolderLeft, now);
        if Last(order) == key {
          assert t.lines[|s.lines|].state.key == key;
        } else if key !in s.leases {
          var i :| |r.lines| <= i < |s.lines| && s.lines[i].state.key == key && s.lines[i].state.reason == HolderLeft
                   && s.lines[i].to == r.members;
          assert t.lines[i] == s.lines[i];
        }
      }
    }
  }

  /** The line tells `to` alone who holds key, and until when. */
  predicate Restates(l: Line, key: string, held: Lease, to: string) {
    && l.state.key == key && l.state.reason == Granted && l.state.holder == held.holder
    && l.until == held.expiresAt && l.to == {to}
  }

  /** A resuming member is told of every key held, by whom and until when, and nobody else is told anything. */
  lemma {:induction false} SnapshotTells(r: Keys, to: string, order: seq<string>, now: int)
    requires forall k | k in order :: k in r.leases
    ensures var s := Snapshotting(r, to, order, now);
            && |s.lines| == |r.lines| + |order| && r.lines <= s.lines && s.leases == r.leases
            && forall i | 0 <= i < |order| :: Restates(s.lines[|r.lines| + i], order[i], r.leases[order[i]], to)
  {
    if order != [] {
      var f, s := Snapshotting(r, to, Front(order), now), Snapshotting(r, to, order, now);
      SnapshotTells(r, to, Front(order), now);
      forall i | 0 <= i < |order|
        ensures Restates(s.lines[|r.lines| + i], order[i], r.leases[order[i]], to)
      {
        if i < |order| - 1 {
          assert Front(order)[i] == order[i] && s.lines[|r.lines| + i] == f.lines[|r.lines| + i];
        } else {
          assert order[i] == Last(order) && s.lines[|r.lines| + i] == Last(s.lines);
        }
      }
    }
  }

  // ----- Who is here and who has heard everything -----

  /** who joined and has not been removed since. */
  predicate IsHere(ops: seq<Op>, who: string) {
    if ops == [] then false
    else
      match Last(ops)
      case Join(w) => w == who || IsHere(Front(ops), who)
      case Remove(w) => w != who && IsHere(Front(ops), who)
      case _ => IsHere(Front(ops), who)
  }

  /** who joined while no key was held and nothing had been said to it, and has been connected since. */
  predicate HeardAll(ops: seq<Op>, who: string)
    requires LegalRun(ops)
  {
    if ops == [] then false
    else
      match Last(ops)
      case Join(w) => if w == who then NewHere(Run(Front(ops)), who) else HeardAll(Front(ops), who)
      case Suspend(w) => w != who && HeardAll(Front(ops), who)
      case Remove(w) => w != who && HeardAll(Front(ops), who)
      case _ => HeardAll(Front(ops), who)
  }

  lemma OnlyPresenceMoves(r: Keys, op: Op)
    requires Legal(r, op) && !op.Join? && !op.Suspend? && !op.Remove?
    ensures Step(r, op).members == r.members && Step(r, op).informed == r.informed
  {
    hide ClampTTL, Recount, Lowered, Heard;
    if op.Depart? {
      DepartureMovesNobody(r, op.order, op.who, op.now);
    }
  }

  lemma {:induction false} DepartureMovesNobody(r: Keys, order: seq<string>, who: string, now: int)
    ensures var s := FreeAll(r, order, who, now); s.members == r.members && s.informed == r.informed
  {
    if order != [] {
      DepartureMovesNobody(r, Front(order), who, now);
    }
  }

  /** In every run the members, and those that have heard everything, are those the steps say. */
  lemma {:induction false} RoomFollowsSteps(ops: seq<Op>, who: string)
    requires LegalRun(ops)
    ensures who in Run(ops).members <==> IsHere(ops, who)
    ensures who in Run(ops).informed <==> HeardAll(ops, who)
  {
    if ops != [] {
      var r, op := Run(Front(ops)), Last(ops);
      RoomFollowsSteps(Front(ops), who);
      if !op.Join? && !op.Suspend? && !op.Remove? {
        OnlyPresenceMoves(r, op);
      }
      hide Claiming, Renewing, Releasing, Expiring, FreeAll, Snapshotting, NewHere;
    }
  }

  lemma NothingFreed(r: Keys, who: string, now: int)
    ensures FreeAll(r, [], who, now) == r
  {
  }

  lemma FreeOneMore(r: Keys, order: seq<string>, key: string, who: string, now: int)
    ensures var s := FreeAll(r, order, who, now);
            FreeAll(r, order + [key], who, now) ==
            if key in s.leases && s.leases[key].holder == who then FreeKey(s, key, HolderLeft, now) else s
  {
    assert Front(order + [key]) == order;
  }

  lemma FreesOnlyIt(r: Keys, key: string, reason: Reason, now: int)
    ensures FreeKey(r, key, reason, now).leases == r.leases - {key}
  {
    if key !in r.leases {
      assert r.leases - {key} == r.leases;
    }
  }

  // ----- The table as the source keeps it -----

  class LeaseTable {
    var leases: map<string, Lease>
    var leasesBy: map<string, int>
    var members: set<string>
    var stamp: nat
    ghost var lines: seq<Line>
    ghost var informed: set<string>

    ghost function Abs(): Keys
      reads this
    {
      Keys(leases, leasesBy, members, stamp, lines, informed)
    }

    constructor ()
      ensures Abs() == NO_KEYS
    {
      leases, leasesBy, members, stamp := map[], map[], {}, 0;
      lines, informed := [], {};
    }

    method Send(key: string, holder: string, until: int, reason: Reason, now: int, to: set<string>)
      modifies this`stamp, this`lines
      ensures Abs() == Say(old(Abs()), key, holder, until, reason, now, to)
    {
      stamp := stamp + 1;
      var ms := if holder == "" then 0 else until / MILLISECOND;
      lines := lines + [Line(LeaseState(key, holder, stamp, ms, reason), until, now, to)];
    }

    method HeldLease(holder: string)
      modifies this`leasesBy
      ensures leasesBy == Raised(old(leasesBy), holder)
    {
      leasesBy := leasesBy[holder := (if holder in leasesBy then leasesBy[holder] else 0) + 1];
    }

    method ReleasedLease(holder: string)
      modifies this`leasesBy
      ensures leasesBy == Lowered(old(leasesBy), holder)
    {
      var n := (if holder in leasesBy then leasesBy[holder] else 0) - 1;
      if n > 0 {
        leasesBy := leasesBy[holder := n];
      } else {
        leasesBy := leasesBy - {holder};
      }
    }

    /** world is how many lines the world the new holder adopts takes. */
    method GrantLease(key: string, holder: string, ttl: int, now: int, world: nat)
      requires holder != ""
      modifies this`leases, this`leasesBy, this`stamp, this`lines
      ensures Abs() == Grant(old(Abs()), key, holder, ttl, now, world)
    {
      var previousHolder, previousExpirySec := "", 0;
      if key in leases {
        previousExpirySec := leases[key].expiresAt / SECOND;
        previousHolder := leases[key].holder;
        if previousHolder != holder {
          ReleasedLease(previousHolder);
          HeldLease(holder);
        }
        assert leasesBy == Recount(old(leasesBy), Current(old(Abs()), key), holder);
      } else {
        HeldLease(holder);
      }
      leases := leases[key := Lease(holder, now + ttl)];
      var announce := members;
      if holder == previousHolder && (now + ttl) / SECOND == previousExpirySec {
        announce := {holder};
      }
      Send(key, holder, now + ttl, Granted, now, announce);
      if holder != previousHolder {
        stamp := stamp + world;
      }
    }

    method FreeLease(key: string, reason: Reason, now: int)
      modifies this`leases, this`leasesBy, this`stamp, this`lines
      ensures Abs() == FreeKey(old(Abs()), key, reason, now)
    {
      if key !in leases {
        return;
      }
      var l := leases[key];
      leases := leases - {key};
      ReleasedLease(l.holder);
      Send(key, "", 0, reason, now, members);
    }

    method HandleLease(from: string, key: string, req: Request, now: int, world: nat)
      requires Legal(Abs(), Ask(from, key, req, now, world)) && Inv(Abs())
      modifies this`leases, this`leasesBy, this`stamp, this`lines
      ensures Abs() == Step(old(Abs()), Ask(from, key, req, now, world)) && Inv(Abs())
    {
      hide Inv, Grant, Say, FreeKey;
      StepKeeps(Abs(), Ask(from, key, req, now, world));
      match req {
        case Claim(ttlMs) =>
          if key in leases && leases[key].holder != from {
            Send(key, leases[key].holder, leases[key].expiresAt, Denied, now, {from});
          } else if key !in leases && (|leases| >= MAX_LEASES || Count(leasesBy, from) >= MAX_PER_MEMBER) {
            Send(key, "", 0, TooMany, now, {from});
          } else {
            GrantLease(key, from, ClampTTL(ttlMs), now, world);
          }
        case Renew(ttlMs) =>
          if key in leases && leases[key].holder == from {
            GrantLease(key, from, ClampTTL(ttlMs), now, 0);
          } else if key in leases {
            Send(key, leases[key].holder, leases[key].expiresAt, Denied, now, {from});
          } else {
            Send(key, "", 0, Denied, now, {from});
          }
        case Release =>
          if key in leases && leases[key].holder == from {
            FreeLease(key, Released, now);
          }
        case Unknown =>
      }
    }

    method ExpireLease(key: string, holder: string, now: int)
      modifies this`leases, this`leasesBy, this`stamp, this`lines
      ensures Abs() == Expiring(old(Abs()), key, holder, now)
    {
      if key !in leases || leases[key].holder != holder || now < leases[key].expiresAt {
        return;
      }
      FreeLease(key, Expired, now);
    }

    method ReleaseLeasesOf(who: string, now: int) returns (ghost order: seq<string>)
      modifies this`leases, this`leasesBy, this`stamp, this`lines
      ensures Abs() == FreeAll(old(Abs()), order, who, now)
      ensures forall k | k in leases :: leases[k].holder != who
    {
      hide FreeKey, FreeAll;
      ghost var before := Abs();
      NothingFreed(before, who, now);
      order := [];
      var todo := leases.Keys;
      while todo != {}
        invariant todo <= leases.Keys
        invariant Abs() == FreeAll(before, order, who, now)
        invariant forall k | k in leases && k !in todo :: leases[k].holder != who
        decreases todo
      {
        var key :| key in todo;
        todo := todo - {key};
        FreeOneMore(before, order, key, who, now);
        if leases[key].holder == who {
          FreesOnlyIt(Abs(), key, HolderLeft, now);
          FreeLease(key, HolderLeft, now);
        }
        order := order + [key];
      }
    }

    method LeaseSnapshot(to: string, now: int) returns (ghost order: seq<string>)
      modifies this`stamp, this`lines
      ensures forall k :: k in order <==> k in leases
      ensures Abs() == Snapshotting(old(Abs()), to, order, now)
    {
      ghost var before := Abs();
      order := [];
      var todo := leases.Keys;
      while todo != {}
        invariant todo <= leases.Keys && forall k :: k in leases <==> k in order || k in todo
        invariant Abs() == Snapshotting(before, to, order, now)
        decreases todo
      {
        var key :| key in todo;
        todo := todo - {key};
        Send(key, leases[key].holder, leases[key].expiresAt, Granted, now, {to});
        assert Front(order + [key]) == order;
        order := order + [key];
      }
    }
  }
}
