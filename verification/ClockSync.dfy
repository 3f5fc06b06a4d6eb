/**
  The client's clock (core/online.go): an estimate of the relay's clock from round trips, and a clock that never runs
  backwards. Instants are nanoseconds since the epoch.
 */
module ClockSync {
  import opened Lists

  const MS: int := 1_000_000
  const MAX_OFFSET_MS: int := 60 * 60 * 1000
  const MAX_TIMESTAMP_MS: int := 0x400_0000_0000
  const MAX_PINGS: nat := 33

  /** The milliseconds of a duration, which Go truncates toward zero. */
  function Millis(d: int): int {
    if d >= 0 then d / MS else -(-d / MS)
  }

  /** The milliseconds of an instant, which round down. */
  function UnixMilli(t: int): int {
    t / MS
  }

  // ----- The estimate -----

  /** bestRtt 0 means no sample yet; offset 0 also means never measured. */
  datatype Clock = Clock(offset: int, bestRtt: int)

  const UNMEASURED := Clock(0, 0)

  datatype Sample = Sample(sentAt: int, recvAt: int, serverMs: int)

  function Rtt(s: Sample): int {
    Millis(s.recvAt - s.sentAt)
  }

  function OffsetOf(s: Sample): int {
    s.serverMs - (UnixMilli(s.sentAt) + Rtt(s) / 2)
  }

  predicate Usable(s: Sample) {
    s.serverMs != 0 && Rtt(s) >= 0
  }

  function Observed(c: Clock, s: Sample): Clock {
    if !Usable(s) || (c.bestRtt != 0 && Rtt(s) >= c.bestRtt) then c else Clock(OffsetOf(s), Rtt(s))
  }

  function ObservedAll(samples: seq<Sample>): Clock {
    if samples == [] then UNMEASURED else Observed(ObservedAll(Front(samples)), Last(samples))
  }

  function Rtts(samples: seq<Sample>): seq<int> {
    if samples == [] then []
    else if Usable(Last(samples)) then Rtts(Front(samples)) + [Rtt(Last(samples))] else Rtts(Front(samples))
  }

  predicate IsMin(m: int, xs: seq<int>) {
    m in xs && forall x | x in xs :: m <= x
  }

  /**
    The kept round trip is the smallest of the usable samples if and only if none of them, or the last one, took less
    than a millisecond: a 0 ms round trip reads as no sample, and the next one replaces it however slow it is.
   */
  lemma {:induction false} KeptIsSmallest(samples: seq<Sample>)
    requires Rtts(samples) != []
    ensures IsMin(ObservedAll(samples).bestRtt, Rtts(samples)) <==> 0 !in Rtts(samples) || Last(Rtts(samples)) == 0
  {
    KeptIsMinSince(samples);
    var rtts := Rtts(samples);
    var best := ObservedAll(samples).bestRtt;
    RttsNonNegative(samples);
    if 0 in rtts {
      assert IsMin(best, rtts) ==> best == 0;
    }
  }

  lemma {:induction false} RttsNonNegative(samples: seq<Sample>)
    ensures forall x | x in Rtts(samples) :: x >= 0
  {
    if samples != [] {
      RttsNonNegative(Front(samples));
    }
  }

  /** What is kept is 0 exactly when nothing usable came since the last 0, and the smallest without a 0. */
  lemma {:induction false} KeptIsMinSince(samples: seq<Sample>)
    ensures var rtts, best := Rtts(samples), ObservedAll(samples).bestRtt;
            && best >= 0
            && (best == 0 <==> rtts == [] || Last(rtts) == 0)
            && (rtts != [] && 0 !in rtts ==> IsMin(best, rtts))
  {
    if samples != [] {
      KeptIsMinSince(Front(samples));
      var rtts := Rtts(Front(samples));
      assert forall x :: x in rtts + [Rtt(Last(samples))] <==> x in rtts || x == Rtt(Last(samples));
    }
  }

  /** A slow sample after a 0 ms one takes over. */
  lemma ZeroIsForgotten()
    ensures var fast, slow := Sample(5 * MS, 5 * MS, 7), Sample(9 * MS, 99 * MS, 50);
            ObservedAll([fast, slow]) == Clock(OffsetOf(slow), 90)
  {
    var fast, slow := Sample(5 * MS, 5 * MS, 7), Sample(9 * MS, 99 * MS, 50);
    assert Front([fast, slow]) == [fast] && Front([fast]) == [];
    assert ObservedAll([fast]) == Clock(OffsetOf(fast), 0);
  }

  // ----- Its error -----

  /** The relay's clock differs from ours by skew, and was read between our send and our receipt. */
  predicate Honest(s: Sample, skew: int) {
    s.sentAt <= s.recvAt && UnixMilli(s.sentAt + skew) <= s.serverMs <= UnixMilli(s.recvAt + skew)
  }

  /** Within half the round trip, plus what rounding three readings to milliseconds can add. */
  predicate Accurate(c: Clock, skew: int) {
    && -(c.bestRtt + 1) * MS < 2 * (c.offset * MS - skew) + 2 * MS
    && 2 * (c.offset * MS - skew) < (c.bestRtt + 1) * MS + 4 * MS
  }

  lemma RoundsDown(t: int)
    ensures UnixMilli(t) * MS <= t < UnixMilli(t) * MS + MS
  {
  }

  lemma SampleIsAccurate(s: Sample, skew: int)
    requires Honest(s, skew)
    ensures Rtt(s) >= 0 && Accurate(Clock(OffsetOf(s), Rtt(s)), skew)
  {
    RoundsDown(s.sentAt + skew);
    RoundsDown(s.recvAt + skew);
    RoundsDown(s.sentAt);
    RoundsDown(s.recvAt - s.sentAt);
    assert 2 * (Rtt(s) / 2) <= Rtt(s) <= 2 * (Rtt(s) / 2) + 1;
  }

  // ----- The client's clock -----

  /** synced says that the room agreed on clock sync; measured that a sample has been kept in this session. */
  datatype Core = Core(clock: Clock, pings: map<nat, int>, synced: bool, lastNow: int, measured: bool)

  const UNSTARTED := Core(UNMEASURED, map[], false, 0, false)

  function Adjust(c: Core): int {
    if c.synced then c.clock.offset else 0
  }

  /** The clock read at local time `local`: it holds still rather than step back, and follows a step forward at once. */
  function Now(c: Core, local: int): int {
    var ms := UnixMilli(local) + Adjust(c);
    if ms < c.lastNow then c.lastNow else ms
  }

  /** A reply is used once, and refused when it would put the room more than an hour away. */
  function Ponged(c: Core, nonce: nat, serverMs: int, recvAt: int): Core {
    if serverMs < 0 || serverMs > MAX_TIMESTAMP_MS || nonce !in c.pings then c
    else
      var s := Sample(c.pings[nonce], recvAt, serverMs);
      var next := Observed(c.clock, s);
      var d := c.(pings := c.pings - {nonce});
      if next.offset > MAX_OFFSET_MS || next.offset < -MAX_OFFSET_MS then d
      else d.(clock := next, measured := c.measured || (Usable(s) && next == Clock(OffsetOf(s), Rtt(s))))
  }

  predicate Oldest(pings: map<nat, int>, n: nat) {
    n in pings && forall k | k in pings :: n <= k
  }

  datatype Op =
    | Ping(nonce: nat, at: int, evicted: Option<nat>)
    | Pong(nonce: nat, serverMs: int, recvAt: int)
    | Read(local: int)
    | Agree(synced: bool)
    | Forget

  predicate Legal(c: Core, op: Op) {
    op.Ping? ==> if |c.pings| > 32 then op.evicted.Some? && Oldest(c.pings, op.evicted.value) else op.evicted.None?
  }

  function Step(c: Core, op: Op): Core {
    match op
    case Ping(nonce, at, evicted) =>
      c.(pings := (if evicted.Some? then c.pings - {evicted.value} else c.pings)[nonce := at])
    case Pong(nonce, serverMs, recvAt) => Ponged(c, nonce, serverMs, recvAt)
    case Read(local) => c.(lastNow := Now(c, local))
    case Agree(synced) => c.(synced := synced)
    case Forget => c.(clock := UNMEASURED, pings := map[], synced := false, measured := false)
  }

  predicate LegalRun(ops: seq<Op>)
    decreases |ops|, 0
  {
    ops == [] || (LegalRun(Front(ops)) && Legal(Run(Front(ops)), Last(ops)))
  }

  function Run(ops: seq<Op>): Core
    requires LegalRun(ops)
    decreases |ops|, 1
  {
    if ops == [] then UNSTARTED else Step(Run(Front(ops)), Last(ops))
  }

  /** What the reads of a run returned. */
  function Reads(ops: seq<Op>): seq<int>
    requires LegalRun(ops)
  {
    if ops == [] then []
    else if Last(ops).Read? then Reads(Front(ops)) + [Now(Run(Front(ops)), Last(ops).local)]
    else Reads(Front(ops))
  }

  /** Over any mix of samples, feature changes and resets, whatever the wall clock does, no read is below an earlier. */
  lemma {:induction false} NeverBackwards(ops: seq<Op>)
    requires LegalRun(ops)
    ensures forall i, j | 0 <= i <= j < |Reads(ops)| :: Reads(ops)[i] <= Reads(ops)[j]
    ensures forall i | 0 <= i < |Reads(ops)| :: Reads(ops)[i] <= Run(ops).lastNow
  {
    if ops != [] {
      NeverBackwards(Front(ops));
      hide Ponged, Adjust;
    }
  }

  /** The offset stays within an hour and the pending pings stay few. */
  lemma {:induction false} ClockIsBounded(ops: seq<Op>)
    requires LegalRun(ops)
    ensures -MAX_OFFSET_MS <= Run(ops).clock.offset <= MAX_OFFSET_MS
    ensures |Run(ops).pings| <= MAX_PINGS
  {
    if ops != [] {
      ClockIsBounded(Front(ops));
      hide Ponged;
      var c, op := Run(Front(ops)), Last(ops);
      if op.Ping? {
        PingsBounded(c.pings, op.nonce, op.at, op.evicted);
      }
      if op.Pong? {
        PongIsBounded(c, op.nonce, op.serverMs, op.recvAt);
      }
    }
  }

  lemma PongIsBounded(c: Core, nonce: nat, serverMs: int, recvAt: int)
    requires -MAX_OFFSET_MS <= c.clock.offset <= MAX_OFFSET_MS
    ensures -MAX_OFFSET_MS <= Ponged(c, nonce, serverMs, recvAt).clock.offset <= MAX_OFFSET_MS
    ensures |Ponged(c, nonce, serverMs, recvAt).pings| <= |c.pings|
  {
    if nonce in c.pings {
      PongTakesOne(c.pings, nonce);
    }
  }

  lemma PingsBounded(pings: map<nat, int>, nonce: nat, at: int, evicted: Option<nat>)
    requires |pings| <= MAX_PINGS
    requires if |pings| > 32 then evicted.Some? && Oldest(pings, evicted.value) else evicted.None?
    ensures |(if evicted.Some? then pings - {evicted.value} else pings)[nonce := at]| <= MAX_PINGS
  {
    var left := if evicted.Some? then pings - {evicted.value} else pings;
    assert left.Keys == pings.Keys - if evicted.Some? then {evicted.value} else {};
    assert |left.Keys| <= 32;
    assert left[nonce := at].Keys == left.Keys + {nonce};
  }

  lemma PongTakesOne(pings: map<nat, int>, nonce: nat)
    requires nonce in pings
    ensures |pings - {nonce}| < |pings|
  {
    assert (pings - {nonce}).Keys == pings.Keys - {nonce};
    assert |(pings - {nonce}).Keys| < |pings.Keys|;
  }

  /** Every reply the run uses is honest about the same skew. */
  ghost predicate AllHonest(ops: seq<Op>, skew: int)
    requires LegalRun(ops)
  {
    ops == [] ||
    (&& AllHonest(Front(ops), skew)
     && (var c, op := Run(Front(ops)), Last(ops);
         op.Pong? && op.nonce in c.pings ==> Honest(Sample(c.pings[op.nonce], op.recvAt, op.serverMs), skew)))
  }

  /** In every run with an honest relay, once a sample is kept the offset is the skew within half its round trip. */
  lemma {:induction false} OffsetIsAccurate(ops: seq<Op>, skew: int)
    requires LegalRun(ops) && AllHonest(ops, skew) && Run(ops).measured
    ensures Accurate(Run(ops).clock, skew)
  {
    var c, op := Run(Front(ops)), Last(ops);
    if op.Pong? && op.nonce in c.pings {
      SampleIsAccurate(Sample(c.pings[op.nonce], op.recvAt, op.serverMs), skew);
    }
    hide Accurate;
    if c.measured {
      OffsetIsAccurate(Front(ops), skew);
    }
  }

  // ----- Which replies the estimate is made of -----

  predicate InRange(serverMs: int) {
    0 <= serverMs <= MAX_TIMESTAMP_MS
  }

  /** When the ping with this nonce was last sent, if nothing since has answered, evicted or reset it. */
  function SentAt(ops: seq<Op>, nonce: nat): Option<int> {
    if ops == [] then None
    else
      match Last(ops)
      case Ping(n, at, evicted) =>
        if n == nonce then Some(at) else if evicted == Some(nonce) then None else SentAt(Front(ops), nonce)
      case Pong(n, serverMs, _) => if n == nonce && InRange(serverMs) then None else SentAt(Front(ops), nonce)
      case Forget => None
      case _ => SentAt(Front(ops), nonce)
  }

  /** The replies since the last reset that answer a ping still pending and do not claim more than an hour. */
  function Replies(ops: seq<Op>): seq<Sample> {
    if ops == [] then []
    else
      match Last(ops)
      case Forget => []
      case Pong(nonce, serverMs, recvAt) =>
        var sent := SentAt(Front(ops), nonce);
        if sent.None? || !InRange(serverMs) then Replies(Front(ops))
        else
          var s := Sample(sent.value, recvAt, serverMs);
          Replies(Front(ops)) + if -MAX_OFFSET_MS <= OffsetOf(s) <= MAX_OFFSET_MS then [s] else []
      case _ => Replies(Front(ops))
  }

  lemma {:induction false} PendingWereSent(ops: seq<Op>, nonce: nat)
    requires LegalRun(ops)
    ensures SentAt(ops, nonce) == if nonce in Run(ops).pings then Some(Run(ops).pings[nonce]) else None
  {
    if ops != [] {
      PendingWereSent(Front(ops), nonce);
      hide Observed, Now;
    }
  }

  /**
    In every run the estimate is that of the replies since the last reset, each used once, and it counts as measured
    exactly when one of them could be used; so the kept round trip is the smallest of those if and only if none, or the
    last, took less than a millisecond.
   */
  lemma EstimateIsOfReplies(ops: seq<Op>)
    requires LegalRun(ops)
    ensures Run(ops).clock == ObservedAll(Replies(ops))
    ensures Run(ops).measured <==> Rtts(Replies(ops)) != []
    ensures Run(ops).measured ==>
              (IsMin(Run(ops).clock.bestRtt, Rtts(Replies(ops))) <==>
                 0 !in Rtts(Replies(ops)) || Last(Rtts(Replies(ops))) == 0)
  {
    EstimateFolds(ops);
    if Rtts(Replies(ops)) != [] {
      KeptIsSmallest(Replies(ops));
    }
  }

  lemma {:induction false} EstimateFolds(ops: seq<Op>)
    requires LegalRun(ops)
    ensures Run(ops).clock == ObservedAll(Replies(ops))
    ensures Run(ops).measured <==> Rtts(Replies(ops)) != []
  {
    if ops != [] {
      EstimateFolds(Front(ops));
      ClockIsBounded(Front(ops));
      var c, op := Run(Front(ops)), Last(ops);
      if op.Pong? {
        PendingWereSent(Front(ops), op.nonce);
        PongFolds(c, Replies(Front(ops)), op.nonce, op.serverMs, op.recvAt);
      }
      hide Ponged, Observed, OffsetOf, Now, ObservedAll, Rtts;
      RttsOfNone();
    }
  }

  lemma RttsOfNone()
    ensures Rtts([]) == [] && ObservedAll([]) == UNMEASURED
  {
  }

  lemma PongFolds(c: Core, replies: seq<Sample>, nonce: nat, serverMs: int, recvAt: int)
    requires c.clock == ObservedAll(replies) && (c.measured <==> Rtts(replies) != [])
    requires -MAX_OFFSET_MS <= c.clock.offset <= MAX_OFFSET_MS
    ensures var d := Ponged(c, nonce, serverMs, recvAt);
            if nonce !in c.pings || !InRange(serverMs) then d == c
            else
              var s := Sample(c.pings[nonce], recvAt, serverMs);
              var all := replies + if -MAX_OFFSET_MS <= OffsetOf(s) <= MAX_OFFSET_MS then [s] else [];
              d.clock == ObservedAll(all) && (d.measured <==> Rtts(all) != [])
  {
    if nonce in c.pings && InRange(serverMs) {
      var s := Sample(c.pings[nonce], recvAt, serverMs);
      hide OffsetOf, Rtt;
      assert replies + [] == replies && Front(replies + [s]) == replies;
      KeptIsMinSince(replies);
    }
  }

  // ----- What a read returns -----

  /** The room has agreed on clock sync since the last reset. */
  predicate Synced(ops: seq<Op>) {
    if ops == [] then false
    else
      match Last(ops)
      case Agree(synced) => synced
      case Forget => false
      case _ => Synced(Front(ops))
  }

  /** What a clock that follows the local one and the estimate would show after ops. */
  function ShownAt(ops: seq<Op>, local: int): int {
    local / 1_000_000 + if Synced(ops) then ObservedAll(Replies(ops)).offset else 0
  }

  /** What it would have shown at each read. */
  function Shown(ops: seq<Op>): seq<int> {
    if ops == [] then []
    else if Last(ops).Read? then Shown(Front(ops)) + [ShownAt(Front(ops), Last(ops).local)]
    else Shown(Front(ops))
  }

  /** The highest of xs, or 0. */
  function Highest(xs: seq<int>): int {
    if xs == [] then 0 else if Last(xs) > Highest(Front(xs)) then Last(xs) else Highest(Front(xs))
  }

  lemma {:induction false} SyncedAsAgreed(ops: seq<Op>)
    requires LegalRun(ops)
    ensures Run(ops).synced <==> Synced(ops)
  {
    if ops != [] {
      SyncedAsAgreed(Front(ops));
      hide Observed, Now;
    }
  }

  /** Each read is the highest value shown up to it. */
  predicate Latched(got: seq<int>, shown: seq<int>) {
    if got == [] || shown == [] then got == [] && shown == []
    else Latched(Front(got), Front(shown)) && Last(got) == Highest(shown)
  }

  lemma LatchedOne(got: seq<int>, shown: seq<int>, x: int)
    requires Latched(got, shown)
    ensures Latched(got + [Highest(shown + [x])], shown + [x])
  {
    hide Highest;
    assert Front(shown + [x]) == shown && Front(got + [Highest(shown + [x])]) == got;
  }

  /**
    In every run a read returns the local clock plus the offset then in force, or the highest such value read before:
    it follows every step forward at once, and holds still for as long as it would have to go back.
   */
  lemma {:induction false} ReadsFollowTheClock(ops: seq<Op>)
    requires LegalRun(ops)
    ensures Latched(Reads(ops), Shown(ops)) && Run(ops).lastNow == Highest(Shown(ops))
  {
    hide Highest, Step, Latched, ShownAt;
    if ops == [] {
      NothingShown();
    } else {
      var before, op := Front(ops), Last(ops);
      ReadsFollowTheClock(before);
      LatchMoves(Run(before), op);
      if op.Read? {
        ReadIsLatched(before, op.local);
        LatchedOne(Reads(before), Shown(before), ShownAt(before, op.local));
      }
    }
  }

  lemma NothingShown()
    ensures Highest([]) == 0 && Latched([], [])
  {
  }

  lemma ReadIsLatched(ops: seq<Op>, local: int)
    requires LegalRun(ops) && Run(ops).lastNow == Highest(Shown(ops))
    ensures Now(Run(ops), local) == Highest(Shown(ops) + [ShownAt(ops, local)])
  {
    SyncedAsAgreed(ops);
    EstimateFolds(ops);
    HighestOne(Shown(ops), ShownAt(ops, local));
    hide Run, LegalRun, Highest, Shown, ObservedAll, Replies, Synced;
  }

  lemma HighestOne(xs: seq<int>, x: int)
    ensures Highest(xs + [x]) == if x > Highest(xs) then x else Highest(xs)
  {
    assert Front(xs + [x]) == xs;
  }

  /** Only a read moves the latch. */
  lemma LatchMoves(c: Core, op: Op)
    ensures Step(c, op).lastNow == if op.Read? then Now(c, op.local) else c.lastNow
  {
    hide Observed;
  }

  // ----- The clock as the source keeps it -----

  class CoreClock {
    var offsetMs: int
    var bestRttMs: int
    var pendingPings: map<nat, int>
    var synced: bool
    var lastNowMs: int
    ghost var measured: bool

    ghost function Abs(): Core
      reads this
    {
      Core(Clock(offsetMs, bestRttMs), pendingPings, synced, lastNowMs, measured)
    }

    constructor ()
      ensures Abs() == UNSTARTED
    {
      offsetMs, bestRttMs, pendingPings, synced, lastNowMs, measured := 0, 0, map[], false, 0, false;
    }

    method Observe(sentAt: int, recvAt: int, serverMs: int)
      modifies this`offsetMs, this`bestRttMs
      ensures Clock(offsetMs, bestRttMs) == Observed(old(Clock(offsetMs, bestRttMs)), Sample(sentAt, recvAt, serverMs))
    {
      if serverMs == 0 {
        return;
      }
      var rtt := Millis(recvAt - sentAt);
      if rtt < 0 {
        return;
      }
      if bestRttMs != 0 && rtt >= bestRttMs {
        return;
      }
      var midpoint := UnixMilli(sentAt) + rtt / 2;
      bestRttMs := rtt;
      offsetMs := serverMs - midpoint;
    }

    method ObservePong(nonce: nat, serverMs: int, recvAt: int)
      modifies this
      ensures Abs() == Ponged(old(Abs()), nonce, serverMs, recvAt)
    {
      if serverMs < 0 || serverMs > MAX_TIMESTAMP_MS {
        return;
      }
      if nonce !in pendingPings {
        return;
      }
      var sentAt := pendingPings[nonce];
      pendingPings := pendingPings - {nonce};
      var beforeOffset, beforeRtt := offsetMs, bestRttMs;
      Observe(sentAt, recvAt, serverMs);
      if offsetMs > MAX_OFFSET_MS || offsetMs < -MAX_OFFSET_MS {
        offsetMs, bestRttMs := beforeOffset, beforeRtt;
        return;
      }
      ghost var s := Sample(sentAt, recvAt, serverMs);
      measured := measured || (Usable(s) && Clock(offsetMs, bestRttMs) == Clock(OffsetOf(s), Rtt(s)));
    }

    method NowMs(local: int) returns (ms: int)
      modifies this`lastNowMs
      ensures ms == Now(old(Abs()), local) && Abs() == Step(old(Abs()), Read(local))
    {
      ms := UnixMilli(local) + if synced then offsetMs else 0;
      if ms < lastNowMs {
        ms := lastNowMs;
      }
      lastNowMs := ms;
    }

    method RecordPingSent(nonce: nat, at: int) returns (ghost evicted: Option<nat>)
      modifies this`pendingPings
      ensures Legal(old(Abs()), Ping(nonce, at, evicted)) && Abs() == Step(old(Abs()), Ping(nonce, at, evicted))
    {
      evicted := None;
      if |pendingPings| > 32 {
        var oldest: Option<nat> := None;
        var todo := pendingPings.Keys;
        while todo != {}
          invariant todo <= pendingPings.Keys
          invariant oldest.Some? ==> oldest.value in pendingPings
          invariant forall k | k in pendingPings && k !in todo :: oldest.Some? && oldest.value <= k
          decreases todo
        {
          var n :| n in todo;
          todo := todo - {n};
          if oldest.None? || n < oldest.value {
            oldest := Some(n);
          }
        }
        evicted := oldest;
        if oldest.Some? {
          pendingPings := pendingPings - {oldest.value};
        }
      }
      pendingPings := pendingPings[nonce := at];
    }

    /** A relay session ends. lastNowMs is kept, or the clock could step back by the dropped offset. */
    method ForgetSession()
      modifies this`offsetMs, this`bestRttMs, this`pendingPings, this`synced, this`measured
      ensures Abs() == Step(old(Abs()), Forget)
    {
      offsetMs, bestRttMs, pendingPings, synced, measured := 0, 0, map[], false, false;
    }
  }
}
