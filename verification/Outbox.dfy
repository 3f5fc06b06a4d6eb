/**
  The two-class bounded queues: the relay's outbox (relay/outbox.go), the client's twin of it (core/relaywriter.go) and
  the policy of the pre-Welcome hold (forwardLine in relay/relay.go). A lossy line may be dropped, the rest may not.
 */
module Outbox {
  import opened Lists
  import opened Subsequences
  import opened Wire

  const MAX_LINES: nat := 256
  const MAX_HELD: nat := 64

  /** A queued line; stamp is its place in the room's sequence, 0 for an unstamped one. */
  datatype Line = Line(stamp: nat, text: Text, unreliable: bool)

  // ----- The policy -----

  datatype Verdict = Queued(queue: seq<Line>) | Yielded | Refused

  /** The oldest lossy line at or after i, or |q|. */
  function OldestLossy(q: seq<Line>, i: nat): (k: nat)
    requires i <= |q|
    ensures i <= k <= |q|
    ensures k < |q| ==> q[k].unreliable
    ensures forall j | i <= j < k :: !q[j].unreliable
    decreases |q| - i
  {
    if i == |q| || q[i].unreliable then i else OldestLossy(q, i + 1)
  }

  /** The outbox's rule: at a full queue a reliable line is refused, which ends the connection; a lossy one displaces
      the oldest lossy line, or yields where every queued line is reliable. */
  function AdmitAt(q: seq<Line>, m: Line, cap: nat): Verdict {
    if |q| < cap then Queued(q + [m])
    else if !m.unreliable then Refused
    else if OldestLossy(q, 0) < |q| then Queued(Without(q, OldestLossy(q, 0)) + [m])
    else Yielded
  }

  /** The hold's rule: at a full queue any line displaces the oldest lossy one; where there is none, it is dropped. */
  function HoldAt(q: seq<Line>, m: Line, cap: nat): Verdict {
    if |q| < cap then Queued(q + [m])
    else if OldestLossy(q, 0) < |q| then Queued(Without(q, OldestLossy(q, 0)) + [m])
    else if m.unreliable then Yielded
    else Refused
  }

  function Admit(q: seq<Line>, m: Line): Verdict {
    AdmitAt(q, m, MAX_LINES)
  }

  function Hold(q: seq<Line>, m: Line): Verdict {
    HoldAt(q, m, MAX_HELD)
  }

  // ----- What both policies keep -----

  function Reliables(q: seq<Line>): seq<Line> {
    if q == [] then [] else Reliables(Front(q)) + if Last(q).unreliable then [] else [Last(q)]
  }

  lemma {:induction false} ReliablesSum(a: seq<Line>, b: seq<Line>)
    ensures Reliables(a + b) == Reliables(a) + Reliables(b)
  {
    if b == [] {
      assert a + b == a && Reliables(a) + [] == Reliables(a);
    } else {
      FrontOfAppend(a, b);
      ReliablesSum(a, Front(b));
      AppendAssociates(Reliables(a), Reliables(Front(b)), if Last(b).unreliable then [] else [Last(b)]);
    }
  }

  lemma ReliablesOne(m: Line)
    ensures Reliables([m]) == if m.unreliable then [] else [m]
  {
    assert Front([m]) == [] && [] + [m] == [m];
  }

  lemma ReliablesWithout(q: seq<Line>, k: nat)
    requires k < |q| && q[k].unreliable
    ensures Reliables(Without(q, k)) == Reliables(q)
  {
    hide Reliables;
    ReliablesSum(q[..k], q[k + 1..]);
    ReliablesBetween(q[..k], q[k], q[k + 1..]);
    SplitAt(q, k);
  }

  lemma ReliablesBetween(a: seq<Line>, x: Line, b: seq<Line>)
    requires x.unreliable
    ensures Reliables(a + [x] + b) == Reliables(a) + Reliables(b)
  {
    ReliablesSum(a + [x], b);
    ReliablesSum(a, [x]);
    ReliablesOne(x);
    assert Reliables(a) + [] == Reliables(a);
  }

  /** What both policies keep: order, every reliable line, and the bound. */
  ghost predicate Kept(q: seq<Line>, m: Line, v: Verdict, cap: nat) {
    match v
    case Queued(r) =>
      && |r| <= cap && Sub(r, q + [m]) && Reliables(r) == Reliables(q + [m])
      && (|q| < cap ==> r == q + [m])
    case Yielded => |q| >= cap && m.unreliable && Reliables(q) == q
    case Refused => |q| >= cap && !m.unreliable
  }

  lemma {:induction false} AllReliable(q: seq<Line>, n: nat)
    requires n <= |q| && forall i | 0 <= i < |q| :: !q[i].unreliable
    ensures Reliables(q[..n]) == q[..n]
  {
    if n == 0 {
      assert q[..n] == [];
    } else {
      AllReliable(q, n - 1);
      hide Reliables;
      assert q[..n] == q[..n - 1] + [q[n - 1]];
      ReliablesSum(q[..n - 1], [q[n - 1]]);
      ReliablesOne(q[n - 1]);
    }
  }

  lemma DisplacingKeeps(q: seq<Line>, m: Line, cap: nat)
    requires |q| == cap && OldestLossy(q, 0) < |q|
    ensures Kept(q, m, Queued(Without(q, OldestLossy(q, 0)) + [m]), cap)
  {
    var k := OldestLossy(q, 0);
    SubWithout(q, k);
    SubTake(Without(q, k), q, m);
    ReliablesWithout(q, k);
    ReliablesSum(Without(q, k), [m]);
    ReliablesSum(q, [m]);
  }

  lemma PoliciesKeep(q: seq<Line>, m: Line)
    ensures |q| <= MAX_LINES ==> Kept(q, m, Admit(q, m), MAX_LINES)
    ensures |q| <= MAX_HELD ==> Kept(q, m, Hold(q, m), MAX_HELD)
    ensures |q| <= MAX_HELD && Hold(q, m).Refused? ==> Reliables(q) == q
  {
    SubSelf(q + [m]);
    if OldestLossy(q, 0) < |q| {
      if |q| == MAX_LINES {
        DisplacingKeeps(q, m, MAX_LINES);
      } else if |q| == MAX_HELD {
        DisplacingKeeps(q, m, MAX_HELD);
      }
    } else {
      AllReliable(q, |q|);
      assert q[..|q|] == q;
    }
  }

  // ----- Where the policies part -----

  /** What a queue nobody drains holds after lines, by a rule, unless it has refused one. */
  function Filled(v: Verdict, q: seq<Line>): Option<seq<Line>> {
    match v
    case Queued(r) => Some(r)
    case Yielded => Some(q)
    case Refused => None
  }

  function AdmittedAll(lines: seq<Line>, cap: nat): Option<seq<Line>> {
    if lines == [] then Some([])
    else
      var q := AdmittedAll(Front(lines), cap);
      if q.None? then None else Filled(AdmitAt(q.value, Last(lines), cap), q.value)
  }

  function HeldAll(lines: seq<Line>, cap: nat): Option<seq<Line>> {
    if lines == [] then Some([])
    else
      var q := HeldAll(Front(lines), cap);
      if q.None? then None else Filled(HoldAt(q.value, Last(lines), cap), q.value)
  }

  /** A reliable line comes after the first cap lines. */
  predicate LateReliable(lines: seq<Line>, cap: nat) {
    exists n | cap <= n < |lines| :: !lines[n].unreliable
  }

  lemma LateAfter(lines: seq<Line>, cap: nat)
    requires lines != []
    ensures LateReliable(lines, cap) <==>
            LateReliable(Front(lines), cap) || (|lines| > cap && !Last(lines).unreliable)
  {
    if LateReliable(Front(lines), cap) {
      var n :| cap <= n < |Front(lines)| && !Front(lines)[n].unreliable;
      assert !lines[n].unreliable;
    }
    if LateReliable(lines, cap) {
      var n :| cap <= n < |lines| && !lines[n].unreliable;
      assert n < |lines| - 1 ==> !Front(lines)[n].unreliable;
    }
    if |lines| > cap && !Last(lines).unreliable {
      assert !lines[|lines| - 1].unreliable;
    }
  }

  /** Undrained, the outbox's rule refuses a line exactly when a reliable one comes after the first cap. */
  lemma {:induction false} AdmitRefusesLate(lines: seq<Line>, cap: nat)
    ensures AdmittedAll(lines, cap).None? <==> LateReliable(lines, cap)
    ensures AdmittedAll(lines, cap).Some? ==>
              |AdmittedAll(lines, cap).value| == if |lines| < cap then |lines| else cap
  {
    if lines != [] {
      AdmitRefusesLate(Front(lines), cap);
      LateAfter(lines, cap);
    }
  }

  /** Undrained, the hold's rule refuses one exactly when more than cap of them are reliable. */
  lemma {:induction false} HoldRefusesMany(lines: seq<Line>, cap: nat)
    ensures HeldAll(lines, cap).None? <==> |Reliables(lines)| > cap
    ensures HeldAll(lines, cap).Some? ==>
              && |HeldAll(lines, cap).value| == (if |lines| < cap then |lines| else cap)
              && Reliables(HeldAll(lines, cap).value) == Reliables(lines)
  {
    if lines != [] {
      HoldRefusesMany(Front(lines), cap);
      var m, before := Last(lines), HeldAll(Front(lines), cap);
      if before.Some? {
        HoldingKeeps(before.value, m, cap);
        if HeldAll(lines, cap).Some? {
          ReliablesAreFewer(HeldAll(lines, cap).value);
        }
        hide HoldAt;
      }
    }
  }

  lemma {:induction false} ReliablesAreFewer(q: seq<Line>)
    ensures |Reliables(q)| <= |q|
  {
    if q != [] {
      ReliablesAreFewer(Front(q));
    }
  }

  lemma HoldingKeeps(q: seq<Line>, m: Line, cap: nat)
    requires |q| <= cap
    ensures HoldAt(q, m, cap).Queued? ==>
              Reliables(HoldAt(q, m, cap).queue) == Reliables(q) + if m.unreliable then [] else [m]
    ensures HoldAt(q, m, cap).Queued? ==> |HoldAt(q, m, cap).queue| == if |q| < cap then |q| + 1 else cap
    ensures HoldAt(q, m, cap).Yielded? ==> m.unreliable && |q| == cap
    ensures HoldAt(q, m, cap).Refused? ==> !m.unreliable && |q| == cap == |Reliables(q)|
  {
    var k := OldestLossy(q, 0);
    ReliablesOne(m);
    ReliablesSum(q, [m]);
    if k < |q| {
      ReliablesWithout(q, k);
      ReliablesSum(Without(q, k), [m]);
    } else {
      AllReliable(q, |q|);
      assert q[..|q|] == q;
    }
  }

  /** Until the outbox's rule refuses a line, the two agree. */
  lemma {:induction false} AgreeUntilRefused(lines: seq<Line>, cap: nat)
    requires AdmittedAll(lines, cap).Some?
    ensures HeldAll(lines, cap) == AdmittedAll(lines, cap)
  {
    if lines != [] {
      AgreeUntilRefused(Front(lines), cap);
    }
  }

  /**
    The hold is documented as following the outbox's policy. On one stream of lines and at one bound they part if and
    only if a reliable line comes after the first cap while no more than cap of all lines are reliable: there the
    outbox would end the connection, and the hold displaces a lossy line and goes on.
   */
  lemma PoliciesPart(lines: seq<Line>, cap: nat)
    ensures HeldAll(lines, cap) != AdmittedAll(lines, cap) <==> LateReliable(lines, cap) && |Reliables(lines)| <= cap
  {
    AdmitRefusesLate(lines, cap);
    HoldRefusesMany(lines, cap);
    if AdmittedAll(lines, cap).Some? {
      AgreeUntilRefused(lines, cap);
    }
  }

  /** One lossy line and then a reliable one, at a bound of one. */
  lemma PoliciesCanPart(lossy: Line, reliable: Line)
    requires lossy.unreliable && !reliable.unreliable
    ensures AdmittedAll([lossy, reliable], 1) == None && HeldAll([lossy, reliable], 1) == Some([reliable])
  {
    assert Front([lossy, reliable]) == [lossy] && Front([lossy]) == [];
    assert AdmittedAll([lossy], 1) == Some([lossy]) == HeldAll([lossy], 1) by {
      assert [] + [lossy] == [lossy];
    }
    assert OldestLossy([lossy], 0) == 0 && Without([lossy], 0) + [reliable] == [reliable];
  }

  // ----- A queue and its writer -----

  /** Parked is waiting for the wake token; Sending is the line being written. */
  datatype Writer = Ready | Parked | Sending(line: Line) | Done

  datatype SendResult = Ok | NotWritten | Failed

  /**
    One connection's queue. relay tells the relay's outbox from the client's writer: the first posts its wake token
    inside the lock, skips lines refused before writing, and ends at a failed send; the second posts after unlocking,
    reports failures and goes on, and calls onStuck once. owed counts producers that have yet to post. accepted, taken
    and wire are every line queued, every line the writer took, and every line written; broken says a send failed.
   */
  datatype Box = Box(
    relay: bool,
    queue: seq<Line>,
    closed: bool,
    token: bool,
    owed: nat,
    writer: Writer,
    stuckCalls: nat,
    stuck: bool,
    accepted: seq<Line>,
    taken: seq<Line>,
    wire: seq<Line>,
    broken: bool)

  function NewBox(relay: bool): Box {
    Box(relay, [], false, false, 0, Ready, 0, false, [], [], [], false)
  }

  /** Accepting a line; the result says whether the connection may go on. */
  function Enqueued(b: Box, m: Line): Box {
    if b.closed then b
    else
      match Admit(b.queue, m)
      case Queued(q) =>
        var c := b.(queue := q, accepted := b.accepted + [m]);
        if b.relay then c.(token := true) else c.(owed := b.owed + 1)
      case Yielded => b
      case Refused =>
        if b.relay || b.stuck then b else b.(stuck := true, stuckCalls := b.stuckCalls + 1)
  }

  function EnqueueOk(b: Box, m: Line): bool {
    b.closed || !Admit(b.queue, m).Refused?
  }

  function ClosedBox(b: Box): Box {
    if b.closed then b else b.(closed := true, owed := b.owed + 1)
  }

  function Posted(b: Box): Box {
    if b.owed > 0 then b.(token := true, owed := b.owed - 1) else b
  }

  /** The writer's turn under the lock: take a line, park, or end. */
  function Turned(b: Box): Box {
    if !b.writer.Ready? then b
    else if b.queue == [] then if b.closed then b.(writer := Done) else b.(writer := Parked)
    else b.(writer := Sending(b.queue[0]), queue := b.queue[1..], taken := b.taken + [b.queue[0]])
  }

  function Woken(b: Box): Box {
    if b.writer.Parked? && b.token then b.(writer := Ready, token := false) else b
  }

  function Wrote(b: Box, r: SendResult): Box {
    if !b.writer.Sending? then b
    else if r.Ok? then b.(writer := Ready, wire := b.wire + [b.writer.line])
    else if !b.relay || r.NotWritten? then b.(writer := Ready)
    else b.(writer := Done, queue := [], closed := true, broken := true)
  }

  datatype Op = Enqueue(m: Line) | Close | Post | Turn | Wake | Sent(r: SendResult)

  function Step(b: Box, op: Op): Box {
    match op
    case Enqueue(m) => Enqueued(b, m)
    case Close => ClosedBox(b)
    case Post => Posted(b)
    case Turn => Turned(b)
    case Wake => Woken(b)
    case Sent(r) => Wrote(b, r)
  }

  function Run(relay: bool, ops: seq<Op>): Box {
    if ops == [] then NewBox(relay) else Step(Run(relay, Front(ops)), Last(ops))
  }

  /** Taken then queued is what was accepted, in order, with every reliable line; wire is part of what was taken. */
  ghost predicate InOrder(accepted: seq<Line>, taken: seq<Line>, queue: seq<Line>, broken: bool) {
    && Sub(taken + queue, accepted)
    && (!broken ==> Reliables(taken + queue) == Reliables(accepted))
  }

  ghost predicate NoLostWake(b: Box) {
    b.writer.Parked? && (b.queue != [] || b.closed) ==> b.token || b.owed > 0
  }

  ghost predicate WireOk(writer: Writer, taken: seq<Line>, wire: seq<Line>) {
    if writer.Sending? then taken != [] && Last(taken) == writer.line && Sub(wire, Front(taken)) else Sub(wire, taken)
  }

  ghost predicate Inv(b: Box) {
    && |b.queue| <= MAX_LINES
    && InOrder(b.accepted, b.taken, b.queue, b.broken)
    && WireOk(b.writer, b.taken, b.wire)
    && NoLostWake(b)
    && (b.writer.Done? ==> b.closed && b.queue == [])
    && b.stuckCalls == (if b.stuck then 1 else 0)
    && (b.broken ==> b.closed)
  }

  lemma AcceptingKeepsOrder(accepted: seq<Line>, taken: seq<Line>, queue: seq<Line>, m: Line, broken: bool)
    requires InOrder(accepted, taken, queue, broken) && |queue| <= MAX_LINES && Admit(queue, m).Queued?
    ensures InOrder(accepted + [m], taken, Admit(queue, m).queue, broken)
  {
    hide Admit;
    var q := Admit(queue, m).queue;
    PoliciesKeep(queue, m);
    SubUnder(taken, q, queue + [m]);
    AppendAssociates(taken, queue, [m]);
    SubTake(taken + queue, accepted, m);
    SubTrans(taken + q, taken + (queue + [m]), accepted + [m]);
    ReliablesSum(taken, q);
    ReliablesSum(taken, queue + [m]);
    ReliablesSum(taken + queue, [m]);
    ReliablesSum(accepted, [m]);
  }

  lemma TakingKeepsOrder(taken: seq<Line>, queue: seq<Line>)
    requires queue != []
    ensures taken + [queue[0]] + queue[1..] == taken + queue
  {
  }

  lemma DroppingKeepsOrder(accepted: seq<Line>, taken: seq<Line>, queue: seq<Line>)
    requires Sub(taken + queue, accepted)
    ensures Sub(taken + [], accepted)
  {
    SubNone(queue);
    SubUnder(taken, [], queue);
    SubTrans(taken + [], taken + queue, accepted);
  }

  lemma EnqueueKeeps(b: Box, m: Line)
    requires Inv(b)
    ensures Inv(Enqueued(b, m))
  {
    hide InOrder, Admit, WireOk;
    if !b.closed && Admit(b.queue, m).Queued? {
      AcceptingKeepsOrder(b.accepted, b.taken, b.queue, m, b.broken);
      PoliciesKeep(b.queue, m);
    }
  }

  lemma TurnKeeps(b: Box)
    requires Inv(b)
    ensures Inv(Turned(b))
  {
    hide InOrder, Sub;
    if b.writer.Ready? && b.queue != [] {
      TakenInOrder(b);
    }
  }

  lemma SentKeeps(b: Box, r: SendResult)
    requires Inv(b)
    ensures Inv(Wrote(b, r))
  {
    hide InOrder, Sub;
    if b.writer.Sending? {
      WroteInOrder(b, r);
    }
  }

  lemma SignalKeeps(b: Box)
    requires Inv(b)
    ensures Inv(ClosedBox(b)) && Inv(Posted(b)) && Inv(Woken(b))
  {
    hide InOrder, Sub;
  }

  lemma StepKeeps(b: Box, op: Op)
    requires Inv(b)
    ensures Inv(Step(b, op))
  {
    hide Inv, Enqueued, ClosedBox, Posted, Turned, Woken, Wrote;
    match op {
      case Enqueue(m) => EnqueueKeeps(b, m);
      case Turn => TurnKeeps(b);
      case Sent(r) => SentKeeps(b, r);
      case _ => SignalKeeps(b);
    }
  }

  lemma TakenInOrder(b: Box)
    requires Inv(b) && b.writer.Ready? && b.queue != []
    ensures InOrder(b.accepted, b.taken + [b.queue[0]], b.queue[1..], b.broken)
    ensures Front(b.taken + [b.queue[0]]) == b.taken
  {
    TakingKeepsOrder(b.taken, b.queue);
  }

  lemma WroteInOrder(b: Box, r: SendResult)
    requires Inv(b) && b.writer.Sending?
    ensures InOrder(b.accepted, b.taken, [], true)
    ensures Sub(b.wire, b.taken) && Sub(b.wire + [b.writer.line], b.taken)
  {
    assert b.taken == Front(b.taken) + [b.writer.line];
    SubTake(b.wire, Front(b.taken), b.writer.line);
    SubSkip(b.wire, Front(b.taken), b.writer.line);
    DroppingKeepsOrder(b.accepted, b.taken, b.queue);
  }

  lemma StepIsLocal(b: Box, op: Op)
    ensures Step(b, op).relay == b.relay
  {
  }

  lemma {:induction false} RunKeeps(relay: bool, ops: seq<Op>)
    ensures Inv(Run(relay, ops)) && Run(relay, ops).relay == relay
  {
    if ops != [] {
      RunKeeps(relay, Front(ops));
      hide Inv, Step;
      StepIsLocal(Run(relay, Front(ops)), Last(ops));
      StepKeeps(Run(relay, Front(ops)), Last(ops));
    }
  }

  /** No send has been refused or has failed in the run. */
  predicate AllSendsOk(ops: seq<Op>) {
    forall i | 0 <= i < |ops| :: ops[i].Sent? ==> ops[i].r.Ok?
  }

  ghost predicate AllWritten(b: Box) {
    !b.broken && b.taken == b.wire + if b.writer.Sending? then [b.writer.line] else []
  }

  lemma StepWrites(b: Box, op: Op)
    requires AllWritten(b) && (op.Sent? ==> op.r.Ok?)
    ensures AllWritten(Step(b, op))
  {
    hide Admit;
    assert b.wire + [] == b.wire;
    assert Wrote(b, Ok).wire + [] == Wrote(b, Ok).wire;
  }

  lemma {:induction false} WireIsTaken(relay: bool, ops: seq<Op>)
    requires AllSendsOk(ops)
    ensures AllWritten(Run(relay, ops))
  {
    if ops != [] {
      assert Last(ops) == ops[|ops| - 1];
      WireIsTaken(relay, Front(ops));
      hide AllWritten, Step;
      StepWrites(Run(relay, Front(ops)), Last(ops));
    }
  }

  /**
    Queue refinement, in every run of producers and writer: the bound holds; what was written is in order a part of
    what was accepted; until a send fails, written, being written and queued hold exactly the accepted reliable lines,
    each once and in order; and a parked writer with work to do always has its wake token posted or about to be.
   */
  lemma QueueRefines(relay: bool, ops: seq<Op>)
    ensures var b := Run(relay, ops);
            && |b.queue| <= MAX_LINES
            && Sub(b.wire, b.accepted)
            && (AllSendsOk(ops) ==>
                  Reliables(b.wire + (if b.writer.Sending? then [b.writer.line] else []) + b.queue) ==
                  Reliables(b.accepted))
            && (b.writer.Parked? && (b.queue != [] || b.closed) ==> b.token || b.owed > 0)
            && (b.writer.Done? ==> b.closed && b.queue == [])
            && b.stuckCalls <= 1
  {
    var b := Run(relay, ops);
    RunKeeps(relay, ops);
    hide Run;
    if AllSendsOk(ops) {
      WireIsTaken(relay, ops);
    }
    DroppingKeepsOrder(b.accepted, b.taken, b.queue);
    assert b.taken + [] == b.taken;
    if b.writer.Sending? {
      assert b.taken == Front(b.taken) + [b.writer.line];
      SubSkip(b.wire, Front(b.taken), b.writer.line);
    }
    SubTrans(b.wire, b.taken, b.accepted);
  }

  /** A lossy line goes only when the queue is full, and then it is the oldest one queued. */
  lemma LossOnlyWhenFull(q: seq<Line>, m: Line)
    requires |q| <= MAX_LINES
    ensures Admit(q, m) == Queued(q + [m]) <==> |q| < MAX_LINES
    ensures |q| == MAX_LINES && Admit(q, m).Queued? ==>
              exists k | 0 <= k < |q| ::
                && q[k].unreliable && (forall j | 0 <= j < k :: !q[j].unreliable)
                && Admit(q, m).queue == q[..k] + q[k + 1..] + [m]
  {
    if |q| == MAX_LINES && Admit(q, m).Queued? {
      var k := OldestLossy(q, 0);
      assert |Admit(q, m).queue| == |q|;
      assert q[k].unreliable && Admit(q, m).queue == q[..k] + q[k + 1..] + [m];
    }
  }

  // ----- Lines are taken and written -----

  /** The oldest lossy line of q stands at k. */
  predicate OldestAt(q: seq<Line>, k: nat) {
    k < |q| && q[k].unreliable && forall j | 0 <= j < k :: !q[j].unreliable
  }

  /**
    An open queue with fewer than 256 lines takes a line at its end and owes the writer a wake-up. A full one takes a
    lossy line in place of its oldest lossy one, lets it go when it has none, and refuses a reliable line, which says
    that the connection is done for. A closed one takes nothing and complains of nothing.
   */
  lemma EnqueueIsHeeded(b: Box, m: Line)
    requires |b.queue| <= 256
    ensures var c := Enqueued(b, m);
            && c.taken == b.taken && c.wire == b.wire && c.writer == b.writer && c.closed == b.closed
            && (EnqueueOk(b, m) <==> b.closed || |b.queue| < 256 || m.unreliable)
            && (b.closed ==> c == b)
            && (!b.closed && |b.queue| < 256 ==> c.queue == b.queue + [m])
            && (!b.closed && |b.queue| == 256 && !m.unreliable ==>
                  && c.queue == b.queue && c.accepted == b.accepted
                  && c.stuckCalls == b.stuckCalls + (if b.relay || b.stuck then 0 else 1)
                  && c.stuck == (b.stuck || !b.relay))
            && (!b.closed && |b.queue| == 256 && m.unreliable ==>
                  && (forall k: nat | OldestAt(b.queue, k) :: c.queue == b.queue[..k] + b.queue[k + 1..] + [m])
                  && ((forall k: nat :: !OldestAt(b.queue, k)) ==> c == b))
            && (!b.closed && (|b.queue| < 256 || (m.unreliable && exists k: nat :: OldestAt(b.queue, k))) ==>
                  c.accepted == b.accepted + [m] && if b.relay then c.token else c.owed == b.owed + 1)
  {
    var k := OldestLossy(b.queue, 0);
    if k < |b.queue| {
      assert OldestAt(b.queue, k);
    }
    forall j: nat | OldestAt(b.queue, j)
      ensures j == k
    {
    }
  }

  /**
    What a send leads to: a line that went out is on the wire. The relay's writer skips a line refused before writing,
    and ends at a failed send, dropping the rest; the client's goes on either way.
   */
  lemma SendIsHeeded(b: Box, r: SendResult)
    requires b.writer.Sending?
    ensures var c := Wrote(b, r);
            && c.accepted == b.accepted && c.taken == b.taken && c.stuckCalls == b.stuckCalls
            && (r.Ok? ==> c == b.(writer := Ready, wire := b.wire + [b.writer.line]))
            && (!r.Ok? ==> c.wire == b.wire)
            && (r.NotWritten? || (r.Failed? && !b.relay) ==> c == b.(writer := Ready))
            && (r.Failed? && b.relay ==> c.writer == Done && c.queue == [] && c.closed && c.broken)
  {
  }

  /** A close takes effect once, and owes the writer a wake-up. */
  lemma CloseIsHeeded(b: Box)
    ensures ClosedBox(b).closed && ClosedBox(b) == if b.closed then b else b.(closed := true, owed := b.owed + 1)
  {
  }

  /** The box after more steps. */
  function Then(b: Box, ops: seq<Op>): Box {
    if ops == [] then b else Step(Then(b, Front(ops)), Last(ops))
  }

  /** The writer's own steps, its sends succeeding. */
  predicate Served(ops: seq<Op>) {
    forall i | 0 <= i < |ops| :: ops[i] == Post || ops[i] == Wake || ops[i] == Turn || ops[i] == Sent(Ok)
  }

  /** n lines taken and written. */
  function Writes(n: nat): seq<Op> {
    if n == 0 then [] else Writes(n - 1) + [Turn] + [Sent(Ok)]
  }

  lemma ThenOne(b: Box, ops: seq<Op>, op: Op)
    ensures Then(b, ops + [op]) == Step(Then(b, ops), op)
  {
    assert Front(ops + [op]) == ops;
  }

  lemma {:induction false} ThenSum(b: Box, x: seq<Op>, y: seq<Op>)
    ensures Then(b, x + y) == Then(Then(b, x), y)
  {
    if y == [] {
      assert x + y == x;
    } else {
      FrontOfAppend(x, y);
      ThenSum(b, x, Front(y));
    }
  }

  /** b with the first n lines of its queue on the wire. */
  function Delivered(b: Box, n: nat): Box
    requires n <= |b.queue|
  {
    b.(queue := b.queue[n..], taken := b.taken + b.queue[..n], wire := b.wire + b.queue[..n])
  }

  lemma OneMoreWritten(b: Box, n: nat)
    requires b.writer.Ready? && n < |b.queue|
    ensures Wrote(Turned(Delivered(b, n)), Ok) == Delivered(b, n + 1)
  {
    var x := b.queue[n];
    assert b.queue[n..][0] == x && b.queue[n..][1..] == b.queue[n + 1..];
    assert b.queue[..n] + [x] == b.queue[..n + 1];
    AppendAssociates(b.taken, b.queue[..n], [x]);
    AppendAssociates(b.wire, b.queue[..n], [x]);
  }

  lemma {:induction false} WritesAreServed(n: nat)
    ensures Served(Writes(n))
  {
    if n > 0 {
      WritesAreServed(n - 1);
    }
  }

  lemma {:induction false} WritesDeliver(b: Box, n: nat)
    requires b.writer.Ready? && n <= |b.queue|
    ensures Then(b, Writes(n)) == Delivered(b, n)
  {
    if n == 0 {
      assert b.taken + b.queue[..0] == b.taken && b.wire + b.queue[..0] == b.wire;
    } else {
      WritesDeliver(b, n - 1);
      ThenOne(b, Writes(n - 1), Turn);
      ThenOne(b, Writes(n - 1) + [Turn], Sent(Ok));
      OneMoreWritten(b, n - 1);
      hide Then, Wrote, Turned, Delivered;
    }
  }

  /** What makes the writer ready: its send returns, or its wake-up comes. */
  function Rouse(b: Box): seq<Op> {
    if b.writer.Sending? then [Sent(Ok)] else if b.writer.Parked? then [Post] + [Wake] else []
  }

  lemma RousedIsReady(b: Box)
    requires Inv(b) && !b.writer.Done? && (b.writer.Parked? ==> b.queue != [] || b.closed)
    ensures Served(Rouse(b))
    ensures var r := Then(b, Rouse(b));
            && r.writer.Ready? && r.queue == b.queue && r.accepted == b.accepted && r.closed == b.closed
            && r.wire == b.wire + if b.writer.Sending? then [b.writer.line] else []
  {
    hide InOrder, WireOk, Sub;
    assert b.wire + [] == b.wire;
    if b.writer.Sending? {
      assert Front([Sent(Ok)]) == [] && Then(b, []) == b;
      assert Then(b, [Sent(Ok)]) == Wrote(b, Ok);
    } else if b.writer.Parked? {
      assert Front([Post]) == [] && Then(b, []) == b;
      assert Then(b, [Post]) == Posted(b);
      ThenOne(b, [Post], Wake);
    }
  }

  /**
    No line waits forever: from any reachable state whose writer has not ended, the writer's own steps write everything
    that waits, in order, as long as its sends succeed; and when the queue is closed they end it.
   */
  lemma EverythingIsWritten(relay: bool, ops: seq<Op>) returns (more: seq<Op>)
    requires !Run(relay, ops).writer.Done?
    ensures Served(more)
    ensures var b, c := Run(relay, ops), Then(Run(relay, ops), more);
            && c.queue == [] && c.accepted == b.accepted
            && c.wire == b.wire + (if b.writer.Sending? then [b.writer.line] else []) + b.queue
            && (b.closed ==> c.writer.Done?)
  {
    var b := Run(relay, ops);
    RunKeeps(relay, ops);
    hide Run, InOrder, WireOk, Sub;
    more := [];
    if b.writer.Parked? && b.queue == [] && !b.closed {
      assert b.wire + [] + [] == b.wire;
    } else {
      RousedIsReady(b);
      var r := Then(b, Rouse(b));
      WritesDeliver(r, |r.queue|);
      WritesAreServed(|r.queue|);
      ThenSum(b, Rouse(b), Writes(|r.queue|));
      assert r.queue[..|r.queue|] == r.queue && r.queue[|r.queue|..] == [];
      more := Rouse(b) + Writes(|r.queue|);
      if b.closed {
        ThenOne(b, more, Turn);
        more := more + [Turn];
      }
    }
  }

  // ----- The queue as the source keeps it -----

  class LineQueue {
    const relay: bool
    var queue: seq<Line>
    var closed: bool
    var token: bool
    var stuck: bool
    ghost var owed: nat
    ghost var writer: Writer
    ghost var stuckCalls: nat
    ghost var accepted: seq<Line>
    ghost var taken: seq<Line>
    ghost var wire: seq<Line>
    ghost var broken: bool

    ghost function Abs(): Box
      reads this
    {
      Box(relay, queue, closed, token, owed, writer, stuckCalls, stuck, accepted, taken, wire, broken)
    }

    constructor (relay: bool)
      ensures Abs() == NewBox(relay)
    {
      this.relay := relay;
      queue, closed, token, stuck, owed, writer, stuckCalls := [], false, false, false, 0, Ready, 0;
      accepted, taken, wire, broken := [], [], [], false;
    }

    method OldestUnreliable() returns (k: nat)
      ensures k == OldestLossy(queue, 0)
    {
      k := 0;
      while k < |queue| && !queue[k].unreliable
        invariant k <= |queue|
        invariant OldestLossy(queue, 0) == OldestLossy(queue, k)
      {
        k := k + 1;
      }
    }

    /** At a full queue: whether the line may be queued after all, the oldest lossy one having made way. */
    method MakeRoom(m: Line) returns (room: bool)
      requires |queue| >= MAX_LINES && m.unreliable
      modifies this`queue
      ensures room == (Admit(old(queue), m).Queued?)
      ensures if room then Admit(old(queue), m) == Queued(queue + [m]) else queue == old(queue)
    {
      var i := OldestUnreliable();
      if i == |queue| {
        return false;
      }
      queue := queue[..i] + queue[i + 1..];
      return true;
    }

    method Enqueue(m: Line) returns (ok: bool)
      modifies this
      ensures Abs() == Enqueued(old(Abs()), m)
      ensures ok == old(EnqueueOk(Abs(), m))
    {
      if closed {
        return true;
      }
      if |queue| >= MAX_LINES {
        if !m.unreliable {
          if !relay {
            if !stuck {
              stuckCalls := stuckCalls + 1;
            }
            stuck := true;
          }
          return false;
        }
        var room := MakeRoom(m);
        if !room {
          return true;
        }
      }
      queue := queue + [m];
      accepted := accepted + [m];
      if relay {
        token := true;
      } else {
        owed := owed + 1;
      }
      return true;
    }

    method Close()
      modifies this
      ensures Abs() == ClosedBox(old(Abs()))
    {
      if closed {
        return;
      }
      closed := true;
      owed := owed + 1;
    }

    /** One pass of the writer's loop under the lock. */
    method NextLine() returns (line: Option<Line>)
      requires writer.Ready?
      modifies this
      ensures Abs() == Turned(old(Abs()))
      ensures line.Some? <==> writer.Sending?
      ensures line.Some? ==> writer.line == line.value
    {
      if |queue| == 0 {
        writer := if closed then Done else Parked;
        return None;
      }
      line := Some(queue[0]);
      taken := taken + [queue[0]];
      writer := Sending(queue[0]);
      queue := queue[1..];
    }

    /** What the writer does with the outcome of its send; over says that it ends. */
    method AfterSend(r: SendResult) returns (over: bool)
      requires writer.Sending?
      modifies this
      ensures Abs() == Wrote(old(Abs()), r) && over == writer.Done?
    {
      if r.Ok? {
        wire := wire + [writer.line];
      }
      if relay && r.Failed? {
        queue := [];
        closed := true;
        broken := true;
        writer := Done;
        return true;
      }
      writer := Ready;
      return false;
    }
  }
}
