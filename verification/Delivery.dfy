/**
  The room's sequencer and fan-out (relay/relay.go, relay/online.go): stamped under one lock and delivered before it is
  released, through each member's pre-Welcome hold, flush and outbox.
 */
module Delivery {
  import opened Lists
  import opened Wire
  import opened Outbox
  import opened Subsequences

  /**
    What one connection has been given. A line waits in pending until the Welcome is written, moves through flushing to
    the socket, and once the hold is over goes through chosen (picked under the room's lock, not yet queued), queue and
    writing. flushed and written are what reached the socket either way; offered is every line offered during the hold.
   */
  datatype Stream = Stream(
    conn: bool,
    hold: bool,
    pending: seq<Line>,
    flushing: seq<Line>,
    chosen: Option<Line>,
    queue: seq<Line>,
    writing: Option<Line>,
    closed: bool,
    flushed: seq<Line>,
    written: seq<Line>,
    offered: seq<Line>,
    resumed: bool)

  function NewStream(resumed: bool): Stream {
    Stream(true, true, [], [], None, [], None, false, [], [], [], resumed)
  }

  function Opt(m: Option<Line>): seq<Line> {
    if m.Some? then [m.value] else []
  }

  function Socket(s: Stream): seq<Line> {
    s.flushed + s.written
  }

  function HeldPart(s: Stream): seq<Line> {
    s.flushed + (s.flushing + s.pending)
  }

  function OutPart(s: Stream): seq<Line> {
    s.written + (Opt(s.writing) + (s.queue + Opt(s.chosen)))
  }

  /** Everything given to the connection and not dropped, in the order it reaches the socket. */
  function Pipe(s: Stream): seq<Line> {
    HeldPart(s) + OutPart(s)
  }

  // ----- What happens to one stream -----

  /** forwardLine under the room's lock: hold the line, or pick the connection for it. */
  function Offer(s: Stream, m: Line): Stream {
    if !s.conn then s
    else if !s.hold then s.(chosen := Some(m))
    else
      match Hold(s.pending, m)
      case Queued(p) => s.(pending := p, offered := s.offered + [m])
      case _ => s.(offered := s.offered + [m])
  }

  function Enqueue(s: Stream, m: Line): Stream {
    if s.closed then s
    else
      match Admit(s.queue, m)
      case Queued(q) => s.(queue := q)
      case _ => s
  }

  function PutChosen(s: Stream): Stream {
    if s.chosen.Some? then Enqueue(s, s.chosen.value).(chosen := None) else s
  }

  /** A line of another goroutine, unstamped: it is not ordered by the sequencer. */
  function Loose(s: Stream, m: Line): Stream {
    if s.conn && s.hold then Offer(s, m) else if s.conn then Enqueue(s, m) else s
  }

  /** One critical section of the flush: take what is held, or end the hold when nothing is. */
  function FlushTake(s: Stream): Stream {
    if !s.hold || s.flushing != [] then s
    else if s.pending == [] then s.(hold := false)
    else if !s.conn then s.(hold := false, pending := [])
    else s.(flushing := s.pending, pending := [])
  }

  function FlushSend(s: Stream, ok: bool): Stream {
    if s.flushing == [] then s
    else if ok then s.(flushed := s.flushed + [s.flushing[0]], flushing := s.flushing[1..])
    else s.(hold := false, pending := [], flushing := [])
  }

  function WriterTakes(s: Stream): Stream {
    if s.writing.Some? || s.queue == [] then s else s.(writing := Some(s.queue[0]), queue := s.queue[1..])
  }

  function WriterSent(s: Stream, r: SendResult): Stream {
    if s.writing.None? then s
    else
      match r
      case Ok => s.(written := s.written + [s.writing.value], writing := None)
      case NotWritten => s.(writing := None)
      case Failed => s.(writing := None, queue := [], closed := true)
  }

  /** The connection dropped, or the player left: nothing more is offered, and the outbox only drains. */
  function Detached(s: Stream): Stream {
    s.(conn := false, closed := true)
  }

  datatype Event =
    | PutOne
    | Unstamped(text: Text, unreliable: bool)
    | Take
    | Flush(ok: bool)
    | Pop
    | SendDone(r: SendResult)
    | Detach

  function Moved(s: Stream, e: Event): Stream {
    match e
    case PutOne => PutChosen(s)
    case Unstamped(text, unreliable) => Loose(s, Line(0, text, unreliable))
    case Take => FlushTake(s)
    case Flush(ok) => FlushSend(s, ok)
    case Pop => WriterTakes(s)
    case SendDone(r) => WriterSent(s, r)
    case Detach => Detached(s)
  }

  // ----- The room -----

  datatype Out = Out(line: Line, to: set<string>)

  /** stamp is the sequencer; outs is what the holder of sendMu has stamped and not yet delivered. */
  datatype Hub = Hub(stamp: nat, outs: seq<Out>, members: map<string, Stream>)

  const EMPTY_HUB := Hub(0, [], map[])

  datatype Draft = Draft(text: Text, unreliable: bool, to: set<string>)

  function Stamped(from: nat, drafts: seq<Draft>): (outs: seq<Out>)
    ensures |outs| == |drafts|
  {
    seq(|drafts|, i requires 0 <= i < |drafts| =>
      Out(Line(from + i + 1, drafts[i].text, drafts[i].unreliable), drafts[i].to))
  }

  function Forwarded(members: map<string, Stream>, o: Out): map<string, Stream> {
    map id | id in members :: if id in o.to then Offer(members[id], o.line) else members[id]
  }

  datatype Op =
    | Handle(drafts: seq<Draft>)
    | Replay(to: string, lines: seq<Line>)
    | Forward
    | Move(id: string, e: Event)
    | Enter(id: string)
    | Return(id: string)

  predicate Idle(h: Hub) {
    h.outs == [] && forall id | id in h.members :: h.members[id].chosen.None?
  }

  /** sendMu is free for a new handler; a line is forwarded once the one before it is queued; ids are not reused. */
  predicate Legal(h: Hub, op: Op) {
    match op
    case Handle(_) => Idle(h)
    case Replay(to, _) => Idle(h) && to in h.members && h.members[to].resumed
    case Forward => h.outs != [] && forall id | id in h.members :: h.members[id].chosen.None?
    case Move(id, _) => id in h.members
    case Enter(id) => id !in h.members
    case Return(id) => id in h.members
  }

  function Step(h: Hub, op: Op): Hub
    requires Legal(h, op)
  {
    match op
    case Handle(drafts) => h.(stamp := h.stamp + |drafts|, outs := Stamped(h.stamp, drafts))
    case Replay(to, lines) =>
      h.(outs := seq(|lines|, i requires 0 <= i < |lines| => Out(lines[i], {to})))
    case Forward => h.(outs := h.outs[1..], members := Forwarded(h.members, h.outs[0]))
    case Move(id, e) => h.(members := h.members[id := Moved(h.members[id], e)])
    case Enter(id) => h.(members := h.members[id := NewStream(false)])
    case Return(id) => h.(members := h.members[id := NewStream(true)])
  }

  // ----- Order -----

  predicate Below(q: seq<Line>, m: Line) {
    m.stamp == 0 || forall x | x in q :: x.stamp < m.stamp
  }

  /** The stamps in q strictly rise, unstamped lines aside. */
  predicate Rising(q: seq<Line>) {
    q == [] || (Rising(Front(q)) && Below(Front(q), Last(q)))
  }

  lemma {:induction false} RisingSub(a: seq<Line>, b: seq<Line>)
    requires Sub(a, b) && Rising(b)
    ensures Rising(a)
    decreases |b|
  {
    if a != [] {
      if Last(a) == Last(b) {
        RisingSub(Front(a), Front(b));
        forall x | x in Front(a)
          ensures x in Front(b)
        {
          SubContents(Front(a), Front(b), x);
        }
      } else {
        RisingSub(a, Front(b));
      }
    }
  }

  lemma {:induction false} RisingInsert(a: seq<Line>, u: Line, b: seq<Line>)
    requires Rising(a + b) && u.stamp == 0
    ensures Rising(a + [u] + b)
    decreases |b|
  {
    if b == [] {
      assert a + [u] + b == a + [u] && a + b == a;
      assert Front(a + [u]) == a;
    } else {
      FrontOfAppend(a, b);
      FrontOfAppend(a + [u], b);
      RisingInsert(a, u, Front(b));
      assert forall x | x in a + [u] + Front(b) :: x in a + Front(b) || x == u;
    }
  }

  /** What is still to come to id. */
  function Coming(outs: seq<Out>, id: string): seq<Line> {
    if outs == [] then [] else (if id in outs[0].to then [outs[0].line] else []) + Coming(outs[1..], id)
  }

  ghost predicate Shaped(s: Stream) {
    && (s.hold ==> s.queue == [] && s.writing.None? && s.chosen.None? && s.written == [])
    && (!s.hold ==> s.pending == [] && s.flushing == [])
    && |s.pending| <= MAX_HELD && |s.queue| <= MAX_LINES
    && Sub(HeldPart(s), s.offered)
  }

  /** Everything given and coming to a member that has not resumed is in the sequencer's order. */
  ghost predicate Ordered(s: Stream, coming: seq<Line>, stamp: nat) {
    !s.resumed ==> Rising(Pipe(s) + coming) && forall x | x in Pipe(s) + coming :: x.stamp <= stamp
  }

  /** What is being delivered was stamped in order, or replays old lines to a member that resumed. */
  ghost predicate OutsOk(outs: seq<Out>, members: map<string, Stream>, stamp: nat) {
    || OutsRise(outs, 0, stamp)
    || (exists to :: to in members && members[to].resumed && forall i | 0 <= i < |outs| :: outs[i].to == {to})
  }

  /** Stamps above lo, at most hi, strictly rising. */
  ghost predicate OutsRise(outs: seq<Out>, lo: nat, hi: nat) {
    && (forall i | 0 <= i < |outs| :: lo < outs[i].line.stamp <= hi)
    && (forall i, j | 0 <= i < j < |outs| :: outs[i].line.stamp < outs[j].line.stamp)
  }

  ghost predicate AllOrdered(h: Hub) {
    forall id | id in h.members :: Shaped(h.members[id]) && Ordered(h.members[id], Coming(h.outs, id), h.stamp)
  }

  ghost predicate Inv(h: Hub) {
    AllOrdered(h) && OutsOk(h.outs, h.members, h.stamp)
  }

  // ----- One stream keeps its order -----

  lemma TailSub(s: Stream, writing: Option<Line>, rest: seq<Line>)
    requires Sub(Opt(writing) + rest, Opt(s.writing) + (s.queue + Opt(s.chosen)))
    ensures Sub(HeldPart(s) + (s.written + (Opt(writing) + rest)), Pipe(s))
  {
    hide Sub;
    SubUnder(s.written, Opt(writing) + rest, Opt(s.writing) + (s.queue + Opt(s.chosen)));
    SubUnder(HeldPart(s), s.written + (Opt(writing) + rest), OutPart(s));
  }

  lemma PutKeeps(s: Stream)
    requires Shaped(s)
    ensures Shaped(PutChosen(s)) && Sub(Pipe(PutChosen(s)), Pipe(s))
  {
    hide Sub, Admit;
    if s.chosen.Some? {
      var m := s.chosen.value;
      var q := PutChosen(s).queue;
      PoliciesKeep(s.queue, m);
      assert Sub(q, s.queue + [m]) by {
        SubHead(s.queue, [m]);
      }
      assert q + [] == q;
      SubUnder(Opt(s.writing), q + [], s.queue + [m]);
      TailSub(s, s.writing, q + []);
    } else {
      SubSelf(Pipe(s));
    }
  }

  lemma TakeKeeps(s: Stream)
    requires Shaped(s)
    ensures Shaped(FlushTake(s)) && Sub(Pipe(FlushTake(s)), Pipe(s))
  {
    hide Sub;
    var r := FlushTake(s);
    SubSelf(Pipe(s));
    if s.hold && s.flushing == [] && s.pending != [] {
      if s.conn {
        assert [] + s.pending == s.pending && s.pending + [] == s.pending;
        assert HeldPart(r) == HeldPart(s);
      } else {
        HeldDropped(s);
      }
    }
  }

  lemma HeldDropped(s: Stream)
    requires Shaped(s)
    ensures Sub(s.flushed + ([] + []), s.offered)
    ensures Sub(s.flushed + ([] + []) + OutPart(s), Pipe(s))
  {
    hide Sub;
    assert s.flushed + ([] + []) == s.flushed;
    SubHead(s.flushed, s.flushing + s.pending);
    SubTrans(s.flushed, HeldPart(s), s.offered);
    SubSum(s.flushed, HeldPart(s), OutPart(s));
  }

  lemma FlushKeeps(s: Stream, ok: bool)
    requires Shaped(s)
    ensures Shaped(FlushSend(s, ok)) && Sub(Pipe(FlushSend(s, ok)), Pipe(s))
  {
    hide Sub;
    var r := FlushSend(s, ok);
    SubSelf(Pipe(s));
    if s.flushing != [] {
      if ok {
        assert s.flushed + [s.flushing[0]] + (s.flushing[1..] + s.pending) == s.flushed + (s.flushing + s.pending);
        assert HeldPart(r) == HeldPart(s);
      } else {
        HeldDropped(s);
      }
    }
  }

  lemma PopKeeps(s: Stream)
    requires Shaped(s)
    ensures Shaped(WriterTakes(s)) && Sub(Pipe(WriterTakes(s)), Pipe(s))
  {
    hide Sub;
    SubSelf(Pipe(s));
    if s.writing.None? && s.queue != [] {
      assert [s.queue[0]] + (s.queue[1..] + Opt(s.chosen)) == [] + (s.queue + Opt(s.chosen));
    }
  }

  lemma SendDoneKeeps(s: Stream, r: SendResult)
    requires Shaped(s)
    ensures Shaped(WriterSent(s, r)) && Sub(Pipe(WriterSent(s, r)), Pipe(s))
  {
    hide Sub;
    SubSelf(Pipe(s));
    if s.writing.Some? {
      var rest := s.queue + Opt(s.chosen);
      assert [] + rest == rest;
      match r {
        case Ok =>
          assert s.written + [s.writing.value] + ([] + rest) == s.written + ([s.writing.value] + rest);
        case NotWritten =>
          SubTail([s.writing.value], rest);
          TailSub(s, None, rest);
        case Failed =>
          SubTail(s.queue, Opt(s.chosen));
          SubTail([s.writing.value], rest);
          SubTrans(Opt(s.chosen), rest, [s.writing.value] + rest);
          assert [] + ([] + Opt(s.chosen)) == Opt(s.chosen);
          TailSub(s, None, [] + Opt(s.chosen));
      }
    }
  }

  lemma Regroup<T>(h: seq<T>, w: seq<T>, o: seq<T>, q: seq<T>, c: seq<T>)
    ensures h + (w + (o + (q + c))) == h + (w + (o + q)) + c
  {
  }

  /** Everything of the pipe before a chosen line. */
  function Behind(s: Stream): seq<Line> {
    HeldPart(s) + (s.written + (Opt(s.writing) + s.queue))
  }

  lemma PipeSplits(s: Stream)
    ensures Pipe(s) == Behind(s) + Opt(s.chosen)
  {
    hide HeldPart;
    Regroup(HeldPart(s), s.written, Opt(s.writing), s.queue, Opt(s.chosen));
  }

  lemma HoldOneMore(s: Stream, p: seq<Line>, m: Line)
    requires Sub(p, s.pending + [m])
    ensures Sub(s.flushed + (s.flushing + p), HeldPart(s) + [m])
  {
    hide Sub;
    SubUnder(s.flushing, p, s.pending + [m]);
    SubUnder(s.flushed, s.flushing + p, s.flushing + (s.pending + [m]));
    assert s.flushed + (s.flushing + (s.pending + [m])) == s.flushed + (s.flushing + s.pending) + [m];
  }

  lemma HeldIsAll(s: Stream)
    requires Shaped(s) && s.hold
    ensures Pipe(s) == HeldPart(s)
  {
    hide HeldPart;
    assert OutPart(s) == [];
  }

  lemma HeldOffer(s: Stream, m: Line)
    requires Shaped(s) && s.conn && s.hold
    ensures Shaped(Offer(s, m)) && Sub(HeldPart(Offer(s, m)), HeldPart(s) + [m])
  {
    hide Sub, Hold;
    var r := Offer(s, m);
    PoliciesKeep(s.pending, m);
    assert Sub(r.pending, s.pending + [m]) by {
      SubHead(s.pending, [m]);
    }
    HoldOneMore(s, r.pending, m);
    SubTake(HeldPart(s), s.offered, m);
    SubTrans(HeldPart(r), HeldPart(s) + [m], s.offered + [m]);
  }

  lemma OfferedKeeps(s: Stream, m: Line)
    requires Shaped(s) && (s.conn && !s.hold ==> s.chosen.None?)
    ensures Shaped(Offer(s, m))
    ensures Sub(Pipe(Offer(s, m)), Pipe(s) + [m])
  {
    hide Sub, HeldPart, OutPart;
    var r := Offer(s, m);
    if !s.conn {
      SubHead(Pipe(s), [m]);
    } else if !s.hold {
      hide Pipe, Hold;
      PipeSplits(s);
      PipeSplits(r);
      SameBehind(s, m);
      assert Behind(s) + [] == Behind(s);
      SubSelf(Pipe(s) + [m]);
    } else {
      hide Pipe, Hold, Behind;
      HeldOffer(s, m);
      HeldIsAll(s);
      OfferStaysHeld(s, m);
      HeldIsAll(r);
    }
  }

  lemma SameBehind(s: Stream, m: Line)
    ensures Behind(s.(chosen := Some(m))) == Behind(s)
    ensures HeldPart(s.(chosen := Some(m))) == HeldPart(s)
  {
  }

  lemma OfferStaysHeld(s: Stream, m: Line)
    requires s.hold
    ensures Offer(s, m).hold
  {
  }

  /** An unstamped line slips in somewhere and disturbs nothing. */
  lemma LooseKeeps(s: Stream, u: Line, coming: seq<Line>)
    requires Shaped(s) && u.stamp == 0 && Rising(Pipe(s) + coming)
    ensures Shaped(Loose(s, u)) && Rising(Pipe(Loose(s, u)) + coming)
    ensures forall x | x in Pipe(Loose(s, u)) :: x in Pipe(s) || x == u
  {
    hide Sub, Rising, Pipe, Behind, Loose, Shaped;
    var r := Loose(s, u);
    LooseSplits(s, u);
    PipeSplits(s);
    var before, after := Behind(s), Opt(s.chosen);
    AppendAssociates(before, after, coming);
    RisingInsert(before, u, after + coming);
    AppendAssociates(before + [u], after, coming);
    SubSum(Pipe(r), before + [u] + after, coming);
    RisingSub(Pipe(r) + coming, before + [u] + after + coming);
    forall x | x in Pipe(r)
      ensures x in Pipe(s) || x == u
    {
      SubContents(Pipe(r), before + [u] + after, x);
    }
  }

  lemma QueueOneMore(h: seq<Line>, w: seq<Line>, o: seq<Line>, q: seq<Line>, p: seq<Line>, u: Line, c: seq<Line>)
    requires Sub(q, p + [u])
    ensures Sub(h + (w + (o + q)) + c, h + (w + (o + p)) + [u] + c)
  {
    hide Sub;
    SubUnder(o, q, p + [u]);
    SubUnder(w, o + q, o + (p + [u]));
    SubUnder(h, w + (o + q), w + (o + (p + [u])));
    Regroup(h, w, o, p, [u]);
    SubSum(h + (w + (o + q)), h + (w + (o + p)) + [u], c);
  }

  lemma LooseSplits(s: Stream, u: Line)
    requires Shaped(s)
    ensures Shaped(Loose(s, u)) && Sub(Pipe(Loose(s, u)), Behind(s) + [u] + Opt(s.chosen))
  {
    hide Sub, Admit, Offer, Pipe, OutPart;
    var r := Loose(s, u);
    if s.conn && s.hold {
      hide HeldPart, Behind;
      OfferedKeeps(s, u);
      PipeSplits(s);
      assert Opt(s.chosen) == [];
      assert Behind(s) + [] == Behind(s) && Behind(s) + [u] + [] == Behind(s) + [u];
    } else {
      PoliciesKeep(s.queue, u);
      assert Sub(r.queue, s.queue + [u]) by {
        SubHead(s.queue, [u]);
      }
      PipeSplits(r);
      QueueOneMore(HeldPart(s), s.written, Opt(s.writing), r.queue, s.queue, u, Opt(s.chosen));
    }
  }

  lemma MovedKeeps(s: Stream, e: Event, coming: seq<Line>, stamp: nat)
    requires Shaped(s) && Ordered(s, coming, stamp)
    ensures Shaped(Moved(s, e)) && Ordered(Moved(s, e), coming, stamp)
  {
    hide Shaped, Sub, Rising, Pipe, PutChosen, FlushTake, FlushSend, WriterTakes, WriterSent, Loose;
    var r := Moved(s, e);
    StaysResumed(s, e);
    match e {
      case Unstamped(text, unreliable) =>
        if !s.resumed {
          LooseKeeps(s, Line(0, text, unreliable), coming);
        } else {
          LooseSplits(s, Line(0, text, unreliable));
        }
      case _ =>
        MovedSub(s, e);
        if !s.resumed {
          SubSum(Pipe(r), Pipe(s), coming);
          RisingSub(Pipe(r) + coming, Pipe(s) + coming);
          forall x | x in Pipe(r) + coming
            ensures x in Pipe(s) + coming
          {
            SubContents(Pipe(r) + coming, Pipe(s) + coming, x);
          }
        }
    }
  }

  lemma StaysResumed(s: Stream, e: Event)
    ensures Moved(s, e).resumed == s.resumed
  {
  }

  lemma MovedSub(s: Stream, e: Event)
    requires Shaped(s) && !e.Unstamped?
    ensures Shaped(Moved(s, e)) && Sub(Pipe(Moved(s, e)), Pipe(s))
  {
    hide Sub, PutChosen, FlushTake, FlushSend, WriterTakes, WriterSent;
    match e {
      case PutOne => PutKeeps(s);
      case Take => TakeKeeps(s);
      case Flush(ok) => FlushKeeps(s, ok);
      case Pop => PopKeeps(s);
      case SendDone(r) => SendDoneKeeps(s, r);
      case Detach => SubSelf(Pipe(s));
    }
  }

  // ----- The room keeps everyone's order -----

  lemma {:induction false} RisingSum(a: seq<Line>, b: seq<Line>, lo: nat)
    requires Rising(a) && Rising(b)
    requires (forall x | x in a :: x.stamp <= lo) && (forall x | x in b :: lo < x.stamp)
    ensures Rising(a + b)
    decreases |b|
  {
    if b == [] {
      assert a + b == a;
    } else {
      FrontOfAppend(a, b);
      RisingSum(a, Front(b), lo);
    }
  }

  lemma RisingOne(m: Line)
    ensures Rising([m])
  {
    assert Rising([]) && Below([], m);
    assert Front([m]) == [];
  }

  lemma {:induction false} ComingRises(outs: seq<Out>, id: string, lo: nat, hi: nat)
    requires OutsRise(outs, lo, hi)
    ensures Rising(Coming(outs, id))
    ensures forall x | x in Coming(outs, id) :: lo < x.stamp <= hi
  {
    if outs != [] {
      var m, rest := outs[0].line, outs[1..];
      assert OutsRise(rest, m.stamp, hi);
      ComingRises(rest, id, m.stamp, hi);
      RisingOne(m);
      RisingSum(if id in outs[0].to then [m] else [], Coming(rest, id), m.stamp);
    }
  }

  lemma {:induction false} ComingToOthers(outs: seq<Out>, id: string)
    requires forall i | 0 <= i < |outs| :: id !in outs[i].to
    ensures Coming(outs, id) == []
  {
    if outs != [] {
      ComingToOthers(outs[1..], id);
    }
  }

  lemma NewStampsFollow(s: Stream, outs: seq<Out>, id: string, stamp: nat, n: nat)
    requires Ordered(s, [], stamp) && OutsRise(outs, stamp, stamp + n)
    ensures Ordered(s, Coming(outs, id), stamp + n)
  {
    hide Pipe;
    ComingRises(outs, id, stamp, stamp + n);
    assert Pipe(s) + [] == Pipe(s);
    if !s.resumed {
      RisingSum(Pipe(s), Coming(outs, id), stamp);
    }
  }

  lemma HandleKeeps(h: Hub, drafts: seq<Draft>)
    requires Inv(h) && Legal(h, Handle(drafts))
    ensures Inv(Step(h, Handle(drafts)))
  {
    var outs := Stamped(h.stamp, drafts);
    assert OutsRise(outs, h.stamp, h.stamp + |drafts|) by {
      assert forall i | 0 <= i < |outs| :: outs[i].line.stamp == h.stamp + i + 1;
    }
    hide Shaped, Ordered;
    forall id | id in h.members
      ensures Ordered(h.members[id], Coming(outs, id), h.stamp + |drafts|)
    {
      NewStampsFollow(h.members[id], outs, id, h.stamp, |drafts|);
    }
    assert OutsRise(outs, 0, h.stamp + |drafts|);
  }

  lemma ForwardOne(s: Stream, m: Line, mine: bool, coming: seq<Line>, stamp: nat)
    requires Shaped(s) && s.chosen.None? && Ordered(s, (if mine then [m] else []) + coming, stamp)
    ensures var r := if mine then Offer(s, m) else s; Shaped(r) && Ordered(r, coming, stamp)
  {
    hide Shaped, Pipe, Sub, Rising;
    if mine {
      OfferedKeeps(s, m);
      OfferStaysResumed(s, m);
      var r := Offer(s, m);
      AppendAssociates(Pipe(s), [m], coming);
      if !s.resumed {
        SubSum(Pipe(r), Pipe(s) + [m], coming);
        RisingSub(Pipe(r) + coming, Pipe(s) + [m] + coming);
        forall x | x in Pipe(r) + coming
          ensures x in Pipe(s) + [m] + coming
        {
          SubContents(Pipe(r) + coming, Pipe(s) + [m] + coming, x);
        }
      }
    } else {
      assert [] + coming == coming;
    }
  }

  lemma OfferStaysResumed(s: Stream, m: Line)
    ensures Offer(s, m).resumed == s.resumed
  {
  }

  lemma ForwardKeeps(h: Hub)
    requires Inv(h) && Legal(h, Forward)
    ensures Inv(Step(h, Forward))
  {
    hide Shaped, Ordered, Offer;
    var o, rest := h.outs[0], h.outs[1..];
    var members := Forwarded(h.members, o);
    forall id | id in h.members
      ensures Shaped(members[id]) && Ordered(members[id], Coming(rest, id), h.stamp)
      ensures members[id].resumed == h.members[id].resumed
    {
      ForwardOne(h.members[id], o.line, id in o.to, Coming(rest, id), h.stamp);
      OfferStaysResumed(h.members[id], o.line);
    }
    assert OutsRise(h.outs, 0, h.stamp) ==> OutsRise(rest, 0, h.stamp);
  }

  lemma ReplayKeeps(h: Hub, to: string, lines: seq<Line>)
    requires Inv(h) && Legal(h, Replay(to, lines))
    ensures Inv(Step(h, Replay(to, lines)))
  {
    hide Shaped, Rising, Pipe;
    var outs := Step(h, Replay(to, lines)).outs;
    forall id | id in h.members
      ensures Ordered(h.members[id], Coming(outs, id), h.stamp)
    {
      if id != to {
        ComingToOthers(outs, id);
      }
    }
  }

  lemma MoveKeeps(h: Hub, id: string, e: Event)
    requires Inv(h) && id in h.members
    ensures Inv(Step(h, Move(id, e)))
  {
    hide Shaped, Ordered, Moved;
    MovedKeeps(h.members[id], e, Coming(h.outs, id), h.stamp);
    StaysResumed(h.members[id], e);
  }

  lemma NewcomerOrdered(outs: seq<Out>, members: map<string, Stream>, stamp: nat, id: string)
    requires OutsOk(outs, members, stamp) && id !in members
    ensures Shaped(NewStream(false)) && Ordered(NewStream(false), Coming(outs, id), stamp)
  {
    var s := NewStream(false);
    assert Pipe(s) == [] && [] + Coming(outs, id) == Coming(outs, id);
    hide Pipe;
    if OutsRise(outs, 0, stamp) {
      ComingRises(outs, id, 0, stamp);
    } else {
      ComingToOthers(outs, id);
    }
  }

  lemma OutsStillOk(outs: seq<Out>, members: map<string, Stream>, stamp: nat, id: string, s: Stream)
    requires OutsOk(outs, members, stamp) && (id !in members || s.resumed)
    ensures OutsOk(outs, members[id := s], stamp)
  {
    if !OutsRise(outs, 0, stamp) {
      var to :| to in members && members[to].resumed && forall i | 0 <= i < |outs| :: outs[i].to == {to};
      assert members[id := s][to].resumed;
    }
  }

  lemma EnterKeeps(h: Hub, id: string)
    requires Inv(h) && id !in h.members
    ensures Inv(Step(h, Enter(id)))
  {
    hide Shaped, Ordered, OutsRise;
    NewcomerOrdered(h.outs, h.members, h.stamp, id);
    OutsStillOk(h.outs, h.members, h.stamp, id, NewStream(false));
  }

  lemma ReturnedIsFine(coming: seq<Line>, stamp: nat)
    ensures Shaped(NewStream(true)) && Ordered(NewStream(true), coming, stamp)
  {
  }

  lemma ReturnKeeps(h: Hub, id: string)
    requires Inv(h) && id in h.members
    ensures Inv(Step(h, Return(id)))
  {
    hide Shaped, Ordered, OutsRise;
    ReturnedIsFine(Coming(h.outs, id), h.stamp);
    hide OutsOk;
    OutsStillOk(h.outs, h.members, h.stamp, id, NewStream(true));
  }

  lemma StepKeeps(h: Hub, op: Op)
    requires Inv(h) && Legal(h, op)
    ensures Inv(Step(h, op))
  {
    hide Inv;
    match op {
      case Handle(drafts) => HandleKeeps(h, drafts);
      case Replay(to, lines) => ReplayKeeps(h, to, lines);
      case Forward => ForwardKeeps(h);
      case Move(id, e) => MoveKeeps(h, id, e);
      case Enter(id) => EnterKeeps(h, id);
      case Return(id) => ReturnKeeps(h, id);
    }
  }

  // ----- Every run -----

  predicate LegalRun(ops: seq<Op>)
    decreases |ops|, 0
  {
    ops == [] || (LegalRun(Front(ops)) && Legal(Run(Front(ops)), Last(ops)))
  }

  function Run(ops: seq<Op>): Hub
    requires LegalRun(ops)
    decreases |ops|, 1
  {
    if ops == [] then EMPTY_HUB else Step(Run(Front(ops)), Last(ops))
  }

  lemma {:induction false} RunKeeps(ops: seq<Op>)
    requires LegalRun(ops)
    ensures Inv(Run(ops))
  {
    if ops == [] {
      assert OutsRise([], 0, 0);
    } else {
      RunKeeps(Front(ops));
      hide Inv, Step, Legal;
      StepKeeps(Run(Front(ops)), Last(ops));
    }
  }

  lemma {:induction false} RisesBetween(q: seq<Line>, i: nat, j: nat)
    requires Rising(q) && i < j < |q| && q[j].stamp > 0
    ensures q[i].stamp < q[j].stamp
  {
    if j < |q| - 1 {
      RisesBetween(Front(q), i, j);
    } else {
      assert q[i] in Front(q);
    }
  }

  lemma SocketRises(s: Stream, coming: seq<Line>, stamp: nat)
    requires Ordered(s, coming, stamp) && !s.resumed
    ensures Rising(Socket(s))
  {
    hide Sub, Rising;
    var rest := Opt(s.writing) + (s.queue + Opt(s.chosen));
    SubHead(s.flushed, s.flushing + s.pending);
    SubSum(s.flushed, HeldPart(s), OutPart(s));
    SubHead(s.written, rest);
    SubUnder(s.flushed, s.written, OutPart(s));
    SubTrans(Socket(s), s.flushed + OutPart(s), Pipe(s));
    SubHead(Pipe(s), coming);
    SubTrans(Socket(s), Pipe(s), Pipe(s) + coming);
    RisingSub(Socket(s), Pipe(s) + coming);
  }

  /** A member that has not resumed reads stamped lines in the sequencer's order, whatever plane stamped them. */
  lemma SequencerOrder(ops: seq<Op>, id: string, i: nat, j: nat)
    requires LegalRun(ops) && id in Run(ops).members && !Run(ops).members[id].resumed
    requires i < j < |Socket(Run(ops).members[id])| && Socket(Run(ops).members[id])[j].stamp > 0
    ensures Socket(Run(ops).members[id])[i].stamp < Socket(Run(ops).members[id])[j].stamp
  {
    RunKeeps(ops);
    hide Run, LegalRun, Shaped, Socket, Ordered;
    var h := Run(ops);
    assert Ordered(h.members[id], Coming(h.outs, id), h.stamp);
    SocketRises(h.members[id], Coming(h.outs, id), h.stamp);
    RisesBetween(Socket(h.members[id]), i, j);
  }

  /** Two members that have not resumed never read two stamped lines in different orders. */
  lemma MembersAgree(ops: seq<Op>, a: string, b: string, i: nat, j: nat, k: nat, l: nat)
    requires LegalRun(ops) && a in Run(ops).members && b in Run(ops).members
    requires !Run(ops).members[a].resumed && !Run(ops).members[b].resumed
    requires i < j < |Socket(Run(ops).members[a])|
    requires k < |Socket(Run(ops).members[b])| && l < |Socket(Run(ops).members[b])|
    requires var s, t := Socket(Run(ops).members[a]), Socket(Run(ops).members[b]);
             s[i].stamp > 0 && s[j].stamp > 0 && t[k].stamp == s[i].stamp && t[l].stamp == s[j].stamp
    ensures k < l
  {
    hide Run, LegalRun, Socket;
    SequencerOrder(ops, a, i, j);
    if l < k {
      SequencerOrder(ops, b, l, k);
    }
  }

  /**
    A joiner's lines keep the order they were offered in through hold and flush, unstamped ones too, and the outbox
    writes nothing before the hold is over and everything held is out of the way.
   */
  lemma HoldKeepsOrder(ops: seq<Op>, id: string)
    requires LegalRun(ops) && id in Run(ops).members
    ensures var s := Run(ops).members[id];
            && Sub(s.flushed + (s.flushing + s.pending), s.offered)
            && (s.hold ==> Socket(s) == s.flushed && s.queue == [] && s.writing.None?)
            && (!s.hold ==> s.pending == [] && s.flushing == [])
            && |s.pending| <= MAX_HELD
  {
    RunKeeps(ops);
    hide Run, LegalRun, Ordered, Sub;
    var s := Run(ops).members[id];
    assert Shaped(s);
    assert s.flushed + [] == s.flushed;
  }

  /** The hold drops a reliable line only when 64 reliable lines are held. */
  lemma HoldSparesReliable(s: Stream, m: Line)
    requires Shaped(s) && s.conn && s.hold && !m.unreliable
    ensures Reliables(Offer(s, m).pending) ==
            if |s.pending| == MAX_HELD && Reliables(s.pending) == s.pending then s.pending
            else Reliables(s.pending) + [m]
  {
    PoliciesKeep(s.pending, m);
    ReliablesSum(s.pending, [m]);
    ReliablesOne(m);
    if |s.pending| == MAX_HELD && Hold(s.pending, m).Queued? {
      LossyIsNotReliable(s.pending, OldestLossy(s.pending, 0));
    }
  }

  /** Offered to a connection with room, a line joins the end of its pipe. */
  lemma OfferAppends(s: Stream, m: Line)
    requires Shaped(s) && s.conn && s.chosen.None? && (s.hold ==> |s.pending| < MAX_HELD)
    ensures Pipe(Offer(s, m)) == Pipe(s) + [m]
  {
    var r := Offer(s, m);
    if s.hold {
      HeldOffer(s, m);
      HeldIsAll(s);
      HeldIsAll(r);
      assert s.flushed + (s.flushing + (s.pending + [m])) == s.flushed + (s.flushing + s.pending) + [m];
    } else {
      PipeSplits(s);
      PipeSplits(r);
      SameBehind(s, m);
      assert Behind(s) + [] == Behind(s);
    }
  }

  lemma WritingMoves(w: seq<Line>, o: Line, r: seq<Line>)
    ensures w + [o] + ([] + r) == w + ([o] + r)
  {
  }

  lemma QueueMoves(q: seq<Line>, c: seq<Line>)
    ensures q != [] ==> [q[0]] + (q[1..] + c) == [] + (q + c)
    ensures q + c + [] == q + c
  {
  }

  lemma FlushMoves(f: seq<Line>, g: seq<Line>, p: seq<Line>)
    ensures g != [] ==> f + [g[0]] + (g[1..] + p) == f + (g + p)
    ensures p + [] == [] + p
  {
  }

  /** While sends succeed and no queue is full, nothing a connection was given is lost or reordered, lossy or not. */
  lemma NothingIsLost(s: Stream, e: Event)
    requires Shaped(s) && s.conn && !s.closed && |s.queue| < MAX_LINES
    requires e == PutOne || e == Take || e == Flush(true) || e == Pop || e == SendDone(Ok)
    ensures Pipe(Moved(s, e)) == Pipe(s)
  {
    hide Sub;
    QueueMoves(s.queue, Opt(s.chosen));
    FlushMoves(s.flushed, s.flushing, s.pending);
    if s.writing.Some? {
      WritingMoves(s.written, s.writing.value, s.queue + Opt(s.chosen));
    }
  }

  lemma LossyIsNotReliable(q: seq<Line>, k: nat)
    requires k < |q| && q[k].unreliable
    ensures Reliables(q) != q
  {
    AllInReliables(q, q[k]);
    assert q[k] in q;
  }

  lemma {:induction false} AllInReliables(q: seq<Line>, x: Line)
    requires x.unreliable
    ensures x !in Reliables(q)
  {
    if q != [] {
      AllInReliables(Front(q), x);
    }
  }

  // ----- Every line gets where it is addressed -----

  /** A handler's drafts leave it in order, stamped one after another, each with its own text and addressees. */
  lemma DraftsAreStamped(h: Hub, drafts: seq<Draft>)
    requires Legal(h, Handle(drafts))
    ensures var g := Step(h, Handle(drafts));
            && g.stamp == h.stamp + |drafts| && |g.outs| == |drafts| && g.members == h.members
            && forall i | 0 <= i < |drafts| ::
                 g.outs[i] == Out(Line(h.stamp + 1 + i, drafts[i].text, drafts[i].unreliable), drafts[i].to)
  {
  }

  /** Nobody's line is in the way of the next one. */
  predicate HasRoom(s: Stream) {
    s.conn && s.chosen.None? && (s.hold ==> |s.pending| < 64)
  }

  /**
    Forwarding gives the first line waiting to exactly the members it is addressed to: at the end of everything each one
    with room was given, and to none that has no connection.
   */
  lemma LineReachesAddressees(h: Hub, id: string)
    requires Inv(h) && Legal(h, Forward) && id in h.members
    ensures var g, o := Step(h, Forward), h.outs[0];
            && g.outs == h.outs[1..] && g.stamp == h.stamp && g.members.Keys == h.members.Keys
            && (id !in o.to || !h.members[id].conn ==> g.members[id] == h.members[id])
            && (id in o.to && HasRoom(h.members[id]) ==>
                  Pipe(g.members[id]) == Pipe(h.members[id]) + [o.line] && g.members[id].hold == h.members[id].hold)
  {
    hide Shaped, Ordered, Pipe, OutsOk;
    assert Shaped(h.members[id]);
    if id in h.outs[0].to && HasRoom(h.members[id]) {
      OfferAppends(h.members[id], h.outs[0].line);
    }
  }

  /** Whoever enters or returns starts connected, held back until its Welcome, and owed nothing. */
  lemma NewcomerIsHeld(h: Hub, op: Op)
    requires Legal(h, op) && (op.Enter? || op.Return?)
    ensures var g := Step(h, op);
            && op.id in g.members && g.outs == h.outs && g.stamp == h.stamp
            && (forall k | k in h.members && k != op.id :: k in g.members && g.members[k] == h.members[k])
            && var s := g.members[op.id];
               s.conn && s.hold && !s.closed && Pipe(s) == [] && s.chosen.None? && s.resumed == op.Return?
  {
  }

  /** A detached connection is given nothing more, whatever is offered, though its queue may still drain. */
  lemma DetachedIsLeftAlone(s: Stream, m: Line)
    requires s.chosen.None?
    ensures var d := Moved(s, Detach);
            && !d.conn && Pipe(d) == Pipe(s) && d.queue == s.queue && d.flushing == s.flushing
            && Offer(d, m) == d && Loose(d, m) == d && Moved(d, PutOne) == d
  {
  }

  /** A failed flush ends the hold and drops what it held; a failed send drops the queue and closes it; neither touches
      what is on the socket. */
  lemma FailureDrops(s: Stream)
    ensures s.flushing != [] ==> Moved(s, Flush(false)) == s.(hold := false, pending := [], flushing := [])
    ensures s.writing.Some? ==>
              && Moved(s, SendDone(Failed)) == s.(writing := None, queue := [], closed := true)
              && Moved(s, SendDone(NotWritten)) == s.(writing := None)
    ensures Socket(Moved(s, Flush(false))) == Socket(s) == Socket(Moved(s, SendDone(Failed)))
  {
  }

  // ----- What is given is written -----

  function MovedAll(s: Stream, es: seq<Event>): Stream {
    if es == [] then s else Moved(MovedAll(s, Front(es)), Last(es))
  }

  lemma MovedOne(s: Stream, es: seq<Event>, e: Event)
    ensures MovedAll(s, es + [e]) == Moved(MovedAll(s, es), e)
  {
    assert Front(es + [e]) == es;
  }

  lemma {:induction false} MovedSum(s: Stream, x: seq<Event>, y: seq<Event>)
    ensures MovedAll(s, x + y) == MovedAll(MovedAll(s, x), y)
  {
    if y == [] {
      assert x + y == x;
    } else {
      FrontOfAppend(x, y);
      MovedSum(s, x, Front(y));
    }
  }

  /** The flush's and the writer's own moves, their sends succeeding. */
  predicate Serving(es: seq<Event>) {
    forall e | e in es :: e == PutOne || e == Take || e == Flush(true) || e == Pop || e == SendDone(Ok)
  }

  function Flushes(n: nat): seq<Event> {
    if n == 0 then [] else Flushes(n - 1) + [Flush(true)]
  }

  function Pops(n: nat): seq<Event> {
    if n == 0 then [] else Pops(n - 1) + [Pop] + [SendDone(Ok)]
  }

  lemma {:induction false} ServingMoves(n: nat)
    ensures Serving(Flushes(n)) && Serving(Pops(n))
  {
    if n > 0 {
      ServingMoves(n - 1);
    }
  }

  lemma MoveNames(s: Stream)
    ensures Moved(s, Pop) == WriterTakes(s) && Moved(s, SendDone(Ok)) == WriterSent(s, Ok)
    ensures Moved(s, Flush(true)) == FlushSend(s, true) && Moved(s, PutOne) == PutChosen(s)
  {
  }

  /** s with the first n lines of its flush, or of its queue, on the socket. */
  function FlushedTo(s: Stream, n: nat): Stream
    requires n <= |s.flushing|
  {
    s.(flushed := s.flushed + s.flushing[..n], flushing := s.flushing[n..])
  }

  function WrittenTo(s: Stream, n: nat): Stream
    requires n <= |s.queue|
  {
    s.(written := s.written + s.queue[..n], queue := s.queue[n..])
  }

  lemma OneMoreFlushed(s: Stream, n: nat)
    requires n < |s.flushing|
    ensures FlushSend(FlushedTo(s, n), true) == FlushedTo(s, n + 1)
  {
    assert s.flushing[n..][0] == s.flushing[n] && s.flushing[n..][1..] == s.flushing[n + 1..];
    assert s.flushing[..n] + [s.flushing[n]] == s.flushing[..n + 1];
    AppendAssociates(s.flushed, s.flushing[..n], [s.flushing[n]]);
  }

  lemma OneMorePopped(s: Stream, n: nat)
    requires n < |s.queue| && s.writing.None?
    ensures WriterSent(WriterTakes(WrittenTo(s, n)), Ok) == WrittenTo(s, n + 1)
  {
    assert s.queue[n..][0] == s.queue[n] && s.queue[n..][1..] == s.queue[n + 1..];
    assert s.queue[..n] + [s.queue[n]] == s.queue[..n + 1];
    AppendAssociates(s.written, s.queue[..n], [s.queue[n]]);
  }

  lemma {:induction false} FlushesDeliver(s: Stream, n: nat)
    requires n <= |s.flushing|
    ensures MovedAll(s, Flushes(n)) == FlushedTo(s, n)
  {
    if n == 0 {
      assert s.flushed + s.flushing[..0] == s.flushed;
    } else {
      FlushesDeliver(s, n - 1);
      MovedOne(s, Flushes(n - 1), Flush(true));
      OneMoreFlushed(s, n - 1);
      MoveNames(FlushedTo(s, n - 1));
      hide MovedAll, Moved, FlushSend, FlushedTo;
    }
  }

  lemma {:induction false} PopsDeliver(s: Stream, n: nat)
    requires n <= |s.queue| && s.writing.None?
    ensures MovedAll(s, Pops(n)) == WrittenTo(s, n)
  {
    if n == 0 {
      assert s.written + s.queue[..0] == s.written;
    } else {
      PopsDeliver(s, n - 1);
      MovedOne(s, Pops(n - 1), Pop);
      MovedOne(s, Pops(n - 1) + [Pop], SendDone(Ok));
      OneMorePopped(s, n - 1);
      MoveNames(WrittenTo(s, n - 1));
      MoveNames(WriterTakes(WrittenTo(s, n - 1)));
      hide MovedAll, Moved, WriterSent, WriterTakes, WrittenTo;
    }
  }

  /** The flush's way to the end of the hold. */
  function HoldEnd(s: Stream): seq<Event> {
    Flushes(|s.flushing|) + ([Take] + (Flushes(|s.pending|) + [Take]))
  }

  lemma TakesPending(s: Stream)
    requires s.hold && s.conn && s.flushing == []
    ensures var t := FlushTake(s);
            if s.pending == [] then t == s.(hold := false) else t == s.(flushing := s.pending, pending := [])
  {
  }

  lemma TakeAlone(s: Stream)
    ensures MovedAll(s, [Take]) == FlushTake(s)
  {
    assert Front([Take]) == [] && MovedAll(s, []) == s;
  }

  /** A hold that is flushed without failure puts every held line on the socket in order, and is over. */
  lemma HoldIsFlushed(s: Stream)
    requires s.hold && s.conn
    ensures MovedAll(s, HoldEnd(s)) ==
            s.(hold := false, flushed := s.flushed + s.flushing + s.pending, flushing := [], pending := [])
  {
    var a := FlushedTo(s, |s.flushing|);
    FlushesDeliver(s, |s.flushing|);
    assert s.flushing[..|s.flushing|] == s.flushing && s.flushing[|s.flushing|..] == [];
    var rest := Flushes(|s.pending|) + [Take];
    MovedSum(s, Flushes(|s.flushing|), [Take] + rest);
    MovedSum(a, [Take], rest);
    TakeAlone(a);
    TakesPending(a);
    var b := FlushTake(a);
    MovedSum(b, Flushes(|s.pending|), [Take]);
    hide MovedAll, FlushTake;
    if s.pending == [] {
      LastTakeIsIdle(b);
      assert s.flushed + s.flushing + [] == s.flushed + s.flushing;
    } else {
      FlushesDeliver(b, |s.pending|);
      assert s.pending[..|s.pending|] == s.pending && s.pending[|s.pending|..] == [];
      TakeAlone(FlushedTo(b, |s.pending|));
      TakesPending(FlushedTo(b, |s.pending|));
    }
  }

  /** Once a hold is over another look at it changes nothing. */
  lemma LastTakeIsIdle(s: Stream)
    requires !s.hold
    ensures MovedAll(MovedAll(s, Flushes(0)), [Take]) == s
  {
    TakeAlone(s);
  }

  /** The writer's way to an empty queue. */
  function QueueEnd(s: Stream): seq<Event> {
    [PutOne] + ([SendDone(Ok)] + Pops(|PutChosen(s).queue|))
  }

  lemma OneAlone(s: Stream, e: Event)
    ensures MovedAll(s, [e]) == Moved(s, e)
  {
    assert Front([e]) == [] && MovedAll(s, []) == s;
  }

  lemma PickedIsQueued(s: Stream)
    requires s.chosen.None? || (!s.closed && |s.queue| < 256)
    ensures PutChosen(s) == s.(queue := s.queue + Opt(s.chosen), chosen := None)
  {
    assert s.queue + [] == s.queue;
  }

  lemma WritingIsWritten(s: Stream)
    ensures WriterSent(s, Ok) == s.(written := s.written + Opt(s.writing), writing := None)
  {
    assert s.written + [] == s.written;
  }

  lemma QueueIsWritten(s: Stream)
    requires s.chosen.None? || (!s.closed && |s.queue| < 256)
    ensures MovedAll(s, QueueEnd(s)) ==
            s.(written := s.written + Opt(s.writing) + (s.queue + Opt(s.chosen)), writing := None, queue := [],
               chosen := None)
  {
    var a := PutChosen(s);
    var n := |a.queue|;
    var b := WriterSent(a, Ok);
    PickedIsQueued(s);
    WritingIsWritten(a);
    MovedSum(s, [PutOne], [SendDone(Ok)] + Pops(n));
    MovedSum(a, [SendDone(Ok)], Pops(n));
    OneAlone(s, PutOne);
    OneAlone(a, SendDone(Ok));
    MoveNames(s);
    MoveNames(a);
    hide MovedAll, Moved, PutChosen, WriterSent, Opt;
    PopsDeliver(b, n);
    assert b.queue[..n] == b.queue && b.queue[n..] == [];
  }

  /**
    Nothing given waits forever: from any reachable state of a connected member whose picked line, if any, has room,
    the flush's and the writer's own moves put everything it was given on the socket, in order, and end its hold.
   */
  lemma PipeIsWritten(s: Stream) returns (es: seq<Event>)
    requires Shaped(s) && s.conn && (s.chosen.None? || (!s.closed && |s.queue| < 256))
    ensures Serving(es)
    ensures var t := MovedAll(s, es); Socket(t) == Pipe(s) && Pipe(t) == Pipe(s) && !t.hold
  {
    hide Sub;
    if s.hold {
      HoldIsFlushed(s);
      ServingMoves(|s.flushing|);
      ServingMoves(|s.pending|);
      es := HoldEnd(s);
      assert s.flushed + s.flushing + s.pending == s.flushed + (s.flushing + s.pending);
      hide MovedAll;
      assert OutPart(s) == [];
      SocketOfFlushed(s);
    } else {
      QueueIsWritten(s);
      ServingMoves(|PutChosen(s).queue|);
      es := QueueEnd(s);
      hide MovedAll;
      AppendAssociates(s.written, Opt(s.writing), s.queue + Opt(s.chosen));
      assert s.flushed + ([] + []) == s.flushed;
      SocketOfWritten(s);
    }
  }

  lemma SocketOfFlushed(s: Stream)
    requires OutPart(s) == [] && s.written == []
    ensures var t := s.(hold := false, flushed := s.flushed + s.flushing + s.pending, flushing := [], pending := []);
            Socket(t) == Pipe(s) && Pipe(t) == Pipe(s)
  {
    assert s.flushed + s.flushing + s.pending == s.flushed + (s.flushing + s.pending);
    var f := s.flushed + (s.flushing + s.pending);
    assert f + [] == f && f + ([] + []) == f;
  }

  lemma SocketOfWritten(s: Stream)
    requires s.flushing == [] && s.pending == []
    ensures var t := s.(written := s.written + Opt(s.writing) + (s.queue + Opt(s.chosen)), writing := None, queue := [],
                        chosen := None);
            Socket(t) == Pipe(s) && Pipe(t) == Pipe(s)
  {
    AppendAssociates(s.written, Opt(s.writing), s.queue + Opt(s.chosen));
    var w := s.written + (Opt(s.writing) + (s.queue + Opt(s.chosen)));
    assert s.flushed + ([] + []) == s.flushed && w + ([] + ([] + [])) == w;
  }

  // ----- A connection as the source keeps it -----

  /** pending and pendingUnreliable are kept side by side, index for index. */
  class Client {
    var conn: bool
    var hold: bool
    var pending: seq<Line>
    var pendingUnreliable: seq<bool>
    var flushing: seq<Line>
    ghost var chosen: Option<Line>
    ghost var queue: seq<Line>
    ghost var writing: Option<Line>
    ghost var closed: bool
    ghost var flushed: seq<Line>
    ghost var written: seq<Line>
    ghost var offered: seq<Line>
    ghost var resumed: bool

    ghost predicate Valid()
      reads this
    {
      && |pending| == |pendingUnreliable| && (chosen.Some? ==> !hold)
      && forall i | 0 <= i < |pending| :: pendingUnreliable[i] == pending[i].unreliable
    }

    ghost function Abs(): Stream
      reads this
    {
      Stream(conn, hold, pending, flushing, chosen, queue, writing, closed, flushed, written, offered, resumed)
    }

    constructor (resumed: bool)
      ensures Valid() && Abs() == NewStream(resumed)
    {
      conn, hold, pending, pendingUnreliable, flushing := true, true, [], [], [];
      chosen, queue, writing, closed, flushed, written, offered := None, [], None, false, [], [], [];
      this.resumed := resumed;
    }

    method FirstUnreliable() returns (drop: int)
      requires Valid()
      ensures drop == if OldestLossy(pending, 0) < |pending| then OldestLossy(pending, 0) else -1
    {
      var i := 0;
      while i < |pendingUnreliable|
        invariant 0 <= i <= |pending|
        invariant OldestLossy(pending, 0) == OldestLossy(pending, i)
      {
        if pendingUnreliable[i] {
          return i;
        }
        i := i + 1;
      }
      return -1;
    }

    /** forwardLine's part under the room's lock; picked says that the line goes on to the outbox. */
    method OfferLine(m: Line) returns (picked: bool)
      requires Valid()
      modifies this
      ensures Valid() && Abs() == Offer(old(Abs()), m)
      ensures picked == (conn && !hold)
    {
      if !conn {
        return false;
      }
      if !hold {
        chosen := Some(m);
        return true;
      }
      offered := offered + [m];
      var room := MakeRoom();
      if room {
        pending := pending + [m];
        pendingUnreliable := pendingUnreliable + [m.unreliable];
      }
      return false;
    }

    /** At a full hold the oldest lossy line makes way; without one there is no room. */
    method MakeRoom() returns (room: bool)
      requires Valid()
      modifies this`pending, this`pendingUnreliable
      ensures Valid()
      ensures room == old(|pending| < MAX_HELD || OldestLossy(pending, 0) < |pending|)
      ensures pending == if room && old(|pending|) >= MAX_HELD then old(Without(pending, OldestLossy(pending, 0)))
                         else old(pending)
    {
      if |pending| < MAX_HELD {
        return true;
      }
      var drop := FirstUnreliable();
      if drop < 0 {
        return false;
      }
      DropPending(drop);
      return true;
    }

    method DropPending(drop: nat)
      requires Valid() && drop < |pending|
      modifies this`pending, this`pendingUnreliable
      ensures Valid() && pending == Without(old(pending), drop)
    {
      pending := pending[..drop] + pending[drop + 1..];
      pendingUnreliable := pendingUnreliable[..drop] + pendingUnreliable[drop + 1..];
      forall i | 0 <= i < |pending|
        ensures pendingUnreliable[i] == pending[i].unreliable
      {
        var j := if i < drop then i else i + 1;
        assert pending[i] == old(pending)[j] && pendingUnreliable[i] == old(pendingUnreliable)[j];
      }
    }

    /** The flush's critical section: the hold ends only here, when nothing is held. */
    method TakePending() returns (more: bool)
      requires Valid() && hold && flushing == []
      modifies this
      ensures Valid() && Abs() == FlushTake(old(Abs()))
      ensures more <==> flushing != []
    {
      if |pending| == 0 {
        hold := false;
        return false;
      }
      if !conn {
        hold, pending, pendingUnreliable := false, [], [];
        return false;
      }
      flushing, pending, pendingUnreliable := pending, [], [];
      return true;
    }

    /** One write of the flush; a failed one drops everything held. */
    method FlushOne(ok: bool)
      requires Valid() && hold && flushing != []
      modifies this
      ensures Valid() && Abs() == FlushSend(old(Abs()), ok)
    {
      if ok {
        flushed := flushed + [flushing[0]];
        flushing := flushing[1..];
      } else {
        hold, pending, pendingUnreliable, flushing := false, [], [], [];
      }
    }
  }
}
