/**
  The bridge's outbound queue (core/adapterwriter.go, sendToAdapter in core/bridgeserve.go, tickRenders in
  core/remotes.go): a newer render replaces an unsent one in place, everything else keeps its order.
 */
module RenderQueue {
  import opened Lists
  import opened Wire

  const ADAPTER_QUEUE_CAP: nat := 8192

  datatype Message = Render(id: string, st: State) | Despawn(id: string) | Other(line: Text)

  type Ghosts = map<string, State>

  // ----- What the adapter draws -----

  function Drawn(g: Ghosts, m: Message): Ghosts {
    match m
    case Render(id, st) => g[id := st]
    case Despawn(id) => g - {id}
    case Other(_) => g
  }

  function Fold(g: Ghosts, ms: seq<Message>): Ghosts
    decreases |ms|
  {
    if ms == [] then g else Fold(Drawn(g, ms[0]), ms[1..])
  }

  function NonRenders(ms: seq<Message>): seq<Message> {
    if ms == [] then []
    else (if ms[0].Render? then [] else [ms[0]]) + NonRenders(ms[1..])
  }

  predicate Touches(m: Message, id: string) {
    !m.Other? && m.id == id
  }

  // ----- The queue without its index -----

  /** A queued message; open while a newer render for the same player may still take its place. */
  datatype Entry = Entry(msg: Message, open: bool)

  /** q waits, batch is being written, delivered is on the wire; sent is every message accepted; discarded says that
      queued messages were thrown away. */
  datatype Writer = Writer(
    q: seq<Entry>,
    batch: seq<Message>,
    delivered: seq<Message>,
    sent: seq<Message>,
    dropped: nat,
    closed: bool,
    discarded: bool)

  predicate OpenFor(e: Entry, id: string) {
    e.open && e.msg.Render? && e.msg.id == id
  }

  /** The first open render for id at or after index i, or |q|. */
  function FindOpen(q: seq<Entry>, id: string, i: nat): (k: nat)
    requires i <= |q|
    ensures i <= k <= |q|
    ensures k < |q| ==> OpenFor(q[k], id)
    ensures forall j | i <= j < k :: !OpenFor(q[j], id)
    decreases |q| - i
  {
    if i == |q| || OpenFor(q[i], id) then i else FindOpen(q, id, i + 1)
  }

  function Messages(q: seq<Entry>): (ms: seq<Message>)
    ensures |ms| == |q| && forall i | 0 <= i < |q| :: ms[i] == q[i].msg
  {
    seq(|q|, i requires 0 <= i < |q| => q[i].msg)
  }

  /** Accepting one message: a render takes the place of the player's open one; a full queue means a stuck adapter. */
  function Enqueued(w: Writer, m: Message): Writer {
    if w.closed then w
    else if m.Render? && m.id != "" && FindOpen(w.q, m.id, 0) < |w.q| then
      w.(q := w.q[FindOpen(w.q, m.id, 0) := Entry(m, true)], sent := w.sent + [m], dropped := w.dropped + 1)
    else if |w.q| >= ADAPTER_QUEUE_CAP then w.(closed := true)
    else w.(q := w.q + [Entry(m, m.Render? && m.id != "")], sent := w.sent + [m])
  }

  /** No render of this player may be replaced any more. */
  function Forgotten(w: Writer, id: string): Writer {
    w.(q := Shut(w.q, id))
  }

  function Shut(q: seq<Entry>, id: string): (r: seq<Entry>)
    ensures |r| == |q| && forall i | 0 <= i < |q| :: r[i] == q[i].(open := q[i].open && !OpenFor(q[i], id))
  {
    seq(|q|, i requires 0 <= i < |q| => q[i].(open := q[i].open && !OpenFor(q[i], id)))
  }

  /** The writer takes the whole queue, which commits it to the wire. */
  function Taken(w: Writer): Writer {
    if w.batch == [] then w.(q := [], batch := Messages(w.q)) else w
  }

  /** One write of the batch; a failed one ends the connection. */
  function Written(w: Writer, ok: bool): Writer {
    if w.batch == [] then w
    else if ok then w.(batch := w.batch[1..], delivered := w.delivered + [w.batch[0]])
    else w.(closed := true, q := [], batch := [], discarded := true)
  }

  function Closed(w: Writer): Writer {
    if w.closed then w else w.(closed := true, q := [], discarded := true)
  }

  function InOrder(w: Writer): seq<Message> {
    w.delivered + w.batch + Messages(w.q)
  }

  /** Nothing behind an open render concerns its player. */
  predicate OpenIsLast(q: seq<Entry>) {
    && (forall i | 0 <= i < |q| :: q[i].open ==> q[i].msg.Render? && q[i].msg.id != "")
    && (forall i, j | 0 <= i < j < |q| :: q[i].open ==> !Touches(q[j].msg, q[i].msg.id))
  }

  /** What is delivered and still queued draws what was sent, in the same order, and no message is unaccounted for. */
  ghost predicate Faithful(w: Writer) {
    && Fold(map[], InOrder(w)) == Fold(map[], w.sent)
    && NonRenders(InOrder(w)) == NonRenders(w.sent)
    && |w.sent| == |w.delivered| + |w.batch| + |w.q| + w.dropped
  }

  ghost predicate Inv(w: Writer) {
    && OpenIsLast(w.q)
    && |w.q| <= ADAPTER_QUEUE_CAP
    && (w.discarded ==> w.closed)
    && (!w.discarded ==> Faithful(w))
    && NonRenders(InOrder(w)) <= NonRenders(w.sent)
  }

  // ----- Folding -----

  lemma {:induction false} FoldAppend(g: Ghosts, a: seq<Message>, b: seq<Message>)
    ensures Fold(g, a + b) == Fold(Fold(g, a), b)
    decreases |a|
  {
    if a == [] {
      assert a + b == b;
    } else {
      assert (a + b)[1..] == a[1..] + b;
      FoldAppend(Drawn(g, a[0]), a[1..], b);
    }
  }

  lemma {:induction false} NonRendersAppend(a: seq<Message>, b: seq<Message>)
    ensures NonRenders(a + b) == NonRenders(a) + NonRenders(b)
  {
    if a == [] {
      assert a + b == b;
    } else {
      assert (a + b)[1..] == a[1..] + b;
      NonRendersAppend(a[1..], b);
    }
  }

  /** Messages about other players commute with drawing this one. */
  lemma {:induction false} DrawingCommutes(g: Ghosts, id: string, st: State, b: seq<Message>)
    requires forall i | 0 <= i < |b| :: !Touches(b[i], id)
    ensures Fold(g[id := st], b) == Fold(g, b)[id := st]
    decreases |b|
  {
    if b != [] {
      var m := b[0];
      assert !Touches(m, id);
      assert Drawn(g[id := st], m) == Drawn(g, m)[id := st];
      DrawingCommutes(Drawn(g, m), id, st, b[1..]);
    }
  }

  /** Replacing a render in place draws the same as sending the newer one last. */
  lemma ReplacingIsAppending(a: seq<Message>, id: string, x: State, y: State, b: seq<Message>)
    requires forall i | 0 <= i < |b| :: !Touches(b[i], id)
    ensures Fold(map[], a + ([Render(id, y)] + b)) == Fold(map[], a + ([Render(id, x)] + b) + [Render(id, y)])
    ensures NonRenders(a + ([Render(id, y)] + b)) == NonRenders(a + ([Render(id, x)] + b) + [Render(id, y)])
  {
    var g := Fold(map[], a);
    FoldAppend(map[], a, [Render(id, y)] + b);
    FoldAppend(map[], a, [Render(id, x)] + b);
    FoldAppend(map[], a + ([Render(id, x)] + b), [Render(id, y)]);
    FoldRender(g, id, y, b);
    FoldRender(g, id, x, b);
    FoldRender(Fold(g, b)[id := x], id, y, []);
    assert [Render(id, y)] + [] == [Render(id, y)];
    DrawingCommutes(g, id, x, b);
    DrawingCommutes(g, id, y, b);
    assert Fold(g, b)[id := x][id := y] == Fold(g, b)[id := y];
    ReplacingKeepsOrder(a, id, x, y, b);
  }

  lemma FoldRender(g: Ghosts, id: string, st: State, b: seq<Message>)
    ensures Fold(g, [Render(id, st)] + b) == Fold(g[id := st], b)
  {
    assert ([Render(id, st)] + b)[1..] == b;
  }

  lemma ReplacingKeepsOrder(a: seq<Message>, id: string, x: State, y: State, b: seq<Message>)
    ensures NonRenders(a + ([Render(id, y)] + b)) == NonRenders(a + ([Render(id, x)] + b) + [Render(id, y)])
  {
    NonRendersAppend(a, [Render(id, y)] + b);
    NonRendersAppend(a, [Render(id, x)] + b);
    NonRendersAppend(a + ([Render(id, x)] + b), [Render(id, y)]);
    assert ([Render(id, y)] + b)[1..] == b && ([Render(id, x)] + b)[1..] == b;
    assert [Render(id, y)][1..] == [];
  }

  // ----- Every step keeps the invariant -----

  lemma SplitMessages(a: seq<Entry>, e: Entry, b: seq<Entry>)
    ensures Messages(a + ([e] + b)) == Messages(a) + ([e.msg] + Messages(b))
  {
  }

  lemma ReplaceAt<T>(s: seq<T>, k: nat, x: T)
    requires k < |s|
    ensures s == s[..k] + ([s[k]] + s[k + 1..])
    ensures s[k := x] == s[..k] + ([x] + s[k + 1..])
  {
  }

  lemma Regroup<T>(a: seq<T>, b: seq<T>, c: seq<T>, d: seq<T>)
    ensures a + b + (c + d) == (a + b + c) + d
  {
  }

  lemma AppendKeepsFaith(o: seq<Message>, s: seq<Message>, m: Message)
    requires Fold(map[], o) == Fold(map[], s) && NonRenders(o) == NonRenders(s)
    ensures Fold(map[], o + [m]) == Fold(map[], s + [m]) && NonRenders(o + [m]) == NonRenders(s + [m])
  {
    FoldAppend(map[], o, [m]);
    FoldAppend(map[], s, [m]);
    NonRendersAppend(o, [m]);
    NonRendersAppend(s, [m]);
  }

  lemma OpenStaysLast(q: seq<Entry>, m: Message)
    requires OpenIsLast(q)
    requires m.Render? && m.id != "" ==> FindOpen(q, m.id, 0) == |q|
    requires m.Despawn? ==> forall i | 0 <= i < |q| :: !OpenFor(q[i], m.id)
    ensures OpenIsLast(q + [Entry(m, m.Render? && m.id != "")])
  {
    forall i | 0 <= i < |q| && q[i].open ensures !Touches(m, q[i].msg.id) {
      assert !m.Other? ==> !OpenFor(q[i], m.id);
    }
  }

  lemma ReplacingStaysLast(q: seq<Entry>, k: nat, m: Message)
    requires OpenIsLast(q) && k < |q| && m.Render? && OpenFor(q[k], m.id)
    ensures OpenIsLast(q[k := Entry(m, true)])
    ensures forall j | k < j < |q| :: !Touches(q[j].msg, m.id)
  {
  }

  lemma SplitQueue(d: seq<Message>, q: seq<Entry>, k: nat, m: Message)
    requires k < |q|
    ensures d + Messages(q) == d + Messages(q[..k]) + ([q[k].msg] + Messages(q[k + 1..]))
    ensures d + Messages(q[k := Entry(m, true)]) == d + Messages(q[..k]) + ([m] + Messages(q[k + 1..]))
  {
    ReplaceAt(q, k, Entry(m, true));
    SplitMessages(q[..k], q[k], q[k + 1..]);
    SplitMessages(q[..k], Entry(m, true), q[k + 1..]);
    AppendAssociates(d, Messages(q[..k]), [q[k].msg] + Messages(q[k + 1..]));
    AppendAssociates(d, Messages(q[..k]), [m] + Messages(q[k + 1..]));
  }

  /** Replacing the open render at k is sending the new one last, for the adapter and for the order of the rest. */
  lemma ReplacingInQueue(d: seq<Message>, q: seq<Entry>, k: nat, m: Message)
    requires OpenIsLast(q) && k < |q| && m.Render? && OpenFor(q[k], m.id)
    ensures Fold(map[], d + Messages(q[k := Entry(m, true)])) == Fold(map[], d + Messages(q) + [m])
    ensures NonRenders(d + Messages(q[k := Entry(m, true)])) == NonRenders(d + Messages(q) + [m])
  {
    var b := q[k + 1..];
    forall i | 0 <= i < |Messages(b)| ensures !Touches(Messages(b)[i], m.id) {
      assert b[i] == q[k + 1 + i];
    }
    SplitQueue(d, q, k, m);
    ReplacingIsAppending(d + Messages(q[..k]), m.id, q[k].msg.st, m.st, Messages(b));
  }

  lemma ReplaceKeepsInv(w: Writer, m: Message, k: nat)
    requires Inv(w) && !w.closed && m.Render? && m.id != ""
    requires k < |w.q| && OpenFor(w.q[k], m.id)
    ensures Inv(w.(q := w.q[k := Entry(m, true)], sent := w.sent + [m], dropped := w.dropped + 1))
  {
    ReplacingStaysLast(w.q, k, m);
    ReplacingInQueue(w.delivered + w.batch, w.q, k, m);
    AppendKeepsFaith(InOrder(w), w.sent, m);
  }

  lemma AppendKeepsInv(w: Writer, m: Message, open: bool)
    requires Inv(w) && !w.closed && |w.q| < ADAPTER_QUEUE_CAP
    requires OpenIsLast(w.q + [Entry(m, open)])
    ensures Inv(w.(q := w.q + [Entry(m, open)], sent := w.sent + [m]))
  {
    var r := w.(q := w.q + [Entry(m, open)], sent := w.sent + [m]);
    assert Messages(r.q) == Messages(w.q) + [m];
    AppendAssociates(w.delivered + w.batch, Messages(w.q), [m]);
    assert InOrder(r) == InOrder(w) + [m];
    AppendKeepsFaith(InOrder(w), w.sent, m);
  }

  /** A despawn needs every open render of its player shut first; everything else may be enqueued at any time. */
  lemma EnqueueKeepsInv(w: Writer, m: Message)
    requires Inv(w)
    requires m.Despawn? ==> FindOpen(w.q, m.id, 0) == |w.q|
    ensures Inv(Enqueued(w, m))
  {
    if !w.closed {
      if m.Render? && m.id != "" && FindOpen(w.q, m.id, 0) < |w.q| {
        ReplaceKeepsInv(w, m, FindOpen(w.q, m.id, 0));
      } else if |w.q| < ADAPTER_QUEUE_CAP {
        OpenStaysLast(w.q, m);
        AppendKeepsInv(w, m, m.Render? && m.id != "");
      }
    }
  }

  lemma ForgetKeepsInv(w: Writer, id: string)
    requires Inv(w)
    ensures Inv(Forgotten(w, id))
    ensures FindOpen(Forgotten(w, id).q, id, 0) == |w.q|
  {
    assert Messages(Forgotten(w, id).q) == Messages(w.q);
  }

  lemma TakeKeepsInv(w: Writer)
    requires Inv(w)
    ensures Inv(Taken(w)) && InOrder(Taken(w)) == InOrder(w)
  {
    assert InOrder(Taken(w)) == InOrder(w) by {
      if w.batch == [] {
        assert w.delivered + [] == w.delivered;
        assert InOrder(Taken(w)) == w.delivered + Messages(w.q) + [];
      }
    }
  }

  lemma WriteKeepsInv(w: Writer, ok: bool)
    requires Inv(w)
    ensures Inv(Written(w, ok))
    ensures ok ==> InOrder(Written(w, ok)) == InOrder(w)
  {
    if w.batch != [] {
      if ok {
        assert w.delivered + [w.batch[0]] + w.batch[1..] == w.delivered + w.batch;
      } else {
        AppendAssociates(w.delivered, w.batch, Messages(w.q));
        DiscardKeepsOrder(w.delivered, w.batch + Messages(w.q), w.sent);
        assert InOrder(Written(w, false)) == w.delivered;
      }
    }
  }

  lemma DiscardKeepsOrder(kept: seq<Message>, lost: seq<Message>, sent: seq<Message>)
    requires NonRenders(kept + lost) <= NonRenders(sent)
    ensures NonRenders(kept) <= NonRenders(sent)
  {
    NonRendersAppend(kept, lost);
  }

  lemma CloseKeepsInv(w: Writer)
    requires Inv(w)
    ensures Inv(Closed(w))
  {
    if !w.closed {
      DiscardKeepsOrder(w.delivered + w.batch, Messages(w.q), w.sent);
      assert InOrder(Closed(w)) == w.delivered + w.batch;
    }
  }

  // ----- Runs -----

  datatype Op = Enqueue(m: Message) | Forget(id: string) | Take | Write(ok: bool) | Close

  function Step(w: Writer, op: Op): Writer {
    match op
    case Enqueue(m) => Enqueued(w, m)
    case Forget(id) => Forgotten(w, id)
    case Take => Taken(w)
    case Write(ok) => Written(w, ok)
    case Close => Closed(w)
  }

  function Run(w: Writer, ops: seq<Op>): Writer {
    if ops == [] then w else Step(Run(w, Front(ops)), Last(ops))
  }

  /** The messages a run tries to send, in order. */
  function Sends(ops: seq<Op>): seq<Message> {
    if ops == [] then []
    else if Last(ops).Enqueue? then Sends(Front(ops)) + [Last(ops).m]
    else Sends(Front(ops))
  }

  /** The players forgotten since their last render. */
  function Fresh(ops: seq<Op>): set<string> {
    if ops == [] then {}
    else
      var before := Fresh(Front(ops));
      match Last(ops)
      case Forget(id) => before + {id}
      case Enqueue(Render(id, _)) => before - {id}
      case _ => before
  }

  /**
    What one frame loop does, freely interleaved with the writer and with every other producer: a despawn is sent
    only for a player forgotten with no render of that player in between.
   */
  predicate Disciplined(ops: seq<Op>) {
    ops == [] ||
    (Disciplined(Front(ops)) &&
     match Last(ops)
     case Enqueue(Despawn(id)) => id in Fresh(Front(ops))
     case _ => true)
  }

  ghost predicate AllShut(q: seq<Entry>, ids: set<string>) {
    forall i | 0 <= i < |q| :: q[i].open && q[i].msg.Render? ==> q[i].msg.id !in ids
  }

  lemma StepKeepsShut(w: Writer, op: Op, before: set<string>, after: set<string>)
    requires AllShut(w.q, before)
    requires after == match op
                      case Forget(id) => before + {id}
                      case Enqueue(Render(id, _)) => before - {id}
                      case _ => before
    ensures AllShut(Step(w, op).q, after)
  {
  }

  const FRESH_WRITER := Writer([], [], [], [], 0, false, false)

  lemma {:induction false} RunKeepsInv(ops: seq<Op>)
    requires Disciplined(ops)
    ensures Inv(Run(FRESH_WRITER, ops)) && AllShut(Run(FRESH_WRITER, ops).q, Fresh(ops))
  {
    if ops != [] {
      var w, op := Run(FRESH_WRITER, Front(ops)), Last(ops);
      RunKeepsInv(Front(ops));
      StepKeepsShut(w, op, Fresh(Front(ops)), Fresh(ops));
      match op {
        case Enqueue(m) => EnqueueKeepsInv(w, m);
        case Forget(id) => ForgetKeepsInv(w, id);
        case Take => TakeKeepsInv(w);
        case Write(ok) => WriteKeepsInv(w, ok);
        case Close => CloseKeepsInv(w);
      }
    }
  }

  lemma {:induction false} OpenRunAcceptsAll(w: Writer, ops: seq<Op>)
    requires !Run(w, ops).closed
    ensures !w.closed && Run(w, ops).sent == w.sent + Sends(ops)
  {
    if ops == [] {
      assert w.sent + [] == w.sent;
    } else {
      OpenRunAcceptsAll(w, Front(ops));
      if Last(ops).Enqueue? {
        AppendAssociates(w.sent, Sends(Front(ops)), [Last(ops).m]);
      }
    }
  }

  /**
    In every disciplined run that discards nothing, delivered-then-queued draws exactly what every accepted message
    would have drawn, and all other messages keep their order, exactly once. Even a connection that died delivered
    them as a prefix.
   */
  lemma CoalescingPreservesMeaning(ops: seq<Op>)
    requires Disciplined(ops)
    ensures var w := Run(FRESH_WRITER, ops);
            && (!w.closed ==> w.sent == Sends(ops))
            && (!w.discarded ==> Fold(map[], InOrder(w)) == Fold(map[], w.sent))
            && (!w.discarded ==> NonRenders(InOrder(w)) == NonRenders(w.sent))
            && NonRenders(w.delivered) <= NonRenders(w.sent)
            && |w.q| <= ADAPTER_QUEUE_CAP
  {
    var w := Run(FRESH_WRITER, ops);
    RunKeepsInv(ops);
    if !w.closed {
      OpenRunAcceptsAll(FRESH_WRITER, ops);
    }
    AppendAssociates(w.delivered, w.batch, Messages(w.q));
    DiscardKeepsOrder(w.delivered, w.batch + Messages(w.q), w.sent);
  }

  lemma RunAppend(w: Writer, ops: seq<Op>, op: Op)
    ensures Run(w, ops + [op]) == Step(Run(w, ops), op)
  {
    assert Front(ops + [op]) == ops;
  }

  /** Two producers that interleave inside one despawn. */
  function Overtaking(id: string, x: State, y: State): seq<Op> {
    [Enqueue(Render(id, x))] + [Forget(id)] + [Enqueue(Render(id, y))] + [Enqueue(Despawn(id))]
  }

  lemma OvertakingRuns(id: string, x: State, y: State)
    requires id != ""
    ensures var w := Run(FRESH_WRITER, Overtaking(id, x, y));
            && w.q == [Entry(Render(id, x), false), Entry(Render(id, y), true), Entry(Despawn(id), false)]
            && w.sent == [Render(id, x), Render(id, y), Despawn(id)]
            && w.delivered == [] && w.batch == [] && !w.closed
  {
    var a := [Enqueue(Render(id, x))];
    assert Front(a) == [];
    assert Run(FRESH_WRITER, a).q == [Entry(Render(id, x), true)];
    RunAppend(FRESH_WRITER, a, Forget(id));
    var b := a + [Forget(id)];
    assert Run(FRESH_WRITER, b).q == [Entry(Render(id, x), false)];
    RunAppend(FRESH_WRITER, b, Enqueue(Render(id, y)));
    var c := b + [Enqueue(Render(id, y))];
    assert Run(FRESH_WRITER, c).q == [Entry(Render(id, x), false), Entry(Render(id, y), true)];
    RunAppend(FRESH_WRITER, c, Enqueue(Despawn(id)));
  }

  lemma FoldStep(g: Ghosts, m: Message, ms: seq<Message>)
    ensures Fold(g, [m] + ms) == Fold(Drawn(g, m), ms)
  {
    assert ([m] + ms)[1..] == ms;
  }

  lemma FoldOne(g: Ghosts, m: Message)
    ensures Fold(g, [m]) == Drawn(g, m)
  {
    assert [m][1..] == [];
  }

  lemma FoldThree(x: Message, y: Message, z: Message)
    ensures Fold(map[], [x] + [y] + [z]) == Drawn(Drawn(Drawn(map[], x), y), z)
  {
    FoldAppend(map[], [x] + [y], [z]);
    FoldStep(map[], x, [y]);
    FoldOne(Drawn(map[], x), y);
    FoldOne(Drawn(Drawn(map[], x), y), z);
  }

  /** Without the discipline the meaning is lost: the newest render slips in front of the despawn. */
  lemma DisciplineIsNeeded(id: string, x: State, y: State, z: State)
    requires id != ""
    ensures var ops := Overtaking(id, x, y) + [Enqueue(Render(id, z))];
            var w := Run(FRESH_WRITER, ops);
            && !Disciplined(ops)
            && Fold(map[], InOrder(w)) == map[]
            && Fold(map[], w.sent) == map[id := z]
  {
    var ops := Overtaking(id, x, y);
    OvertakingRuns(id, x, y);
    NotDisciplined(id, x, y);
    assert Front(ops + [Enqueue(Render(id, z))]) == ops;
    hide Fold, Run;
    RunAppend(FRESH_WRITER, ops, Enqueue(Render(id, z)));
    OvertakingEnds(Run(FRESH_WRITER, ops), id, x, y, z);
    FoldThree(Render(id, x), Render(id, z), Despawn(id));
    FoldThree(Render(id, x), Render(id, y), Despawn(id));
    FoldAppend(map[], [Render(id, x)] + [Render(id, y)] + [Despawn(id)], [Render(id, z)]);
    FoldOne(Fold(map[], [Render(id, x)] + [Render(id, y)] + [Despawn(id)]), Render(id, z));
  }

  lemma OvertakingEnds(v: Writer, id: string, x: State, y: State, z: State)
    requires id != "" && !v.closed && v.delivered == [] && v.batch == []
    requires v.q == [Entry(Render(id, x), false), Entry(Render(id, y), true), Entry(Despawn(id), false)]
    requires v.sent == [Render(id, x), Render(id, y), Despawn(id)]
    ensures var w := Enqueued(v, Render(id, z));
            && InOrder(w) == [Render(id, x)] + [Render(id, z)] + [Despawn(id)]
            && w.sent == [Render(id, x)] + [Render(id, y)] + [Despawn(id)] + [Render(id, z)]
  {
    assert FindOpen(v.q, id, 0) == 1;
    assert Enqueued(v, Render(id, z)).q ==
           [Entry(Render(id, x), false), Entry(Render(id, z), true), Entry(Despawn(id), false)];
  }

  lemma NotDisciplined(id: string, x: State, y: State)
    ensures !Disciplined(Overtaking(id, x, y))
  {
    var c := [Enqueue(Render(id, x))] + [Forget(id)] + [Enqueue(Render(id, y))];
    assert Front(Overtaking(id, x, y)) == c;
    assert id !in Fresh(c);
  }

  // ----- What one message does, and when the connection ends -----

  /** An unsent render of m's player stands at k and may be replaced. */
  predicate Replaceable(q: seq<Entry>, m: Message, k: nat) {
    k < |q| && m.Render? && m.id != "" && q[k].open && q[k].msg.Render? && q[k].msg.id == m.id
  }

  /**
    An open connection ends at a message if and only if 8192 wait and no unsent render of its player can be replaced.
    Otherwise the message is accepted: it takes that render's place, or joins the end, where a render may be replaced in
    its turn; nothing else in the queue moves.
   */
  lemma EnqueueIsHeeded(w: Writer, m: Message)
    requires !w.closed
    ensures var v := Enqueued(w, m);
            && (v.closed <==> |w.q| >= 8192 && forall k: nat :: !Replaceable(w.q, m, k))
            && v.batch == w.batch && v.delivered == w.delivered && v.discarded == w.discarded
            && (v.closed ==> v.sent == w.sent && v.q == w.q)
            && (!v.closed ==>
                  && v.sent == w.sent + [m]
                  && if exists k: nat :: Replaceable(w.q, m, k)
                     then exists k: nat :: Replaceable(w.q, m, k) && v.q == w.q[k := Entry(m, true)]
                     else v.q == w.q + [Entry(m, m.Render? && m.id != "")])
  {
    if m.Render? && m.id != "" {
      var k := FindOpen(w.q, m.id, 0);
      assert k < |w.q| ==> Replaceable(w.q, m, k);
      assert forall j: nat | Replaceable(w.q, m, j) :: OpenFor(w.q[j], m.id);
    }
  }

  /** The step ends an open connection: nobody reads it, a write to it fails, or it is closed. */
  ghost predicate Ends(w: Writer, op: Op) {
    match op
    case Enqueue(m) => |w.q| >= 8192 && forall k: nat :: !Replaceable(w.q, m, k)
    case Write(ok) => !ok && w.batch != []
    case Close => true
    case _ => false
  }

  /** A step of the run ended the connection. */
  ghost predicate Ended(w: Writer, ops: seq<Op>) {
    ops != [] && (Ended(w, Front(ops)) || Ends(Run(w, Front(ops)), Last(ops)))
  }

  /** In every run a connection is closed if and only if one of those steps was taken. */
  lemma {:induction false} ClosedOnlyWhenEnded(ops: seq<Op>)
    ensures Run(FRESH_WRITER, ops).closed <==> Ended(FRESH_WRITER, ops)
  {
    if ops != [] {
      ClosedOnlyWhenEnded(Front(ops));
      var w, op := Run(FRESH_WRITER, Front(ops)), Last(ops);
      if op.Enqueue? && !w.closed {
        EnqueueIsHeeded(w, op.m);
      }
      hide Replaceable, FindOpen;
    }
  }

  /** Forgetting a player shuts its renders and leaves every other player's replaceable. */
  lemma ForgetIsExact(w: Writer, id: string, i: nat)
    requires i < |w.q|
    ensures var v := Forgotten(w, id);
            && v.q[i].msg == w.q[i].msg
            && (v.q[i].open <==> w.q[i].open && !(w.q[i].msg.Render? && w.q[i].msg.id == id))
            && v == w.(q := v.q) && |v.q| == |w.q|
  {
  }

  /** Taking and writing alone, n writes deep. */
  function Writes(n: nat): seq<Op> {
    if n == 0 then [] else Writes(n - 1) + [Write(true)]
  }

  lemma {:induction false} WritesDeliver(w: Writer, n: nat)
    requires n <= |w.batch|
    ensures var v := Run(w, Writes(n));
            && v.delivered == w.delivered + w.batch[..n] && v.batch == w.batch[n..]
            && v == w.(delivered := v.delivered, batch := v.batch)
  {
    if n == 0 {
      assert w.delivered + w.batch[..0] == w.delivered;
    } else {
      WritesDeliver(w, n - 1);
      RunAppend(w, Writes(n - 1), Write(true));
      var u, x := Run(w, Writes(n - 1)), w.batch[n - 1];
      var v := Written(u, true);
      hide Run, Writes;
      assert u.batch[0] == x && u.batch[1..] == w.batch[n..];
      AppendAssociates(w.delivered, w.batch[..n - 1], [x]);
      assert w.batch[..n - 1] + [x] == w.batch[..n];
    }
  }

  lemma {:induction false} RunSum(w: Writer, a: seq<Op>, b: seq<Op>)
    ensures Run(w, a + b) == Run(Run(w, a), b)
  {
    if b == [] {
      assert a + b == a;
    } else {
      FrontOfAppend(a, b);
      RunSum(w, a, Front(b));
    }
  }

  /** The writer's way to an empty queue: finish the batch, take the queue, write it. */
  function Drain(w: Writer): seq<Op> {
    Writes(|w.batch|) + ([Take] + Writes(|w.q|))
  }

  /** A writer whose writes succeed delivers everything that waits, in order, and ends with nothing left. */
  lemma DrainDelivers(w: Writer)
    ensures var v := Run(w, Drain(w));
            && v.delivered == InOrder(w) && v.q == [] && v.batch == []
            && v.closed == w.closed && v.discarded == w.discarded && v.sent == w.sent
  {
    var n := |w.batch|;
    WritesDeliver(w, n);
    assert w.batch[..n] == w.batch && w.batch[n..] == [];
    var a := Run(w, Writes(n));
    RunSum(w, Writes(n), [Take] + Writes(|w.q|));
    RunSum(a, [Take], Writes(|w.q|));
    assert Front([Take]) == [] && Run(a, [Take]) == Taken(a);
    var b := Taken(a);
    assert |b.batch| == |w.q|;
    WritesDeliver(b, |w.q|);
    assert b.batch[..|w.q|] == b.batch && b.batch[|w.q|..] == [];
  }

  /** A failed write gives up everything not delivered, and a close what is queued but not the batch being written. */
  lemma EndingDiscards(w: Writer)
    ensures var v := Written(w, false);
            w.batch != [] ==> v == w.(closed := true, discarded := true, q := [], batch := [])
    ensures var v := Closed(w);
            v.closed && v.batch == w.batch && v.delivered == w.delivered && v.sent == w.sent
            && (!w.closed ==> v.discarded && v.q == []) && (w.closed ==> v == w)
  {
  }

  // ----- A tick -----

  /** The messages the adapter draws, without the others that ride along. */
  function Draws(ms: seq<Message>): seq<Message> {
    if ms == [] then [] else Draws(Front(ms)) + if Last(ms).Other? then [] else [Last(ms)]
  }

  lemma {:induction false} OthersAreSilent(g: Ghosts, ms: seq<Message>)
    ensures Fold(g, Draws(ms)) == Fold(g, ms)
  {
    if ms != [] {
      OthersAreSilent(g, Front(ms));
      assert ms == Front(ms) + [Last(ms)];
      FoldAppend(g, Front(ms), [Last(ms)]);
      FoldAppend(g, Draws(Front(ms)), [Last(ms)]);
      FoldOne(Fold(g, Front(ms)), Last(ms));
      assert Draws(Front(ms)) + [] == Draws(Front(ms));
    }
  }

  /** A render of every current player, in any order. */
  function RendersOf(current: Ghosts, order: seq<string>): (ms: seq<Message>)
    requires forall id | id in order :: id in current
  {
    if order == [] then []
    else RendersOf(current, Front(order)) + [Render(Last(order), current[Last(order)])]
  }

  function DespawnsOf(order: seq<string>): (ms: seq<Message>) {
    if order == [] then [] else DespawnsOf(Front(order)) + [Despawn(Last(order))]
  }

  lemma {:induction false} RendersDraw(g: Ghosts, current: Ghosts, order: seq<string>)
    requires forall id | id in order :: id in current
    ensures var r := Fold(g, RendersOf(current, order));
            && (forall id :: id in r <==> id in g || id in order)
            && forall id | id in r :: r[id] == if id in order then current[id] else g[id]
  {
    if order != [] {
      var id := Last(order);
      RendersDraw(g, current, Front(order));
      FoldAppend(g, RendersOf(current, Front(order)), [Render(id, current[id])]);
      FoldOne(Fold(g, RendersOf(current, Front(order))), Render(id, current[id]));
      assert order == Front(order) + [id];
      assert forall k :: k in order <==> k in Front(order) || k == id;
    }
  }

  lemma {:induction false} DespawnsErase(g: Ghosts, order: seq<string>)
    ensures var r := Fold(g, DespawnsOf(order));
            && (forall id :: id in r <==> id in g && id !in order)
            && forall id | id in r :: r[id] == g[id]
  {
    if order != [] {
      var id := Last(order);
      DespawnsErase(g, Front(order));
      FoldAppend(g, DespawnsOf(Front(order)), [Despawn(id)]);
      FoldOne(Fold(g, DespawnsOf(Front(order))), Despawn(id));
      assert order == Front(order) + [id];
      assert forall k :: k in order <==> k in Front(order) || k == id;
    }
  }

  /** Whatever was drawn before, a tick draws exactly its current set when it despawns whoever dropped out. */
  lemma TickDrawsCurrent(g: Ghosts, current: Ghosts, shown: seq<string>, gone: seq<string>)
    requires forall id :: id in shown <==> id in current
    requires forall id :: id in gone <==> id in g && id !in current
    ensures Fold(g, RendersOf(current, shown) + DespawnsOf(gone)) == current
  {
    FoldAppend(g, RendersOf(current, shown), DespawnsOf(gone));
    RendersDraw(g, current, shown);
    DespawnsErase(Fold(g, RendersOf(current, shown)), gone);
  }

  /**
    After a tick, however its messages interleave with the writer and with other producers, what the adapter will
    have drawn once everything is written is exactly that tick's current set.
   */
  lemma TickReachesAdapter(before: seq<Op>, tick: seq<Op>, current: Ghosts, shown: seq<string>, gone: seq<string>)
    requires Disciplined(before + tick) && !Run(FRESH_WRITER, before + tick).closed
    requires forall id :: id in shown <==> id in current
    requires forall id :: id in gone <==> id in Fold(map[], Sends(before)) && id !in current
    requires Draws(Sends(tick)) == RendersOf(current, shown) + DespawnsOf(gone)
    ensures var w := Run(FRESH_WRITER, before + tick);
            && Fold(map[], InOrder(w)) == current
            && (w.q == [] && w.batch == [] ==> Fold(map[], w.delivered) == current)
  {
    var w := Run(FRESH_WRITER, before + tick);
    CoalescingPreservesMeaning(before + tick);
    RunKeepsInv(before + tick);
    SendsAppend(before, tick);
    FoldAppend(map[], Sends(before), Sends(tick));
    OthersAreSilent(Fold(map[], Sends(before)), Sends(tick));
    TickDrawsCurrent(Fold(map[], Sends(before)), current, shown, gone);
    if w.q == [] && w.batch == [] {
      assert InOrder(w) == w.delivered;
    }
  }

  lemma {:induction false} SendsAppend(a: seq<Op>, b: seq<Op>)
    ensures Sends(a + b) == Sends(a) + Sends(b)
  {
    if b == [] {
      assert a + b == a && Sends(a) + [] == Sends(a);
    } else {
      FrontOfAppend(a, b);
      SendsAppend(a, Front(b));
      if Last(b).Enqueue? {
        AppendAssociates(Sends(a), Sends(Front(b)), [Last(b).m]);
      }
    }
  }

  // ----- The queue with its index -----

  lemma FindOpenAt(q: seq<Entry>, id: string, i: nat, k: nat)
    requires i <= k <= |q|
    requires forall j | i <= j < k :: !OpenFor(q[j], id)
    requires k < |q| ==> OpenFor(q[k], id)
    ensures FindOpen(q, id, i) == k
    decreases k - i
  {
    if i < k {
      FindOpenAt(q, id, i + 1, k);
    }
  }

  /** The queue as the source keeps it: pending maps a player to the index of the render that may be replaced. */
  class AdapterWriter {
    var q: seq<Message>
    var pending: map<string, nat>
    var batch: seq<Message>
    var closed: bool
    var dropped: nat
    ghost var delivered: seq<Message>
    ghost var sent: seq<Message>
    ghost var discarded: bool

    /** pending points at renders; it goes stale only when the queue is thrown away. */
    ghost predicate Valid()
      reads this
    {
      || (closed && q == [])
      || forall id | id in pending :: id != "" && pending[id] < |q| && q[pending[id]].Render? && q[pending[id]].id == id
    }

    ghost function Abs(): Writer
      reads this
    {
      Writer(Entries(q, pending), batch, delivered, sent, dropped, closed, discarded)
    }

    constructor ()
      ensures Valid() && Abs() == FRESH_WRITER
    {
      q, pending, batch, closed, dropped := [], map[], [], false, 0;
      delivered, sent, discarded := [], [], false;
    }

    method Enqueue(m: Message) returns (ok: bool)
      requires Valid()
      modifies this
      ensures Valid() && Abs() == Enqueued(old(Abs()), m)
      ensures ok == !closed
    {
      if closed {
        return false;
      }
      if m.Render? && m.id != "" {
        FindPending(q, pending, m.id);
        if m.id in pending {
          Supersede(m);
          return true;
        }
      }
      if |q| >= ADAPTER_QUEUE_CAP {
        closed := true;
        return false;
      }
      Append(m);
      return true;
    }

    /** A newer render takes the unsent one's place. */
    method Supersede(m: Message)
      requires Valid() && !closed && m.Render? && m.id in pending
      modifies this`q, this`dropped, this`sent
      ensures Valid()
      ensures Entries(q, pending) == old(Entries(q, pending)[pending[m.id] := Entry(m, true)])
      ensures dropped == old(dropped) + 1 && sent == old(sent) + [m]
    {
      var i := pending[m.id];
      ReplaceEntry(q, pending, i, m);
      q := q[i := m];
      dropped := dropped + 1;
      sent := sent + [m];
    }

    method Append(m: Message)
      requires Valid() && !closed
      requires m.Render? ==> m.id !in pending
      modifies this`q, this`pending, this`sent
      ensures Valid()
      ensures Entries(q, pending) == old(Entries(q, pending)) + [Entry(m, m.Render? && m.id != "")]
      ensures sent == old(sent) + [m]
    {
      AppendEntry(q, pending, m);
      q := q + [m];
      if m.Render? && m.id != "" {
        pending := pending[m.id := |q| - 1];
      }
      sent := sent + [m];
    }

    method ForgetPending(id: string)
      requires Valid()
      modifies this`pending
      ensures Valid() && Abs() == Forgotten(old(Abs()), id)
    {
      assert Entries(q, pending - {id}) == Shut(Entries(q, pending), id);
      pending := pending - {id};
    }

    /** The writer takes the queue when it has written its last batch. */
    method TakeBatch()
      requires Valid()
      modifies this
      ensures Valid() && Abs() == Taken(old(Abs()))
    {
      if batch == [] {
        assert Messages(Entries(q, pending)) == q;
        batch := q;
        q := [];
        pending := map[];
      }
    }

    /** One write to the adapter; ok is what the socket answers. */
    method SendNext(ok: bool)
      requires Valid()
      modifies this
      ensures Valid() && Abs() == Written(old(Abs()), ok)
    {
      if batch == [] {
        return;
      }
      if ok {
        delivered := delivered + [batch[0]];
        batch := batch[1..];
      } else {
        closed := true;
        discarded := true;
        q := [];
        batch := [];
      }
    }

    method Close()
      requires Valid()
      modifies this
      ensures Valid() && Abs() == Closed(old(Abs()))
    {
      if closed {
        return;
      }
      closed := true;
      discarded := true;
      q := [];
    }

    /** sendToAdapter: a despawn first shuts the player's unsent render. */
    method SendToAdapter(m: Message) returns (ok: bool)
      requires Valid()
      modifies this
      ensures Valid() && ok == !closed
      ensures Abs() == Enqueued(if m.Despawn? then Forgotten(old(Abs()), m.id) else old(Abs()), m)
    {
      if m.Despawn? {
        ForgetPending(m.id);
      }
      ok := Enqueue(m);
    }
  }

  ghost function Entries(q: seq<Message>, pending: map<string, nat>): (r: seq<Entry>)
    ensures |r| == |q|
    ensures forall i | 0 <= i < |q| :: r[i].msg == q[i]
    ensures forall i | 0 <= i < |q| :: r[i].open == (q[i].Render? && q[i].id in pending && pending[q[i].id] == i)
  {
    seq(|q|, i requires 0 <= i < |q| => Entry(q[i], q[i].Render? && q[i].id in pending && pending[q[i].id] == i))
  }

  /** The index answers what a search of the queue would. */
  lemma FindPending(q: seq<Message>, pending: map<string, nat>, id: string)
    requires id in pending ==> pending[id] < |q| && q[pending[id]].Render? && q[pending[id]].id == id
    ensures FindOpen(Entries(q, pending), id, 0) == if id in pending then pending[id] else |q|
  {
    FindOpenAt(Entries(q, pending), id, 0, if id in pending then pending[id] else |q|);
  }

  lemma ReplaceEntry(q: seq<Message>, pending: map<string, nat>, i: nat, m: Message)
    requires i < |q| && q[i].Render? && m.Render? && q[i].id == m.id
    requires m.id in pending && pending[m.id] == i
    ensures Entries(q[i := m], pending) == Entries(q, pending)[i := Entry(m, true)]
  {
  }

  lemma AppendEntry(q: seq<Message>, pending: map<string, nat>, m: Message)
    requires forall id | id in pending :: pending[id] < |q|
    requires m.Render? && m.id != "" ==> m.id !in pending
    requires "" !in pending
    ensures m.Render? && m.id != "" ==>
              Entries(q + [m], pending[m.id := |q|]) == Entries(q, pending) + [Entry(m, true)]
    ensures !(m.Render? && m.id != "") ==> Entries(q + [m], pending) == Entries(q, pending) + [Entry(m, false)]
  {
  }

  /** Sending keeps the invariant, and what it adds is drawn last. */
  lemma SendDraws(w: Writer, m: Message)
    requires Inv(w)
    ensures var r := Enqueued(if m.Despawn? then Forgotten(w, m.id) else w, m);
            Inv(r) && (w.closed ==> r.closed) &&
            (!r.closed ==> Fold(map[], r.sent) == Drawn(Fold(map[], w.sent), m))
  {
    var v := if m.Despawn? then Forgotten(w, m.id) else w;
    if m.Despawn? {
      ForgetKeepsInv(w, m.id);
    }
    EnqueueKeepsInv(v, m);
    FoldAppend(map[], w.sent, [m]);
    FoldOne(Fold(map[], w.sent), m);
  }

  /** r shows the players of ids, those of done as current has them. */
  ghost predicate Shows(r: Ghosts, ids: set<string>, current: Ghosts, done: set<string>) {
    r.Keys == ids && done <= ids && forall id | id in done :: id in current && r[id] == current[id]
  }

  /** The connection's state between the messages of one tick. */
  ghost predicate MidTick(w: Writer, ids: set<string>, current: Ghosts, done: set<string>) {
    Inv(w) && (!w.closed ==> Shows(Fold(map[], w.sent), ids, current, done))
  }

  lemma RenderSent(w: Writer, id: string, ids: set<string>, current: Ghosts, done: set<string>)
    requires MidTick(w, ids, current, done) && id in current
    ensures MidTick(Enqueued(w, Render(id, current[id])), ids + {id}, current, done + {id})
  {
    SendDraws(w, Render(id, current[id]));
  }

  lemma DespawnSent(w: Writer, id: string, ids: set<string>, current: Ghosts, done: set<string>)
    requires MidTick(w, ids, current, done) && id !in done
    ensures MidTick(Enqueued(Forgotten(w, id), Despawn(id)), ids - {id}, current, done)
  {
    SendDraws(w, Despawn(id));
  }

  /** A connection found gone stays as it is. */
  lemma GoneIsMidTick(w: Writer, ids: set<string>, current: Ghosts, done: set<string>)
    requires Inv(w) && w.closed
    ensures MidTick(w, ids, current, done)
  {
  }

  method RenderCurrent(w: AdapterWriter, current: Ghosts, rendered: set<string>)
    returns (now: set<string>, gone: bool)
    requires w.Valid() && MidTick(w.Abs(), rendered, current, {})
    modifies w
    ensures w.Valid() && MidTick(w.Abs(), now, current, current.Keys)
    ensures now == rendered + current.Keys && (gone ==> w.closed)
  {
    gone := false;
    now := rendered;
    var todo, done := current.Keys, {};
    while todo != {}
      invariant todo + done == current.Keys && now == rendered + done
      invariant w.Valid() && (gone ==> w.closed)
      invariant MidTick(w.Abs(), now, current, done)
      decreases todo
    {
      var id :| id in todo;
      if !gone {
        RenderSent(w.Abs(), id, now, current, done);
        var ok := w.SendToAdapter(Render(id, current[id]));
        gone := !ok;
      }
      todo, done, now := todo - {id}, done + {id}, now + {id};
      if gone {
        GoneIsMidTick(w.Abs(), now, current, done);
      }
    }
  }

  /**
    One tick of the frame loop: a render for every current player, then a despawn for every player shown before and
    not current. Once the connection is known to be gone nothing more is sent.
   */
  method TickRenders(w: AdapterWriter, current: Ghosts, rendered: set<string>)
    returns (now: set<string>, gone: bool)
    requires w.Valid() && Inv(w.Abs())
    requires !w.closed ==> Fold(map[], w.sent).Keys == rendered
    modifies w
    ensures w.Valid() && Inv(w.Abs())
    ensures now == current.Keys
    ensures !w.closed ==> Fold(map[], w.sent) == current
    ensures gone ==> w.closed
  {
    now, gone := RenderCurrent(w, current, rendered);
    now, gone := DespawnGone(w, current, now, gone);
  }

  method DespawnGone(w: AdapterWriter, current: Ghosts, rendered: set<string>, dead: bool)
    returns (now: set<string>, gone: bool)
    requires w.Valid() && MidTick(w.Abs(), rendered, current, current.Keys)
    requires current.Keys <= rendered && (dead ==> w.closed)
    modifies w
    ensures w.Valid() && MidTick(w.Abs(), current.Keys, current, current.Keys)
    ensures now == current.Keys && (gone ==> w.closed)
  {
    now, gone := rendered, dead;
    var todo := now - current.Keys;
    while todo != {}
      invariant current.Keys <= now && todo == now - current.Keys
      invariant w.Valid() && (gone ==> w.closed)
      invariant MidTick(w.Abs(), now, current, current.Keys)
      decreases todo
    {
      var id :| id in todo;
      if !gone {
        DespawnSent(w.Abs(), id, now, current, current.Keys);
        var ok := w.SendToAdapter(Despawn(id));
        gone := !ok;
      }
      todo, now := todo - {id}, now - {id};
      if gone {
        GoneIsMidTick(w.Abs(), now, current, current.Keys);
      }
    }
    NothingLeft(now, current.Keys);
  }
}
