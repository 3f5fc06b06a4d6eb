/**
  The loss cover of the state plane (protocol/prev.go, attachPrev in core/sending.go, storeRemoteState in
  core/remotes.go): every state carries the one before it as a delta, so a single lost packet is made good
  by the next.
 */
module LossCover {
  import opened Lists
  import opened Wire
  import opened JsonText
  import opened JsonLimits
  import opened SnapshotBuffer

  const MAX_POSITION_LEN := 8
  const MAX_ORIENTATION_BYTES := 256
  const MAX_AREA_ID_LEN := 256
  const MAX_ANIM_LEN := 256
  const MAX_TIMESTAMP_MS := 4398046511104
  const MAX_POSITION_COMPONENT := 10000000.0

  // ----- Bounds a state must meet -----

  predicate ValidOpaque(t: Text, max: nat) {
    |t| <= max && ValidUtf8(t)
  }

  predicate ValidTimestamp(ts: int) {
    0 <= ts <= MAX_TIMESTAMP_MS
  }

  predicate ValidPosition(pos: seq<real>) {
    |pos| <= MAX_POSITION_LEN &&
    forall i | 0 <= i < |pos| :: -MAX_POSITION_COMPONENT <= pos[i] <= MAX_POSITION_COMPONENT
  }

  predicate ValidOrientation(raw: Text) {
    |HtmlEscaped(raw)| <= MAX_ORIENTATION_BYTES && ScanFrom(Outside(0), raw).Reading?
  }

  predicate ValidPrev(p: StatePrev) {
    && ValidTimestamp(p.timestamp)
    && (p.areaId.Some? ==> ValidOpaque(p.areaId.value, MAX_AREA_ID_LEN))
    && (p.anim.Some? ==> ValidOpaque(p.anim.value, MAX_ANIM_LEN))
    && ValidOrientation(p.orientation)
    && ValidPosition(p.position)
    && WithinLimit(p.extras)
  }

  predicate ValidState(st: State) {
    && ValidTimestamp(st.timestamp)
    && ValidOpaque(st.areaId, MAX_AREA_ID_LEN)
    && ValidOpaque(st.anim, MAX_ANIM_LEN)
    && ValidOrientation(st.orientation)
    && ValidPosition(st.position)
    && WithinLimit(st.extras)
    && (st.prev.Some? ==> ValidPrev(st.prev.value))
  }

  // ----- The delta and its inverse -----

  /** nil and empty read alike. */
  function FieldsOf(extras: Option<Extras>): Extras {
    if extras.None? then map[] else extras.value
  }

  /** The keys on which p differs from c, with p's value, or null where p has none. */
  function Delta(p: Extras, c: Extras): Extras {
    map k | k in p.Keys + c.Keys && (k !in p || k !in c || c[k] != p[k]) :: if k in p then p[k] else Null
  }

  /** c with the changes of d; null removes. */
  function Merged(c: Extras, d: Extras): Extras {
    map k | k in c.Keys + d.Keys && (k in d ==> d[k] != Null) :: if k in d then d[k] else c[k]
  }

  function PrevDelta(prev: State, cur: State): StatePrev {
    var samePos := prev.position == cur.position;
    var sameExtras := prev.extras == cur.extras;
    var noExtras := FieldsOf(prev.extras) == map[];
    StatePrev(
      prev.seqNo,
      prev.timestamp,
      if prev.areaId != cur.areaId then Some(prev.areaId) else None,
      if samePos then [] else prev.position,
      !samePos && prev.position == [],
      if prev.orientation == cur.orientation then []
      else if prev.orientation == [] then NULL_TEXT else prev.orientation,
      if prev.anim != cur.anim then Some(prev.anim) else None,
      if sameExtras || noExtras then None else Some(Delta(FieldsOf(prev.extras), FieldsOf(cur.extras))),
      !sameExtras && noExtras)
  }

  /** One white-space character of Unicode, in UTF-8. */
  predicate IsSpaceRune(r: Text) {
    || (|r| == 1 && (r[0] == 0x20 || 0x09 <= r[0] <= 0x0D))
    || (|r| == 2 && r[0] == 0xC2 && (r[1] == 0x85 || r[1] == 0xA0))
    || (|r| == 3 && r[0] == 0xE1 && r[1] == 0x9A && r[2] == 0x80)
    || (|r| == 3 && r[0] == 0xE2 && r[1] == 0x80 && (r[2] <= 0x8A || r[2] in {0xA8, 0xA9, 0xAF}) && 0x80 <= r[2])
    || (|r| == 3 && r[0] == 0xE2 && r[1] == 0x81 && r[2] == 0x9F)
    || (|r| == 3 && r[0] == 0xE3 && r[1] == 0x80 && r[2] == 0x80)
  }

  /** The length of the white-space character t begins with, or 0. */
  function LeadingSpace(t: Text): (n: nat)
    ensures n <= |t|
  {
    if |t| >= 1 && IsSpaceRune(t[..1]) then 1
    else if |t| >= 2 && IsSpaceRune(t[..2]) then 2
    else if |t| >= 3 && IsSpaceRune(t[..3]) then 3 else 0
  }

  /** The length of the white-space character t ends with, or 0. */
  function TrailingSpace(t: Text): (n: nat)
    ensures n <= |t|
  {
    if |t| >= 1 && IsSpaceRune(t[|t| - 1..]) then 1
    else if |t| >= 2 && IsSpaceRune(t[|t| - 2..]) then 2
    else if |t| >= 3 && IsSpaceRune(t[|t| - 3..]) then 3 else 0
  }

  function TrimLeft(t: Text): (r: Text)
    ensures |r| <= |t|
  {
    if LeadingSpace(t) > 0 then TrimLeft(t[LeadingSpace(t)..]) else t
  }

  function TrimSpace(t: Text): Text
    decreases |t|
  {
    var l := TrimLeft(t);
    var n := TrailingSpace(l);
    if n > 0 then TrimSpace(l[..|l| - n]) else l
  }

  function Applied(cur: State, p: StatePrev): Option<State> {
    var extras := if p.extrasNone then None
                  else if p.extras.Some? then Some(Merged(FieldsOf(cur.extras), p.extras.value))
                  else cur.extras;
    if !p.extrasNone && p.extras.Some? && !WithinLimit(extras) then None
    else
      Some(State(
             cur.playerId,
             p.seqNo,
             p.timestamp,
             if p.areaId.Some? then p.areaId.value else cur.areaId,
             if p.positionNone then [] else if p.position != [] then p.position else cur.position,
             if p.orientation == [] then cur.orientation
             else if TrimSpace(p.orientation) == NULL_TEXT then [] else p.orientation,
             if p.anim.Some? then p.anim.value else cur.anim,
             extras,
             None))
  }

  /** A sample as it comes off the wire: omitempty drops an empty extras map. */
  function OnWire(st: State): State {
    st.(extras := if FieldsOf(st.extras) == map[] then None else st.extras, prev := None)
  }

  /** No null of prev's would be read as absence: neither a changed key nor a changed orientation is null. */
  predicate NullsSurvive(prev: State, cur: State) {
    && (forall k | k in FieldsOf(prev.extras) && FieldsOf(prev.extras)[k] == Null ::
          k in FieldsOf(cur.extras) && FieldsOf(cur.extras)[k] == Null)
    && (prev.orientation != cur.orientation ==> TrimSpace(prev.orientation) != NULL_TEXT)
  }

  lemma MergeUndoesDelta(p: Extras, c: Extras)
    ensures (Merged(c, Delta(p, c)) == p) <==> (forall k | k in p && p[k] == Null :: k in c && c[k] == Null)
  {
    var m := Merged(c, Delta(p, c));
    if forall k | k in p && p[k] == Null :: k in c && c[k] == Null {
      assert forall k :: k in m <==> k in p;
      assert m == p;
    } else {
      var k :| k in p && p[k] == Null && !(k in c && c[k] == Null);
      assert k in Delta(p, c) && k !in m;
    }
  }

  /**
    The receiver gets back the exact sample sent before, and accepts it, if and only if no null in it would
    be read as absence. Both states are raw on the sender's side and as decoded on the receiver's.
   */
  lemma ApplyUndoesBuild(prev: State, cur: State)
    requires prev.playerId == cur.playerId && WithinLimit(prev.extras)
    ensures Applied(OnWire(cur), PrevDelta(prev, cur)) == Some(OnWire(prev)) <==> NullsSurvive(prev, cur)
  {
    var p, c := FieldsOf(prev.extras), FieldsOf(cur.extras);
    MergeUndoesDelta(p, c);
    assert FieldsOf(OnWire(cur).extras) == c;
    TrimNull();
  }

  lemma NotSpace(r: Text)
    requires r != [] && 0x20 < r[0] < 0x80
    ensures !IsSpaceRune(r)
  {
  }

  lemma NothingToTrim(t: Text)
    requires LeadingSpace(t) == 0 == TrailingSpace(t)
    ensures TrimSpace(t) == t
  {
    hide LeadingSpace, TrailingSpace;
  }

  lemma TrimNull()
    ensures TrimSpace(NULL_TEXT) == NULL_TEXT && TrimSpace([]) == []
  {
    var t := NULL_TEXT;
    NotSpace(t[..1]);
    NotSpace(t[..2]);
    NotSpace(t[..3]);
    NotSpace(t[3..]);
    NotSpace(t[2..]);
    NotSpace(t[1..]);
    hide IsSpaceRune, TrimSpace;
    NothingToTrim(t);
    NothingToTrim([]);
  }

  // ----- The imperative form -----

  method BuildPrev(prev: State, cur: State) returns (d: StatePrev)
    ensures d == PrevDelta(prev, cur)
  {
    d := StatePrev(prev.seqNo, prev.timestamp, None, [], false, [], None, None, false);
    if prev.areaId != cur.areaId {
      d := d.(areaId := Some(prev.areaId));
    }
    if prev.anim != cur.anim {
      d := d.(anim := Some(prev.anim));
    }
    if prev.position != cur.position {
      if |prev.position| == 0 {
        d := d.(positionNone := true);
      } else {
        d := d.(position := prev.position);
      }
    }
    if prev.orientation != cur.orientation {
      if |prev.orientation| == 0 {
        d := d.(orientation := NULL_TEXT);
      } else {
        d := d.(orientation := prev.orientation);
      }
    }
    if prev.extras != cur.extras {
      var p, c := FieldsOf(prev.extras), FieldsOf(cur.extras);
      if p == map[] {
        d := d.(extrasNone := true);
      } else {
        var changes := ChangesBetween(p, c);
        d := d.(extras := Some(changes));
      }
    }
  }

  method ChangesBetween(p: Extras, c: Extras) returns (changes: Extras)
    ensures changes == Delta(p, c)
  {
    var kept := ChangedOrNew(p, c);
    changes := WithRemovals(kept, p, c);
  }

  method WithRemovals(kept: Extras, p: Extras, c: Extras) returns (changes: Extras)
    requires kept.Keys <= p.Keys
    ensures forall k :: k in changes <==> k in kept || (k in c && k !in p)
    ensures forall k | k in changes :: changes[k] == if k in kept then kept[k] else Null
  {
    changes := kept;
    var todo := c.Keys;
    while todo != {}
      invariant todo <= c.Keys
      invariant forall k :: k in changes <==> k in kept || (k in c && k !in p && k !in todo)
      invariant forall k | k in changes :: changes[k] == if k in kept then kept[k] else Null
      decreases |todo|
    {
      var k :| k in todo;
      if k !in p {
        changes := changes[k := Null];
      }
      todo := todo - {k};
    }
  }

  method ChangedOrNew(p: Extras, c: Extras) returns (changes: Extras)
    ensures forall k :: k in changes <==> k in p && (k !in c || c[k] != p[k])
    ensures forall k | k in changes :: changes[k] == p[k]
  {
    changes := map[];
    var todo := p.Keys;
    while todo != {}
      invariant todo <= p.Keys
      invariant forall k :: k in changes <==> k in p && k !in todo && (k !in c || c[k] != p[k])
      invariant forall k | k in changes :: changes[k] == p[k]
      decreases |todo|
    {
      var k :| k in todo;
      if k !in c || c[k] != p[k] {
        changes := changes[k := p[k]];
      }
      todo := todo - {k};
    }
  }

  method ApplyPrev(cur: State) returns (out: Option<State>)
    ensures out == if cur.prev.None? then None else Applied(cur, cur.prev.value)
  {
    if cur.prev.None? {
      return None;
    }
    var p := cur.prev.value;
    var st := cur.(prev := None, seqNo := p.seqNo, timestamp := p.timestamp);
    if p.areaId.Some? {
      st := st.(areaId := p.areaId.value);
    }
    if p.anim.Some? {
      st := st.(anim := p.anim.value);
    }
    if p.positionNone {
      st := st.(position := []);
    } else if |p.position| > 0 {
      st := st.(position := p.position);
    }
    if |p.orientation| != 0 {
      if TrimSpace(p.orientation) == NULL_TEXT {
        st := st.(orientation := []);
      } else {
        st := st.(orientation := p.orientation);
      }
    }
    if p.extrasNone {
      st := st.(extras := None);
    } else if p.extras.Some? {
      var m := MergeInto(FieldsOf(cur.extras), p.extras.value);
      var ok := ExtrasWithinLimit(Some(m));
      if !ok {
        return None;
      }
      st := st.(extras := Some(m));
    }
    return Some(st);
  }

  method MergeInto(c: Extras, d: Extras) returns (m: Extras)
    ensures m == Merged(c, d)
  {
    m := c;
    var todo := d;
    MergeNothing(c);
    while todo != map[]
      invariant todo.Keys <= d.Keys && Merged(m, todo) == Merged(c, d)
      decreases |todo|
    {
      var k :| k in todo;
      MergeStep(m, todo, k);
      if todo[k] == Null {
        m := m - {k};
      } else {
        m := m[k := todo[k]];
      }
      todo := todo - {k};
    }
    MergeNothing(m);
  }

  lemma MergeNothing(c: Extras)
    ensures Merged(c, map[]) == c
  {
  }

  /** Merging may take the changes in any order. */
  lemma MergeStep(c: Extras, d: Extras, k: Text)
    requires k in d
    ensures Merged(c, d) == Merged(if d[k] == Null then c - {k} else c[k := d[k]], d - {k})
  {
  }

  // ----- The sender -----

  /** What packet i of a stream is once decoded: its sample, carrying the one before. */
  function Packet(sent: seq<State>, i: nat): State
    requires i < |sent|
  {
    OnWire(sent[i]).(prev := if i == 0 then None else Some(PrevDelta(sent[i - 1], sent[i])))
  }

  /** One sender's stream: plain samples under one id, each with a sequence number above the last. */
  predicate Stream(sent: seq<State>) {
    && (forall i | 0 <= i < |sent| :: sent[i].prev == None && sent[i].playerId == sent[0].playerId)
    && (forall i, j | 0 <= i < j < |sent| :: sent[i].seqNo < sent[j].seqNo)
  }

  class Sender {
    const playerId: string
    var seqNo: nat
    var lastSentWire: Option<State>
    ghost var sent: seq<State>

    ghost predicate Valid()
      reads this
    {
      && Stream(sent)
      && (forall i | 0 <= i < |sent| :: sent[i].playerId == playerId && sent[i].seqNo <= seqNo)
      && lastSentWire == if sent == [] then None else Some(Last(sent))
    }

    constructor (playerId: string)
      ensures Valid() && sent == [] && this.playerId == playerId
    {
      this.playerId := playerId;
      seqNo, lastSentWire, sent := 0, None, [];
    }

    /** Stamps one state and attaches the last one sent, as forwardLocalState and attachPrev do. */
    method Send(state: State, now: int, carry: bool) returns (pkt: State)
      requires Valid()
      modifies this
      ensures Valid()
      ensures seqNo == old(seqNo) + 1
      ensures sent == old(sent) + [state.(playerId := playerId, seqNo := seqNo, timestamp := now, prev := None)]
      ensures pkt.(prev := None) == Last(sent)
      ensures pkt.prev == if carry && old(sent) != [] then Some(PrevDelta(Last(old(sent)), Last(sent))) else None
      ensures carry ==> OnWire(pkt).(prev := pkt.prev) == Packet(sent, |sent| - 1)
    {
      seqNo := seqNo + 1;
      pkt := state.(playerId := playerId, seqNo := seqNo, timestamp := now, prev := None);
      var kept := pkt;
      if carry && lastSentWire.Some? {
        var d := BuildPrev(lastSentWire.value, pkt);
        pkt := pkt.(prev := Some(d));
      }
      lastSentWire := Some(kept);
      sent := sent + [kept];
    }
  }

  // ----- The receiver -----

  predicate Holds(b: seq<State>, seqNo: nat, ts: int) {
    exists i | 0 <= i < |b| :: b[i].seqNo == seqNo && b[i].timestamp == ts
  }

  /** The buffer after one packet: the carried sample first, if it is not already held. */
  function Received(b: seq<State>, pkt: State, window: int): seq<State> {
    if !ValidState(pkt) then b
    else
      var prev := if pkt.prev.None? then None else Applied(pkt, pkt.prev.value);
      var lacked := prev.Some? && !Holds(b, prev.value.seqNo, prev.value.timestamp);
      var covered := if lacked then Added(b, prev.value, window) else b;
      Added(covered, pkt.(prev := None), window)
  }

  method StoreSample(buf: RemoteBuffer, pkt: State)
    requires buf.Valid()
    modifies buf
    ensures buf.Valid() && buf.historyMs == old(buf.historyMs)
    ensures buf.snapshots == Received(old(buf.snapshots), pkt, Window(buf.historyMs))
  {
    if !ValidState(pkt) {
      return;
    }
    if pkt.prev.Some? {
      var prev := ApplyPrev(pkt);
      if prev.Some? {
        var held := buf.HasSample(prev.value.seqNo, prev.value.timestamp);
        if !held {
          buf.Add(prev.value);
        }
      }
    }
    buf.Add(pkt.(prev := None));
  }

  // ----- Whatever a peer sends -----

  /** A plain sample within every bound. */
  predicate Legal(st: State) {
    ValidState(st) && st.prev.None?
  }

  /** What a carried delta yields is itself within every bound, whatever the delta says. */
  lemma RecoveredIsLegal(cur: State, p: StatePrev)
    requires ValidState(cur) && ValidPrev(p) && Applied(cur, p).Some?
    ensures Legal(Applied(cur, p).value)
    ensures Applied(cur, p).value.seqNo == p.seqNo && Applied(cur, p).value.timestamp == p.timestamp
    ensures Applied(cur, p).value.playerId == cur.playerId
  {
    NothingIsWithinLimit();
    hide WithinLimit, ValidUtf8, HtmlEscaped, ScanFrom, TrimSpace, Merged;
  }

  lemma NothingIsWithinLimit()
    ensures WithinLimit(None) && ValidOrientation([])
  {
    hide TrimSpace;
  }

  /** The buffer after any packets at all, in any order, honest or not. */
  function Taken(pkts: seq<State>, window: int): seq<State> {
    if pkts == [] then [] else Received(Taken(Front(pkts), window), Last(pkts), window)
  }

  lemma ReceivedIsLegal(b: seq<State>, pkt: State, window: int)
    requires forall x | x in b :: Legal(x)
    ensures forall x | x in Received(b, pkt, window) :: Legal(x)
    ensures !ValidState(pkt) ==> Received(b, pkt, window) == b
  {
    if ValidState(pkt) {
      var prev := if pkt.prev.None? then None else Applied(pkt, pkt.prev.value);
      if prev.Some? {
        RecoveredIsLegal(pkt, pkt.prev.value);
        AddedMembers(b, prev.value, window);
      }
      PlainIsLegal(pkt);
      hide Legal, ValidState, Added;
      var lacked := prev.Some? && !Holds(b, prev.value.seqNo, prev.value.timestamp);
      AddedMembers(if lacked then Added(b, prev.value, window) else b, pkt.(prev := None), window);
    }
  }

  lemma PlainIsLegal(pkt: State)
    requires ValidState(pkt)
    ensures Legal(pkt.(prev := None))
  {
    hide ValidOpaque, ValidOrientation, ValidPosition, WithinLimit;
  }

  /** Whatever packets arrive, every sample ever buffered is within every bound. */
  lemma {:induction false} OnlyLegalIsBuffered(pkts: seq<State>, window: int)
    ensures forall x | x in Taken(pkts, window) :: Legal(x)
  {
    if pkts != [] {
      OnlyLegalIsBuffered(Front(pkts), window);
      ReceivedIsLegal(Taken(Front(pkts), window), Last(pkts), window);
    }
  }

  // ----- Whole runs -----

  /** The buffer after the first n packets, of which exactly those marked in got arrived. */
  function Run(sent: seq<State>, got: seq<bool>, n: nat, window: int): seq<State>
    requires n <= |sent| == |got|
  {
    if n == 0 then []
    else
      var b := Run(sent, got, n - 1, window);
      if got[n - 1] then Received(b, Packet(sent, n - 1), window) else b
  }

  /** The buffer that holds every one of the first n samples the plain way. */
  function Complete(sent: seq<State>, n: nat, window: int): seq<State>
    requires n <= |sent|
  {
    if n == 0 then [] else Added(Complete(sent, n - 1, window), OnWire(sent[n - 1]), window)
  }

  /** A stream whose packets all pass the receiver's checks and lose nothing to null-as-absence. */
  predicate Coverable(sent: seq<State>) {
    && Stream(sent)
    && (forall i | 0 <= i < |sent| :: ValidState(Packet(sent, i)))
    && (forall i | 0 < i < |sent| :: NullsSurvive(sent[i - 1], sent[i]))
  }

  predicate NoTwoLost(got: seq<bool>) {
    forall i | 0 < i < |got| :: got[i - 1] || got[i]
  }

  lemma {:induction false} CompleteIsOrdered(sent: seq<State>, n: nat, window: int)
    requires n <= |sent|
    ensures Sorted(Complete(sent, n, window)) && |Complete(sent, n, window)| <= MAX_SNAPSHOTS
  {
    if n > 0 {
      CompleteIsOrdered(sent, n - 1, window);
      AddedKeepsOrder(Complete(sent, n - 1, window), OnWire(sent[n - 1]), window);
    }
  }

  /** Where an insertion lands. */
  lemma {:induction false} InsertedAround(b: seq<State>, s: State) returns (x: seq<State>, y: seq<State>)
    requires Sorted(b)
    ensures Inserted(b, s) == x + ([s] + y) && b == x + y
    ensures forall i | 0 <= i < |y| :: s.timestamp < y[i].timestamp
  {
    if b == [] || Last(b).timestamp <= s.timestamp {
      x, y := b, [];
    } else {
      x, y := InsertedAround(Front(b), s);
      y := y + [Last(b)];
    }
  }

  lemma AddedMembers(b: seq<State>, s: State, window: int)
    ensures forall x | x in Added(b, s, window) :: x in b || x == s
  {
    var c := Capped(Inserted(b, s));
    var e := TrimmedSplits(c, Last(c).timestamp - window);
    InsertedContents(b, s);
    forall x | x in Added(b, s, window) ensures x in b || x == s {
      if x !in b {
        assert x in c;
        assert x in multiset(Inserted(b, s));
      }
    }
  }

  lemma {:induction false} CompleteMembers(sent: seq<State>, n: nat, window: int)
    requires n <= |sent|
    ensures forall x | x in Complete(sent, n, window) :: exists i | 0 <= i < n :: x == OnWire(sent[i])
  {
    if n > 0 {
      CompleteMembers(sent, n - 1, window);
      AddedMembers(Complete(sent, n - 1, window), OnWire(sent[n - 1]), window);
    }
  }

  /** How an arrival that was not refused outright left the buffer: d fell to the cap, e to age. */
  lemma AddedShape(b: seq<State>, p: State, window: int) returns (d: seq<State>, e: seq<State>)
    requires |b| <= MAX_SNAPSHOTS
    requires !(|b| >= MAX_SNAPSHOTS && p.timestamp < b[0].timestamp && p.timestamp < Last(b).timestamp)
    ensures var kept := Added(b, p, window);
            && 1 <= |kept| <= MAX_SNAPSHOTS
            && Inserted(b, p) == d + (e + kept)
            && (forall x | x in e :: x.timestamp < Last(kept).timestamp - window)
            && (e != [] ==> |kept| >= 2)
            && (e == [] && |kept| < MAX_SNAPSHOTS ==> d == [])
            && Trimmed(kept, Last(kept).timestamp - window) == kept
  {
    var i := Inserted(b, p);
    var c := Capped(i);
    d := i[..|i| - |c|];
    e := TrimmedSplits(c, Last(c).timestamp - window);
    TrimmedIsStable(c, Last(c).timestamp - window);
  }

  /** Offering again a sample the buffer just refused or trimmed away changes nothing. */
  lemma ReaddIsNoOp(b: seq<State>, p: State, window: int)
    requires Sorted(b) && |b| <= MAX_SNAPSHOTS && p !in Added(b, p, window)
    ensures Added(Added(b, p, window), p, window) == Added(b, p, window)
  {
    if !(|b| >= MAX_SNAPSHOTS && p.timestamp < b[0].timestamp && p.timestamp < Last(b).timestamp) {
      var d, e := AddedShape(b, p, window);
      ReaddAfterDrop(b, p, d, e, Added(b, p, window), window);
    }
  }

  lemma ReaddAfterDrop(b: seq<State>, p: State, d: seq<State>, e: seq<State>, kept: seq<State>, window: int)
    requires Sorted(b) && 1 <= |kept| <= MAX_SNAPSHOTS && p !in kept && Inserted(b, p) == d + (e + kept)
    requires forall x | x in e :: x.timestamp < Last(kept).timestamp - window
    requires (e != [] ==> |kept| >= 2) && (e == [] && |kept| < MAX_SNAPSHOTS ==> d == [])
    requires Trimmed(kept, Last(kept).timestamp - window) == kept
    ensures Added(kept, p, window) == kept
  {
    NewerThanDropped(b, p, d + e, kept) by {
      AppendAssociates(d, e, kept);
    }
    if |kept| < MAX_SNAPSHOTS {
      InsertedInFront(kept, p);
      StaleInFront(b, p, d, e, kept, Last(kept).timestamp - window);
      FrontGoes(kept, p, Last(kept).timestamp - window);
    }
  }

  lemma FrontGoes(kept: seq<State>, p: State, cutoff: int)
    requires |kept| >= 2 && p.timestamp < cutoff && Trimmed(kept, cutoff) == kept
    ensures Trimmed([p] + kept, cutoff) == kept && Last([p] + kept) == Last(kept)
  {
    assert ([p] + kept)[1..] == kept;
  }

  /** What is left after a cut that took p with it is newer than p. */
  lemma NewerThanDropped(b: seq<State>, p: State, front: seq<State>, kept: seq<State>)
    requires Sorted(b) && Inserted(b, p) == front + kept && p !in kept
    ensures forall i | 0 <= i < |kept| :: p.timestamp < kept[i].timestamp
  {
    var x, y := InsertedAround(b, p);
    SuffixBehind(front, kept, x, p, y);
    KeptIsNewer(kept, y, p);
  }

  lemma StaleInFront(b: seq<State>, p: State, d: seq<State>, e: seq<State>, kept: seq<State>, cutoff: int)
    requires Sorted(b) && Inserted(b, p) == d + (e + kept) && p !in kept
    requires forall x | x in e :: x.timestamp < cutoff
    requires (e != [] ==> |kept| >= 2) && (e == [] ==> d == [])
    ensures p.timestamp < cutoff && |kept| >= 2
  {
    InsertedSorted(b, p);
    InsertedContents(b, p);
    var all := Inserted(b, p);
    assert p in multiset(all);
    var i :| 0 <= i < |all| && all[i] == p;
    assert forall j | |d| + |e| <= j < |all| :: all[j] == kept[j - |d| - |e|];
    assert forall j | |d| <= j < |d| + |e| :: all[j] == e[j - |d|];
    if i < |d| {
      assert all[|d|] == e[0];
    }
  }

  lemma {:induction false} TrimmedIsStable(c: seq<State>, cutoff: int)
    ensures Trimmed(Trimmed(c, cutoff), cutoff) == Trimmed(c, cutoff)
  {
    if |c| > 2 && c[0].timestamp < cutoff {
      TrimmedIsStable(c[1..], cutoff);
    }
  }

  /** Two ways to cut the same sequence: a part without p that reaches the end lies behind p. */
  lemma SuffixBehind(front: seq<State>, kept: seq<State>, x: seq<State>, p: State, y: seq<State>)
    requires front + kept == x + ([p] + y) && p !in kept
    ensures |kept| <= |y| && kept == y[|y| - |kept|..]
  {
    var all := front + kept;
    assert all[|x|] == p;
    assert forall i | |front| <= i < |all| :: all[i] == kept[i - |front|];
    assert kept == all[|front|..];
    assert y[|y| - |kept|..] == (x + ([p] + y))[|front|..];
  }

  lemma KeptIsNewer(kept: seq<State>, y: seq<State>, p: State)
    requires |kept| <= |y| && kept == y[|y| - |kept|..]
    requires forall i | 0 <= i < |y| :: p.timestamp < y[i].timestamp
    ensures forall i | 0 <= i < |kept| :: p.timestamp < kept[i].timestamp
  {
  }

  lemma LegalOnTheWireIsLegal(st: State)
    requires WithinLimit(OnWire(st).extras)
    ensures WithinLimit(st.extras)
  {
    if st.extras.Some? && st.extras.value == map[] {
      EmptyObject(map[]);
    }
  }

  /** A packet carries its predecessor exactly. */
  lemma PacketCarries(sent: seq<State>, i: nat)
    requires Coverable(sent) && 0 < i < |sent|
    ensures Packet(sent, i).prev.Some?
    ensures Applied(Packet(sent, i), Packet(sent, i).prev.value) == Some(OnWire(sent[i - 1]))
  {
    assert ValidState(Packet(sent, i - 1));
    LegalOnTheWireIsLegal(sent[i - 1]);
    ApplyUndoesBuild(sent[i - 1], sent[i]);
    AppliedIgnoresCarried(OnWire(sent[i]), Packet(sent, i).prev, PrevDelta(sent[i - 1], sent[i]));
  }

  lemma AppliedIgnoresCarried(cur: State, carried: Option<StatePrev>, p: StatePrev)
    ensures Applied(cur.(prev := carried), p) == Applied(cur, p)
  {
  }

  lemma NotYetHeld(sent: seq<State>, n: nat, m: nat, window: int)
    requires Stream(sent) && n <= m < |sent|
    ensures !Holds(Complete(sent, n, window), sent[m].seqNo, sent[m].timestamp)
  {
    CompleteMembers(sent, n, window);
    forall x | x in Complete(sent, n, window) ensures x.seqNo != sent[m].seqNo {
      var i :| 0 <= i < n && x == OnWire(sent[i]);
    }
  }

  /** The packet after a received one adds its own sample and nothing else. */
  lemma AfterReceived(sent: seq<State>, i: nat, window: int)
    requires Coverable(sent) && i < |sent|
    ensures Received(Complete(sent, i, window), Packet(sent, i), window) == Complete(sent, i + 1, window)
  {
    assert ValidState(Packet(sent, i));
    if i > 0 {
      PacketCarries(sent, i);
      CompleteIsOrdered(sent, i - 1, window);
      var prev := OnWire(sent[i - 1]);
      if !Holds(Complete(sent, i, window), prev.seqNo, prev.timestamp) {
        ReaddIsNoOp(Complete(sent, i - 1, window), prev, window);
      }
    }
  }

  /** The packet after a lost one restores it. */
  lemma AfterLost(sent: seq<State>, i: nat, window: int)
    requires Coverable(sent) && 0 < i < |sent|
    ensures Received(Complete(sent, i - 1, window), Packet(sent, i), window) == Complete(sent, i + 1, window)
  {
    assert ValidState(Packet(sent, i));
    PacketCarries(sent, i);
    NotYetHeld(sent, i - 1, i - 1, window);
  }

  lemma RunReceives(sent: seq<State>, got: seq<bool>, i: nat, covered: bool, window: int)
    requires Coverable(sent) && i < |sent| == |got| && got[i] && (covered || i > 0)
    requires Run(sent, got, i, window) == Complete(sent, if covered then i else i - 1, window)
    ensures Run(sent, got, i + 1, window) == Complete(sent, i + 1, window)
  {
    if covered {
      AfterReceived(sent, i, window);
    } else {
      AfterLost(sent, i, window);
    }
  }

  /**
    For any loss pattern without two losses in a row, a receiver that gets the packets in order holds,
    after each packet that arrives, exactly the buffer of one that received every sample.
   */
  lemma {:induction false} CoverRestoresStream(sent: seq<State>, got: seq<bool>, n: nat, window: int)
    requires Coverable(sent) && |got| == |sent| && NoTwoLost(got) && n <= |sent|
    ensures n == 0 || got[n - 1] ==> Run(sent, got, n, window) == Complete(sent, n, window)
    ensures n > 0 && !got[n - 1] ==> Run(sent, got, n, window) == Complete(sent, n - 1, window)
  {
    if n > 0 {
      CoverRestoresStream(sent, got, n - 1, window);
      var covered := n == 1 || got[n - 2];
      if got[n - 1] {
        RunReceives(sent, got, n - 1, covered, window);
      }
    }
  }

  /** The same, against a second receiver that lost nothing. */
  lemma LossyEqualsLossless(sent: seq<State>, got: seq<bool>, n: nat, window: int)
    requires Coverable(sent) && |got| == |sent| && NoTwoLost(got) && 0 < n <= |sent| && got[n - 1]
    ensures Run(sent, got, n, window) == Run(sent, seq(|sent|, _ => true), n, window)
  {
    CoverRestoresStream(sent, got, n, window);
    CoverRestoresStream(sent, seq(|sent|, _ => true), n, window);
  }
}
