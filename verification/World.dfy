/**
  World custody (relay/world.go): the relay keeps the latest blob per entity, tells every member of each write, and
  hands the same set to newcomers and to whoever takes the authority next.
 */
module World {
  import opened Lists
  import opened Wire
  import opened Batching

  const MAX_KEYS: nat := 64
  const MESSAGE_BUDGET: int := 1100

  datatype Entity = Entity(authority: string, key: string)

  datatype Reason = Written | Snapshot | Denied | TooMany

  /** A world line; one entry of a Written line may be a drop. */
  datatype Line = Line(
    authority: string,
    holder: string,
    stamp: nat,
    entries: seq<WorldEntry>,
    reason: Reason,
    to: set<string>,
    unreliable: bool)

  datatype Op = Set(blob: Text) | Drop | Unnamed

  /**
    The world part of a room. holders says who has the authority; lines is everything sent. present are the members
    that stayed connected since they entered and have written nothing, attentive those of them that were seeded.
   */
  datatype Custody = Custody(
    world: map<Entity, Text>,
    holders: map<string, string>,
    members: set<string>,
    stamp: nat,
    lines: seq<Line>,
    present: set<string>,
    attentive: set<string>)

  const NOTHING := Custody(map[], map[], {}, 0, [], {}, {})

  function Holder(w: Custody, authority: string): string {
    if authority in w.holders then w.holders[authority] else ""
  }

  function Sent(w: Custody, authority: string, holder: string, entries: seq<WorldEntry>, reason: Reason,
                to: set<string>, unreliable: bool): Custody
  {
    w.(stamp := w.stamp + 1,
       lines := w.lines + [Line(authority, holder, w.stamp + 1, entries, reason, to, unreliable)])
  }

  // ----- Writing -----

  /** A write the holder may make and the table can take. */
  predicate Accepted(w: Custody, from: string, e: Entity, op: Op, reliable: bool) {
    && e.authority in w.holders && w.holders[e.authority] == from
    && !op.Unnamed?
    && (op.Set? && e !in w.world ==> reliable && |w.world| < MAX_KEYS)
  }

  function Put(w: Custody, e: Entity, op: Op): Custody {
    if op.Set? then w.(world := w.world[e := op.blob]) else w.(world := w.world - {e})
  }

  /** Nothing more is claimed of what who knows. */
  function Away(w: Custody, who: string): Custody {
    w.(present := w.present - {who}, attentive := w.attentive - {who})
  }

  function Writing(w: Custody, from: string, e: Entity, op: Op, reliable: bool): Custody {
    if Accepted(w, from, e, op, reliable) then
      Sent(Away(Put(w, e, op), from), e.authority, from,
           [WorldEntry(e.key, if op.Set? then Some(op.blob) else None)], Written, w.members - {from},
           !reliable && !op.Drop?)
    else if !(e.authority in w.holders && w.holders[e.authority] == from) then
      Sent(w, e.authority, Holder(w, e.authority), [], Denied, {from}, false)
    else if op.Set? && reliable then
      Sent(w, e.authority, from, [], TooMany, {from}, false)
    else w
  }

  // ----- Snapshots -----

  /** One snapshot message. */
  datatype Batch = Batch(authority: string, entries: seq<WorldEntry>)

  /** The first word entries have on key. */
  function Mention(entries: seq<WorldEntry>, key: string): Option<Option<Text>> {
    if entries == [] then None
    else if Mention(Front(entries), key).Some? then Mention(Front(entries), key)
    else if Last(entries).key == key then Some(Last(entries).blob) else None
  }

  function BatchMention(b: Batch, e: Entity): Option<Option<Text>> {
    if b.authority == e.authority then Mention(b.entries, e.key) else None
  }

  predicate Restates(b: Batch, part: map<Entity, Text>) {
    forall i | 0 <= i < |b.entries| ::
      var e := Entity(b.authority, b.entries[i].key);
      e in part && b.entries[i].blob == Some(part[e])
  }

  /** The batches name every entity of part, each with its blob, and nothing else. */
  ghost predicate Covers(batches: seq<Batch>, part: map<Entity, Text>) {
    && (forall i | 0 <= i < |batches| :: Restates(batches[i], part))
    && (forall e | e in part :: exists i | 0 <= i < |batches| :: BatchMention(batches[i], e).Some?)
  }

  function Seeded(w: Custody, to: string, batches: seq<Batch>): (r: Custody)
    ensures r.(stamp := w.stamp, lines := w.lines) == w
  {
    if batches == [] then w
    else
      var b := Last(batches);
      Sent(Seeded(w, to, Front(batches)), b.authority, Holder(w, b.authority), b.entries, Snapshot, {to}, false)
  }

  function Part(world: map<Entity, Text>, authority: string): map<Entity, Text> {
    map e | e in world && e.authority == authority :: world[e]
  }

  // ----- Steps -----

  datatype Step =
    | Write(from: string, e: Entity, op: Op, reliable: bool)
    | Adopt(authority: string, who: string, batches: seq<Batch>)
    | Unheld(authorities: set<string>)
    | Enter(who: string)
    | Seed(who: string, batches: seq<Batch>)
    | Resume(who: string, batches: seq<Batch>)
    | Suspend(who: string)
    | Remove(who: string)
    | Elsewhere(stamps: nat)

  ghost predicate Legal(w: Custody, s: Step) {
    match s
    case Adopt(authority, _, batches) => Covers(batches, Part(w.world, authority))
    case Seed(_, batches) => Covers(batches, w.world)
    case Resume(_, batches) => Covers(batches, w.world)
    case _ => true
  }

  ghost predicate NewHere(w: Custody, who: string) {
    forall i | 0 <= i < |w.lines| :: who !in w.lines[i].to
  }

  ghost function Next(w: Custody, s: Step): Custody
    requires Legal(w, s)
  {
    match s
    case Write(from, e, op, reliable) => Writing(w, from, e, op, reliable)
    case Adopt(authority, who, batches) => Seeded(w.(holders := w.holders[authority := who]), who, batches)
    case Unheld(authorities) => w.(holders := w.holders - authorities)
    case Enter(who) =>
      w.(members := w.members + {who}, attentive := w.attentive - {who},
         present := if NewHere(w, who) then w.present + {who} else w.present - {who})
    case Seed(who, batches) =>
      var r := Seeded(w, who, batches);
      r.(attentive := if who in w.present then w.attentive + {who} else w.attentive)
    case Resume(who, batches) => Seeded(Away(w, who), who, batches)
    case Suspend(who) => Away(w, who)
    case Remove(who) => Away(w, who).(members := w.members - {who})
    case Elsewhere(stamps) => w.(stamp := w.stamp + stamps)
  }

  // ----- What a member was told -----

  datatype Word = Word(stamp: nat, blob: Option<Text>)

  function Said(l: Line, m: string, e: Entity): Option<Option<Text>> {
    if m in l.to && l.authority == e.authority then Mention(l.entries, e.key) else None
  }

  /** The newest word to m about e, among all lines or the reliable ones only. */
  function Newest(lines: seq<Line>, m: string, e: Entity, reliableOnly: bool): Option<Word> {
    if lines == [] then None
    else
      var l := Last(lines);
      if Said(l, m, e).Some? && (reliableOnly ==> !l.unreliable) then Some(Word(l.stamp, Said(l, m, e).value))
      else Newest(Front(lines), m, e, reliableOnly)
  }

  /** What m was last told of e, if anything, is the truth; word of a drop is never followed by lossy word. */
  ghost predicate ToldRight(lines: seq<Line>, world: map<Entity, Text>, m: string, e: Entity) {
    var n := Newest(lines, m, e, false);
    n.Some? ==>
      && n.value.blob == (if e in world then Some(world[e]) else None)
      && (e !in world ==> n == Newest(lines, m, e, true))
  }

  /** m was told reliably that e exists. */
  ghost predicate KnowsOf(lines: seq<Line>, m: string, e: Entity) {
    var r := Newest(lines, m, e, true);
    r.Some? && r.value.blob.Some?
  }

  ghost predicate ToldAllRight(lines: seq<Line>, world: map<Entity, Text>, m: string) {
    forall e :: ToldRight(lines, world, m, e)
  }

  ghost predicate KnowsAll(lines: seq<Line>, world: map<Entity, Text>, m: string) {
    forall e | e in world :: KnowsOf(lines, m, e)
  }

  ghost predicate AllToldRight(lines: seq<Line>, world: map<Entity, Text>, who: set<string>) {
    forall m | m in who :: ToldAllRight(lines, world, m)
  }

  ghost predicate AllKnow(lines: seq<Line>, world: map<Entity, Text>, who: set<string>) {
    forall m | m in who :: KnowsAll(lines, world, m)
  }

  /** Stamps rise, and a lossy line never carries a drop. */
  ghost predicate Orderly(lines: seq<Line>, stamp: nat) {
    && (forall i, j | 0 <= i < j < |lines| :: lines[i].stamp < lines[j].stamp)
    && (forall i | 0 <= i < |lines| :: lines[i].stamp <= stamp)
    && (forall i | 0 <= i < |lines| :: lines[i].unreliable ==> NoDrop(lines[i].entries))
  }

  ghost predicate NoDrop(entries: seq<WorldEntry>) {
    forall i | 0 <= i < |entries| :: entries[i].blob.Some?
  }

  ghost predicate Inv(w: Custody) {
    && Orderly(w.lines, w.stamp)
    && AllToldRight(w.lines, w.world, w.present)
    && AllKnow(w.lines, w.world, w.attentive)
    && w.attentive <= w.present <= w.members
    && |w.world| <= MAX_KEYS
  }

  // ----- One more line -----

  lemma NewestAfter(lines: seq<Line>, l: Line, m: string, e: Entity, reliableOnly: bool)
    ensures Newest(lines + [l], m, e, reliableOnly) ==
            if Said(l, m, e).Some? && (reliableOnly ==> !l.unreliable) then Some(Word(l.stamp, Said(l, m, e).value))
            else Newest(lines, m, e, reliableOnly)
  {
    assert Front(lines + [l]) == lines;
  }

  lemma OrderlyAfter(lines: seq<Line>, stamp: nat, l: Line)
    requires Orderly(lines, stamp) && l.stamp == stamp + 1 && (l.unreliable ==> NoDrop(l.entries))
    ensures Orderly(lines + [l], stamp + 1)
  {
  }

  lemma {:induction false} MentionOfRestated(b: Batch, part: map<Entity, Text>, e: Entity)
    requires Restates(b, part)
    ensures BatchMention(b, e).Some? ==> e in part && BatchMention(b, e).value == Some(part[e])
    decreases |b.entries|
  {
    if b.entries != [] {
      var f := Batch(b.authority, Front(b.entries));
      assert Restates(f, part);
      MentionOfRestated(f, part, e);
      assert Entity(b.authority, Last(b.entries).key) in part;
    }
  }

  lemma MentionOfOne(entry: WorldEntry, key: string)
    ensures Mention([entry], key) == if entry.key == key then Some(entry.blob) else None
  {
    assert Front([entry]) == [];
  }

  /** A line that only restates the world to those it reaches. */
  lemma RestatingKeeps(lines: seq<Line>, world: map<Entity, Text>, l: Line, m: string)
    requires ToldAllRight(lines, world, m) && !l.unreliable
    requires Restates(Batch(l.authority, l.entries), world)
    ensures ToldAllRight(lines + [l], world, m)
    ensures KnowsAll(lines, world, m) ==> KnowsAll(lines + [l], world, m)
  {
    forall e
      ensures ToldRight(lines + [l], world, m, e)
      ensures KnowsOf(lines, m, e) ==> KnowsOf(lines + [l], m, e)
    {
      assert ToldRight(lines, world, m, e);
      NewestAfter(lines, l, m, e, false);
      NewestAfter(lines, l, m, e, true);
      MentionOfRestated(Batch(l.authority, l.entries), world, e);
    }
  }

  lemma RestatingTells(lines: seq<Line>, world: map<Entity, Text>, l: Line, m: string, e: Entity)
    requires Restates(Batch(l.authority, l.entries), world) && !l.unreliable && m in l.to
    requires BatchMention(Batch(l.authority, l.entries), e).Some? || KnowsOf(lines, m, e)
    ensures KnowsOf(lines + [l], m, e)
  {
    NewestAfter(lines, l, m, e, true);
    MentionOfRestated(Batch(l.authority, l.entries), world, e);
  }

  /** One line that restates, to whomever. */
  lemma SentKeeps(w: Custody, authority: string, holder: string, entries: seq<WorldEntry>, reason: Reason,
                  to: set<string>)
    requires Inv(w) && Restates(Batch(authority, entries), w.world)
    ensures Inv(Sent(w, authority, holder, entries, reason, to, false))
  {
    hide Orderly, ToldAllRight, KnowsAll;
    var l := Line(authority, holder, w.stamp + 1, entries, reason, to, false);
    OrderlyAfter(w.lines, w.stamp, l);
    forall m | m in w.present
      ensures ToldAllRight(w.lines + [l], w.world, m)
      ensures m in w.attentive ==> KnowsAll(w.lines + [l], w.world, m)
    {
      RestatingKeeps(w.lines, w.world, l, m);
    }
  }

  lemma {:induction false} SeededKeeps(w: Custody, to: string, batches: seq<Batch>)
    requires Inv(w) && forall i | 0 <= i < |batches| :: Restates(batches[i], w.world)
    ensures Inv(Seeded(w, to, batches))
    ensures forall i, e | 0 <= i < |batches| && BatchMention(batches[i], e).Some? ::
              KnowsOf(Seeded(w, to, batches).lines, to, e)
  {
    if batches != [] {
      hide Inv;
      var f, b := Seeded(w, to, Front(batches)), Last(batches);
      SeededKeeps(w, to, Front(batches));
      SentKeeps(f, b.authority, Holder(w, b.authority), b.entries, Snapshot, {to});
      var l := Line(b.authority, Holder(w, b.authority), f.stamp + 1, b.entries, Snapshot, {to}, false);
      forall i, e | 0 <= i < |batches| && BatchMention(batches[i], e).Some?
        ensures KnowsOf(f.lines + [l], to, e)
      {
        assert i < |batches| - 1 ==> Front(batches)[i] == batches[i];
        RestatingTells(f.lines, w.world, l, to, e);
      }
    }
  }

  // ----- Every step -----

  /** The line of an accepted write, for a member it reaches. */
  lemma WrittenTells(lines: seq<Line>, world: map<Entity, Text>, l: Line, m: string, e: Entity, op: Op, reliable: bool)
    requires ToldAllRight(lines, world, m) && m in l.to && !op.Unnamed?
    requires l.authority == e.authority && l.entries == [WorldEntry(e.key, if op.Set? then Some(op.blob) else None)]
    requires l.unreliable == (!reliable && !op.Drop?) && (l.unreliable ==> e in world)
    ensures var after := if op.Set? then world[e := op.blob] else world - {e};
            && ToldAllRight(lines + [l], after, m)
            && (KnowsAll(lines, world, m) ==> KnowsAll(lines + [l], after, m))
  {
    var after := if op.Set? then world[e := op.blob] else world - {e};
    MentionOfOne(l.entries[0], e.key);
    forall k
      ensures ToldRight(lines + [l], after, m, k)
      ensures KnowsAll(lines, world, m) && k in after ==> KnowsOf(lines + [l], m, k)
    {
      assert ToldRight(lines, world, m, k);
      MentionOfOne(l.entries[0], k.key);
      NewestAfter(lines, l, m, k, false);
      NewestAfter(lines, l, m, k, true);
    }
  }

  lemma AcceptedInforms(w: Custody, l: Line, from: string, e: Entity, op: Op, reliable: bool)
    requires Inv(w) && !op.Unnamed? && l.to == w.members - {from}
    requires l.authority == e.authority && l.entries == [WorldEntry(e.key, if op.Set? then Some(op.blob) else None)]
    requires l.unreliable == (!reliable && !op.Drop?) && (l.unreliable ==> e in w.world)
    ensures AllToldRight(w.lines + [l], Put(w, e, op).world, w.present - {from})
    ensures AllKnow(w.lines + [l], Put(w, e, op).world, w.attentive - {from})
  {
    hide Orderly, ToldAllRight, KnowsAll;
    forall m | m in w.present && m != from
      ensures ToldAllRight(w.lines + [l], Put(w, e, op).world, m)
      ensures m in w.attentive ==> KnowsAll(w.lines + [l], Put(w, e, op).world, m)
    {
      WrittenTells(w.lines, w.world, l, m, e, op, reliable);
    }
  }

  lemma AcceptedKeeps(w: Custody, from: string, e: Entity, op: Op, reliable: bool)
    requires Inv(w) && Accepted(w, from, e, op, reliable)
    ensures Inv(Writing(w, from, e, op, reliable))
  {
    hide Orderly, AllToldRight, AllKnow;
    var entries := [WorldEntry(e.key, if op.Set? then Some(op.blob) else None)];
    var l := Line(e.authority, from, w.stamp + 1, entries, Written, w.members - {from}, !reliable && !op.Drop?);
    OrderlyAfter(w.lines, w.stamp, l);
    AcceptedInforms(w, l, from, e, op, reliable);
    TableSize(w.world, e, op);
  }

  lemma TableSize(world: map<Entity, Text>, e: Entity, op: Op)
    ensures op.Set? ==> |world[e := op.blob]| == |world| + if e in world then 0 else 1
    ensures |world - {e}| <= |world|
  {
    if op.Set? {
      assert world[e := op.blob].Keys == world.Keys + {e};
    }
    assert (world - {e}).Keys == world.Keys - {e};
    assert |(world - {e}).Keys| <= |world.Keys|;
  }

  lemma WritingKeeps(w: Custody, from: string, e: Entity, op: Op, reliable: bool)
    requires Inv(w)
    ensures Inv(Writing(w, from, e, op, reliable))
  {
    hide Inv;
    if Accepted(w, from, e, op, reliable) {
      AcceptedKeeps(w, from, e, op, reliable);
    } else if !(e.authority in w.holders && w.holders[e.authority] == from) {
      SentKeeps(w, e.authority, Holder(w, e.authority), [], Denied, {from});
    } else {
      SentKeeps(w, e.authority, from, [], TooMany, {from});
    }
  }

  lemma PartRestates(world: map<Entity, Text>, authority: string, b: Batch)
    requires Restates(b, Part(world, authority))
    ensures Restates(b, world)
  {
  }

  lemma EnterKeeps(w: Custody, who: string)
    requires Inv(w)
    ensures Inv(Next(w, Enter(who)))
  {
    hide Orderly, ToldAllRight, KnowsAll;
    if NewHere(w, who) {
      NewcomerToldNothing(w.lines, w.world, who);
    }
  }

  lemma NewcomerToldNothing(lines: seq<Line>, world: map<Entity, Text>, who: string)
    requires forall i | 0 <= i < |lines| :: who !in lines[i].to
    ensures ToldAllRight(lines, world, who)
  {
    forall e
      ensures Newest(lines, who, e, false).None?
    {
      NothingToldOf(lines, who, e);
    }
  }

  lemma {:induction false} NothingToldOf(lines: seq<Line>, who: string, e: Entity)
    requires forall i | 0 <= i < |lines| :: who !in lines[i].to
    ensures Newest(lines, who, e, false).None?
  {
    if lines != [] {
      assert who !in Last(lines).to;
      NothingToldOf(Front(lines), who, e);
    }
  }

  lemma LessIsClaimed(w: Custody, who: string)
    requires Inv(w)
    ensures Inv(Away(w, who)) && Inv(Next(w, Remove(who)))
  {
    hide Orderly, ToldAllRight, KnowsAll;
  }

  lemma SeedKeeps(w: Custody, who: string, batches: seq<Batch>)
    requires Inv(w) && Covers(batches, w.world)
    ensures Inv(Next(w, Seed(who, batches)))
  {
    hide Orderly, ToldAllRight;
    SeededKeeps(w, who, batches);
    forall e | e in w.world
      ensures KnowsOf(Seeded(w, who, batches).lines, who, e)
    {
      var i :| 0 <= i < |batches| && BatchMention(batches[i], e).Some?;
    }
  }

  lemma AdoptKeeps(w: Custody, authority: string, who: string, batches: seq<Batch>)
    requires Inv(w) && Covers(batches, Part(w.world, authority))
    ensures Inv(Next(w, Adopt(authority, who, batches)))
  {
    forall i | 0 <= i < |batches|
      ensures Restates(batches[i], w.world)
    {
      PartRestates(w.world, authority, batches[i]);
    }
    hide Orderly, AllToldRight, AllKnow;
    SeededKeeps(w.(holders := w.holders[authority := who]), who, batches);
  }

  lemma NextKeeps(w: Custody, s: Step)
    requires Inv(w) && Legal(w, s)
    ensures Inv(Next(w, s))
  {
    hide AllToldRight, AllKnow, Writing, Restates, BatchMention;
    match s {
      case Write(from, e, op, reliable) => WritingKeeps(w, from, e, op, reliable);
      case Adopt(authority, who, batches) => AdoptKeeps(w, authority, who, batches);
      case Unheld(_) =>
      case Enter(who) => EnterKeeps(w, who);
      case Seed(who, batches) => SeedKeeps(w, who, batches);
      case Resume(who, batches) =>
        LessIsClaimed(w, who);
        SeededKeeps(Away(w, who), who, batches);
      case Suspend(who) => LessIsClaimed(w, who);
      case Remove(who) => LessIsClaimed(w, who);
      case Elsewhere(_) =>
    }
  }

  // ----- Every run -----

  ghost predicate LegalRun(steps: seq<Step>)
    decreases |steps|, 0
  {
    steps == [] || (LegalRun(Front(steps)) && Legal(Run(Front(steps)), Last(steps)))
  }

  ghost function Run(steps: seq<Step>): Custody
    requires LegalRun(steps)
    decreases |steps|, 1
  {
    if steps == [] then NOTHING else Next(Run(Front(steps)), Last(steps))
  }

  lemma {:induction false} RunKeeps(steps: seq<Step>)
    requires LegalRun(steps)
    ensures Inv(Run(steps))
  {
    if steps != [] {
      RunKeeps(Front(steps));
      hide Inv, Next, Legal;
      NextKeeps(Run(Front(steps)), Last(steps));
    }
  }

  // ----- A member that loses lossy lines and gets the rest in any order -----

  /** What a member draws: per entity the newest word it has received, a drop leaving a tombstone. */
  type View = map<Entity, Word>

  function AppliedEntries(v: View, l: Line, entries: seq<WorldEntry>): View {
    if entries == [] then v
    else
      var u := AppliedEntries(v, l, Front(entries));
      var e := Entity(l.authority, Last(entries).key);
      if e in u && u[e].stamp >= l.stamp then u else u[e := Word(l.stamp, Last(entries).blob)]
  }

  function Viewed(got: seq<Line>): View {
    if got == [] then map[] else AppliedEntries(Viewed(Front(got)), Last(got), Last(got).entries)
  }

  lemma {:induction false} AppliedIsNewer(v: View, l: Line, entries: seq<WorldEntry>, e: Entity)
    ensures var said := if l.authority == e.authority then Mention(entries, e.key) else None;
            var u := AppliedEntries(v, l, entries);
            if said.Some? && (e !in v || v[e].stamp < l.stamp) then e in u && u[e] == Word(l.stamp, said.value)
            else (e in u <==> e in v) && (e in v ==> u[e] == v[e])
  {
    if entries != [] {
      AppliedIsNewer(v, l, Front(entries), e);
    }
  }

  function SaidBy(l: Line, e: Entity): Option<Option<Text>> {
    if l.authority == e.authority then Mention(l.entries, e.key) else None
  }

  /** The order of arrival does not matter: the view holds, of each entity, a newest word received. */
  lemma {:induction false} ViewIsNewest(got: seq<Line>, e: Entity)
    ensures e in Viewed(got) ==>
              exists i | 0 <= i < |got| ::
                SaidBy(got[i], e) == Some(Viewed(got)[e].blob) && got[i].stamp == Viewed(got)[e].stamp
    ensures forall i | 0 <= i < |got| && SaidBy(got[i], e).Some? ::
              e in Viewed(got) && got[i].stamp <= Viewed(got)[e].stamp
  {
    if got != [] {
      var front := Front(got);
      ViewIsNewest(front, e);
      AppliedIsNewer(Viewed(front), Last(got), Last(got).entries, e);
      if e in Viewed(front) {
        var i :| 0 <= i < |front| && SaidBy(front[i], e) == Some(Viewed(front)[e].blob) &&
                 front[i].stamp == Viewed(front)[e].stamp;
        assert got[i] == front[i];
      }
      forall i | 0 <= i < |got| && SaidBy(got[i], e).Some?
        ensures e in Viewed(got) && got[i].stamp <= Viewed(got)[e].stamp
      {
        assert i < |front| ==> front[i] == got[i];
      }
    }
  }

  /** What reached m: lines addressed to it, every reliable one among them. */
  ghost predicate Received(got: seq<Line>, lines: seq<Line>, m: string) {
    && (forall i | 0 <= i < |got| :: got[i] in lines && m in got[i].to)
    && (forall i | 0 <= i < |lines| && m in lines[i].to && !lines[i].unreliable :: lines[i] in got)
  }

  /** The newest word is said by a line, and no line says a newer one. */
  lemma {:induction false} NewestIsSaid(lines: seq<Line>, m: string, e: Entity, reliableOnly: bool)
    ensures var n := Newest(lines, m, e, reliableOnly);
            && (n.Some? ==> exists i | 0 <= i < |lines| ::
                  && Said(lines[i], m, e) == Some(n.value.blob) && lines[i].stamp == n.value.stamp
                  && (reliableOnly ==> !lines[i].unreliable))
            && (n.None? ==>
                  forall i | 0 <= i < |lines| && (reliableOnly ==> !lines[i].unreliable) :: Said(lines[i], m, e).None?)
  {
    if lines != [] {
      var f := Front(lines);
      NewestIsSaid(f, m, e, reliableOnly);
      assert forall i | 0 <= i < |f| :: f[i] == lines[i];
      assert lines[|lines| - 1] == Last(lines);
      var n := Newest(f, m, e, reliableOnly);
      if n.Some? {
        var i :| 0 <= i < |f| && Said(f[i], m, e) == Some(n.value.blob) && f[i].stamp == n.value.stamp &&
                 (reliableOnly ==> !f[i].unreliable);
        assert Said(lines[i], m, e) == Some(n.value.blob);
      }
    }
  }

  lemma {:induction false} NothingNewer(lines: seq<Line>, stamp: nat, m: string, e: Entity, reliableOnly: bool)
    requires Orderly(lines, stamp)
    ensures var n := Newest(lines, m, e, reliableOnly);
            forall i | 0 <= i < |lines| && Said(lines[i], m, e).Some? && (reliableOnly ==> !lines[i].unreliable) ::
              n.Some? && lines[i].stamp <= n.value.stamp
  {
    if lines != [] {
      var f := Front(lines);
      NothingNewer(f, stamp, m, e, reliableOnly);
      forall i | 0 <= i < |lines| && Said(lines[i], m, e).Some? && (reliableOnly ==> !lines[i].unreliable)
        ensures Newest(lines, m, e, reliableOnly).Some?
        ensures lines[i].stamp <= Newest(lines, m, e, reliableOnly).value.stamp
      {
        if i < |f| {
          assert f[i] == lines[i];
          NewestIsSaid(f, m, e, reliableOnly);
        }
      }
    }
  }

  lemma SameStampSameLine(lines: seq<Line>, stamp: nat, a: Line, b: Line)
    requires Orderly(lines, stamp) && a in lines && b in lines && a.stamp == b.stamp
    ensures a == b
  {
  }

  /** A line received that says the view's word of e. */
  lemma ViewIsSaid(got: seq<Line>, e: Entity) returns (l: Line)
    requires e in Viewed(got)
    ensures l in got && SaidBy(l, e) == Some(Viewed(got)[e].blob) && l.stamp == Viewed(got)[e].stamp
  {
    ViewIsNewest(got, e);
    var i :| 0 <= i < |got| && SaidBy(got[i], e) == Some(Viewed(got)[e].blob) && got[i].stamp == Viewed(got)[e].stamp;
    l := got[i];
  }

  lemma NewestLine(lines: seq<Line>, m: string, e: Entity, reliableOnly: bool) returns (l: Line)
    requires Newest(lines, m, e, reliableOnly).Some?
    ensures l in lines && Said(l, m, e) == Some(Newest(lines, m, e, reliableOnly).value.blob)
    ensures l.stamp == Newest(lines, m, e, reliableOnly).value.stamp && (reliableOnly ==> !l.unreliable)
  {
    NewestIsSaid(lines, m, e, reliableOnly);
    var n := Newest(lines, m, e, reliableOnly).value;
    var i :| 0 <= i < |lines| && Said(lines[i], m, e) == Some(n.blob) && lines[i].stamp == n.stamp &&
             (reliableOnly ==> !lines[i].unreliable);
    l := lines[i];
  }

  lemma ReceivedIsSent(got: seq<Line>, lines: seq<Line>, m: string, l: Line, e: Entity)
    requires Received(got, lines, m) && l in got
    ensures l in lines && m in l.to && Said(l, m, e) == SaidBy(l, e)
  {
  }

  lemma ReliableIsReceived(got: seq<Line>, lines: seq<Line>, m: string, l: Line, e: Entity)
    requires Received(got, lines, m) && l in lines && Said(l, m, e).Some? && !l.unreliable
    ensures l in got && e in Viewed(got) && l.stamp <= Viewed(got)[e].stamp
  {
    ViewIsNewest(got, e);
  }

  lemma LossyWordIsNoDrop(lines: seq<Line>, stamp: nat, l: Line, m: string, e: Entity)
    requires Orderly(lines, stamp) && l in lines && l.unreliable && Said(l, m, e).Some?
    ensures Said(l, m, e).value.Some?
  {
    MentionIsAnEntry(l.entries, e.key);
  }

  lemma {:induction false} MentionIsAnEntry(entries: seq<WorldEntry>, key: string)
    ensures Mention(entries, key).Some? ==>
              exists i | 0 <= i < |entries| :: entries[i].blob == Mention(entries, key).value
  {
    if entries != [] {
      MentionIsAnEntry(Front(entries), key);
      if Mention(Front(entries), key).Some? {
        var i :| 0 <= i < |Front(entries)| && Front(entries)[i].blob == Mention(entries, key).value;
        assert entries[i].blob == Mention(entries, key).value;
      } else {
        assert entries[|entries| - 1] == Last(entries);
      }
    }
  }

  /** What the view draws exists: it names e as present only when the relay has e. */
  lemma DrawnExists(w: Custody, m: string, got: seq<Line>, e: Entity)
    requires Inv(w) && m in w.present && Received(got, w.lines, m)
    requires e in Viewed(got) && Viewed(got)[e].blob.Some?
    ensures e in w.world
  {
    hide AllKnow;
    var l := ViewIsSaid(got, e);
    ReceivedIsSent(got, w.lines, m, l, e);
    NothingNewer(w.lines, w.stamp, m, e, false);
    assert ToldRight(w.lines, w.world, m, e);
    if e !in w.world {
      var d := NewestLine(w.lines, m, e, true);
      hide ToldAllRight, Orderly;
      ReliableIsReceived(got, w.lines, m, d, e);
      SameStampSameLine(w.lines, w.stamp, l, d);
    }
  }

  /** What exists is drawn. */
  lemma ExistingIsDrawn(w: Custody, m: string, got: seq<Line>, e: Entity)
    requires Inv(w) && m in w.attentive && Received(got, w.lines, m) && e in w.world
    ensures e in Viewed(got) && Viewed(got)[e].blob.Some?
  {
    assert KnowsAll(w.lines, w.world, m) && KnowsOf(w.lines, m, e);
    hide AllKnow, AllToldRight, KnowsAll, ToldAllRight;
    var r := NewestLine(w.lines, m, e, true);
    ReliableIsReceived(got, w.lines, m, r, e);
    var l := ViewIsSaid(got, e);
    ReceivedIsSent(got, w.lines, m, l, e);
    if l.unreliable {
      LossyWordIsNoDrop(w.lines, w.stamp, l, m, e);
    } else {
      NothingNewer(w.lines, w.stamp, m, e, true);
      SameStampSameLine(w.lines, w.stamp, l, r);
    }
  }

  /** Where the newest word about e arrived, the view has the relay's blob. */
  lemma NewestWins(w: Custody, m: string, got: seq<Line>, e: Entity)
    requires Inv(w) && m in w.present && Received(got, w.lines, m)
    requires Newest(w.lines, m, e, false).Some?
    requires exists l | l in got :: l.stamp == Newest(w.lines, m, e, false).value.stamp
    ensures e in Viewed(got) && Viewed(got)[e].blob == if e in w.world then Some(w.world[e]) else None
  {
    assert ToldRight(w.lines, w.world, m, e);
    hide AllKnow, AllToldRight, ToldAllRight, ToldRight;
    var n := NewestLine(w.lines, m, e, false);
    var a :| a in got && a.stamp == n.stamp;
    ReceivedIsSent(got, w.lines, m, a, e);
    SameStampSameLine(w.lines, w.stamp, a, n);
    ViewIsNewest(got, e);
    var l := ViewIsSaid(got, e);
    ReceivedIsSent(got, w.lines, m, l, e);
    NothingNewer(w.lines, w.stamp, m, e, false);
    SameStampSameLine(w.lines, w.stamp, l, n);
  }

  /**
    Convergence: a member connected since it entered, seeded, that has written nothing, and that receives every reliable
    line and any of the lossy ones in any order, draws exactly the relay's entities; and each with the relay's blob
    wherever the newest word about it arrived.
   */
  lemma Converges(steps: seq<Step>, m: string, got: seq<Line>, e: Entity)
    requires LegalRun(steps) && m in Run(steps).attentive && Received(got, Run(steps).lines, m)
    ensures var w := Run(steps);
            var newest := Newest(w.lines, m, e, false);
            && (e in w.world <==> e in Viewed(got) && Viewed(got)[e].blob.Some?)
            && (newest.Some? && (exists l | l in got :: l.stamp == newest.value.stamp) ==>
                  e in Viewed(got) && Viewed(got)[e].blob == if e in w.world then Some(w.world[e]) else None)
  {
    RunKeeps(steps);
    hide Run, LegalRun, Viewed, Newest, Received;
    var w := Run(steps);
    assert w.attentive <= w.present;
    hide Inv;
    if e in w.world {
      ExistingIsDrawn(w, m, got, e);
    }
    if e in Viewed(got) && Viewed(got)[e].blob.Some? {
      DrawnExists(w, m, got, e);
    }
    var newest := Newest(w.lines, m, e, false);
    if newest.Some? && (exists l | l in got :: l.stamp == newest.value.stamp) {
      NewestWins(w, m, got, e);
    }
  }

  /** No reachable world holds more than 64 entities. */
  lemma WorldIsBounded(steps: seq<Step>)
    requires LegalRun(steps)
    ensures |Run(steps).world| <= MAX_KEYS
  {
    RunKeeps(steps);
  }

  /** An entity changes only by its authority's current holder, and then to exactly what that holder wrote. */
  lemma OnlyHolderWrites(w: Custody, s: Step, e: Entity)
    requires Legal(w, s)
    ensures var after := Next(w, s).world;
            (e in after) != (e in w.world) || (e in after && after[e] != w.world[e]) ==>
              && s.Write? && s.e == e && e.authority in w.holders && w.holders[e.authority] == s.from
              && (if s.op.Set? then e in after && after[e] == s.op.blob else s.op.Drop? && e !in after)
              && (e !in w.world ==> s.reliable && |w.world| < MAX_KEYS)
  {
  }

  // ----- What a holder's write does -----

  /** v is w with one more line, to these members. */
  ghost predicate Tells(w: Custody, v: Custody, authority: string, holder: string, entries: seq<WorldEntry>,
                        reason: Reason, to: set<string>, unreliable: bool)
  {
    && v.stamp == w.stamp + 1
    && v.lines == w.lines + [Line(authority, holder, w.stamp + 1, entries, reason, to, unreliable)]
  }

  /**
    A holder's drop takes the entity out, and its set of a known entity, or a reliable one with room, stores exactly
    that blob; either tells every member but the writer in one line, lossy only for a lossy set. A reliable set of an
    unknown entity without room is answered so; a lossy one does nothing, nor does an operation with no name.
   */
  ghost predicate Heeds(w: Custody, v: Custody, from: string, e: Entity, op: Op, reliable: bool) {
    && v.members == w.members && v.holders == w.holders
    && match op
       case Drop =>
         && v.world == w.world - {e}
         && Tells(w, v, e.authority, from, [WorldEntry(e.key, None)], Written, w.members - {from}, false)
       case Set(blob) =>
         if e in w.world || (reliable && |w.world| < 64) then
           && v.world == w.world[e := blob]
           && Tells(w, v, e.authority, from, [WorldEntry(e.key, Some(blob))], Written, w.members - {from}, !reliable)
         else if reliable then v.world == w.world && Tells(w, v, e.authority, from, [], TooMany, {from}, false)
         else v.world == w.world && v.lines == w.lines
       case Unnamed => v.world == w.world && v.lines == w.lines
  }

  /** Whoever holds the authority is heeded. */
  lemma HolderIsHeeded(w: Custody, from: string, e: Entity, op: Op, reliable: bool)
    requires e.authority in w.holders && w.holders[e.authority] == from
    ensures Heeds(w, Next(w, Write(from, e, op, reliable)), from, e, op, reliable)
  {
    hide Holder;
    match op {
      case Drop =>
      case Set(blob) =>
      case Unnamed =>
    }
  }

  /** The world that the written lines spell out. */
  function Spelled(lines: seq<Line>): map<Entity, Text> {
    if lines == [] then map[]
    else
      var l := Last(lines);
      if l.reason == Written && |l.entries| == 1
      then Changed(Spelled(Front(lines)), Entity(l.authority, l.entries[0].key), l.entries[0].blob)
      else Spelled(Front(lines))
  }

  function Changed(world: map<Entity, Text>, e: Entity, blob: Option<Text>): map<Entity, Text> {
    if blob.Some? then world[e := blob.value] else world - {e}
  }

  lemma SpelledOne(lines: seq<Line>, l: Line)
    ensures l.reason != Written ==> Spelled(lines + [l]) == Spelled(lines)
    ensures l.reason == Written && |l.entries| == 1 ==>
              Spelled(lines + [l]) ==
              Changed(Spelled(lines), Entity(l.authority, l.entries[0].key), l.entries[0].blob)
  {
    assert Front(lines + [l]) == lines;
  }

  lemma {:induction false} SeedingSpellsNothing(w: Custody, to: string, batches: seq<Batch>)
    ensures Spelled(Seeded(w, to, batches).lines) == Spelled(w.lines)
  {
    if batches != [] {
      var f, b := Seeded(w, to, Front(batches)), Last(batches);
      SeedingSpellsNothing(w, to, Front(batches));
      SpelledOne(f.lines, Line(b.authority, Holder(w, b.authority), f.stamp + 1, b.entries, Snapshot, {to}, false));
    }
  }

  lemma WritingSpells(w: Custody, from: string, e: Entity, op: Op, reliable: bool)
    requires Spelled(w.lines) == w.world
    ensures Spelled(Writing(w, from, e, op, reliable).lines) == Writing(w, from, e, op, reliable).world
  {
    hide Spelled;
    var blob := if op.Set? then Some(op.blob) else None;
    SpelledOne(w.lines, Line(e.authority, from, w.stamp + 1, [WorldEntry(e.key, blob)], Written, w.members - {from},
                             !reliable && !op.Drop?));
    SpelledOne(w.lines, Line(e.authority, Holder(w, e.authority), w.stamp + 1, [], Denied, {from}, false));
    SpelledOne(w.lines, Line(e.authority, from, w.stamp + 1, [], TooMany, {from}, false));
  }

  /** In every run the relay's world is exactly what the lines it sent as written spell out. */
  lemma {:induction false} WorldIsItsLog(steps: seq<Step>)
    requires LegalRun(steps)
    ensures Run(steps).world == Spelled(Run(steps).lines)
  {
    if steps != [] {
      var w := Run(Front(steps));
      WorldIsItsLog(Front(steps));
      hide Spelled, Writing, Seeded, Covers, NewHere;
      match Last(steps) {
        case Write(from, e, op, reliable) => WritingSpells(w, from, e, op, reliable);
        case Adopt(authority, who, batches) =>
          SeedingSpellsNothing(w.(holders := w.holders[authority := who]), who, batches);
        case Seed(who, batches) => SeedingSpellsNothing(w, who, batches);
        case Resume(who, batches) => SeedingSpellsNothing(Away(w, who), who, batches);
        case _ =>
      }
    }
  }

  // ----- What a snapshot tells -----

  /** m was told of e after stamp `since`, reliably and last of all, with this blob. */
  ghost predicate ToldSince(lines: seq<Line>, m: string, e: Entity, since: nat, blob: Text) {
    && Newest(lines, m, e, true).Some? && Newest(lines, m, e, true) == Newest(lines, m, e, false)
    && Newest(lines, m, e, true).value.stamp > since && Newest(lines, m, e, true).value.blob == Some(blob)
  }

  lemma {:induction false} SeedingTells(w: Custody, to: string, batches: seq<Batch>, part: map<Entity, Text>)
    requires forall i | 0 <= i < |batches| :: Restates(batches[i], part)
    ensures forall i, e | 0 <= i < |batches| && BatchMention(batches[i], e).Some? ::
              e in part && ToldSince(Seeded(w, to, batches).lines, to, e, w.stamp, part[e])
    ensures var r := Seeded(w, to, batches);
            && r.stamp == w.stamp + |batches| && |r.lines| == |w.lines| + |batches| && w.lines <= r.lines
            && forall i | |w.lines| <= i < |r.lines| :: r.lines[i].to == {to}
  {
    if batches != [] {
      var f, b := Seeded(w, to, Front(batches)), Last(batches);
      var l := Line(b.authority, Holder(w, b.authority), f.stamp + 1, b.entries, Snapshot, {to}, false);
      SeedingTells(w, to, Front(batches), part);
      hide Restates, BatchMention, Newest;
      forall i, e | 0 <= i < |batches| && BatchMention(batches[i], e).Some?
        ensures e in part && ToldSince(f.lines + [l], to, e, w.stamp, part[e])
      {
        assert i < |batches| - 1 ==> Front(batches)[i] == batches[i];
        OneMoreTells(f.lines, l, to, e, w.stamp, part, b);
      }
    }
  }

  lemma OneMoreTells(lines: seq<Line>, l: Line, to: string, e: Entity, since: nat, part: map<Entity, Text>, b: Batch)
    requires Restates(b, part) && b == Batch(l.authority, l.entries)
    requires l.to == {to} && !l.unreliable && l.stamp > since
    requires BatchMention(b, e).Some? || (e in part && ToldSince(lines, to, e, since, part[e]))
    ensures e in part && ToldSince(lines + [l], to, e, since, part[e])
  {
    hide Restates, Newest;
    NewestAfter(lines, l, to, e, true);
    NewestAfter(lines, l, to, e, false);
    MentionOfRestated(b, part, e);
  }

  /**
    Whoever adopts an authority is told its whole world, and whoever is seeded or resumes the room's, each entity with
    its blob, reliably and as the last word to them; and nobody else is told anything.
   */
  lemma NewcomersAreTold(w: Custody, s: Step, e: Entity)
    requires Legal(w, s) && (s.Adopt? || s.Seed? || s.Resume?)
    requires e in w.world && (s.Adopt? ==> e.authority == s.authority)
    ensures var v := Next(w, s);
            && ToldSince(v.lines, s.who, e, w.stamp, w.world[e]) && v.world == w.world
            && w.lines <= v.lines && (forall i | |w.lines| <= i < |v.lines| :: v.lines[i].to == {s.who})
            && (s.Adopt? ==> v.holders == w.holders[s.authority := s.who])
  {
    hide Restates, ToldSince, Seeded;
    var part := if s.Adopt? then Part(w.world, s.authority) else w.world;
    var from := if s.Adopt? then w.(holders := w.holders[s.authority := s.who])
                else if s.Resume? then Away(w, s.who) else w;
    assert Covers(s.batches, part) && e in part && part[e] == w.world[e];
    SeedingTells(from, s.who, s.batches, part);
  }

  // ----- Who is here, who holds and who listens -----

  /** m entered and has not been removed since. */
  predicate IsHere(steps: seq<Step>, m: string) {
    if steps == [] then false
    else
      match Last(steps)
      case Enter(who) => who == m || IsHere(Front(steps), m)
      case Remove(who) => who != m && IsHere(Front(steps), m)
      case _ => IsHere(Front(steps), m)
  }

  /** Who was last given the authority, unless it was freed since. */
  function GivenTo(steps: seq<Step>, authority: string): Option<string> {
    if steps == [] then None
    else
      match Last(steps)
      case Adopt(a, who, _) => if a == authority then Some(who) else GivenTo(Front(steps), authority)
      case Unheld(freed) => if authority in freed then None else GivenTo(Front(steps), authority)
      case _ => GivenTo(Front(steps), authority)
  }

  /** Since it entered, never having been told anything before, m has stayed connected and asked to write nothing. */
  ghost predicate Stays(steps: seq<Step>, m: string)
    requires LegalRun(steps)
  {
    if steps == [] then false
    else
      match Last(steps)
      case Enter(who) => if who == m then NewHere(Run(Front(steps)), m) else Stays(Front(steps), m)
      case Write(from, _, _, _) => from != m && Stays(Front(steps), m)
      case Resume(who, _) => who != m && Stays(Front(steps), m)
      case Suspend(who) => who != m && Stays(Front(steps), m)
      case Remove(who) => who != m && Stays(Front(steps), m)
      case _ => Stays(Front(steps), m)
  }

  /** And it has been seeded meanwhile. */
  ghost predicate Listens(steps: seq<Step>, m: string)
    requires LegalRun(steps)
  {
    if steps == [] then false
    else
      match Last(steps)
      case Seed(who, _) => if who == m then Stays(Front(steps), m) else Listens(Front(steps), m)
      case Enter(who) => who != m && Listens(Front(steps), m)
      case Write(from, _, _, _) => from != m && Listens(Front(steps), m)
      case Resume(who, _) => who != m && Listens(Front(steps), m)
      case Suspend(who) => who != m && Listens(Front(steps), m)
      case Remove(who) => who != m && Listens(Front(steps), m)
      case _ => Listens(Front(steps), m)
  }

  /** In every run the members and the holders are those the steps say. */
  lemma {:induction false} RoomFollowsSteps(steps: seq<Step>, m: string, authority: string)
    requires LegalRun(steps)
    ensures m in Run(steps).members <==> IsHere(steps, m)
    ensures GivenTo(steps, authority) ==
            if authority in Run(steps).holders then Some(Run(steps).holders[authority]) else None
  {
    if steps != [] {
      RoomFollowsSteps(Front(steps), m, authority);
      hide Seeded, NewHere, Covers;
      var w := Run(Front(steps));
      if Last(steps).Write? {
        WritesSpareOthers(w, Last(steps));
      }
      hide Writing;
    }
  }

  /** In every run those the steps show to have stayed are known to have. */
  lemma {:induction false} StayersFollowSteps(steps: seq<Step>, m: string)
    requires LegalRun(steps)
    ensures Stays(steps, m) ==> m in Run(steps).present
  {
    hide Seeded, NewHere, Covers, Writing;
    if steps != [] {
      StayersFollowSteps(Front(steps), m);
      if Last(steps).Write? {
        WritesSpareOthers(Run(Front(steps)), Last(steps));
      }
    }
  }

  /** In every run those the steps show to have listened are known to have. */
  lemma {:induction false} ListenersFollowSteps(steps: seq<Step>, m: string)
    requires LegalRun(steps)
    ensures Listens(steps, m) ==> m in Run(steps).attentive
  {
    hide Seeded, NewHere, Covers, Writing, Stays;
    if steps != [] {
      ListenersFollowSteps(Front(steps), m);
      StayersFollowSteps(Front(steps), m);
      if Last(steps).Write? {
        WritesSpareOthers(Run(Front(steps)), Last(steps));
      }
    }
  }

  lemma WritesSpareOthers(w: Custody, s: Step)
    requires s.Write?
    ensures var v := Next(w, s);
            && v.members == w.members && v.holders == w.holders
            && w.present - {s.from} <= v.present && w.attentive - {s.from} <= v.attentive
  {
  }

  /** Convergence for whoever the steps show to have listened: what is drawn is the relay's, and nothing is missing. */
  lemma ListenersConverge(steps: seq<Step>, m: string, got: seq<Line>, e: Entity)
    requires LegalRun(steps) && Listens(steps, m) && Received(got, Run(steps).lines, m)
    ensures e in Spelled(Run(steps).lines) <==> e in Viewed(got) && Viewed(got)[e].blob.Some?
    ensures var newest := Newest(Run(steps).lines, m, e, false);
            newest.Some? && (exists l | l in got :: l.stamp == newest.value.stamp) && e in Spelled(Run(steps).lines) ==>
              e in Viewed(got) && Viewed(got)[e].blob == Some(Spelled(Run(steps).lines)[e])
  {
    ListenersFollowSteps(steps, m);
    WorldIsItsLog(steps);
    hide Run, LegalRun, Listens, Received, Viewed, Newest, Spelled;
    Converges(steps, m, got, e);
  }

  // ----- Batches of a world -----

  function Batches(authority: string, packed: seq<seq<WorldEntry>>): (r: seq<Batch>)
    ensures |r| == |packed| && forall i | 0 <= i < |packed| :: r[i] == Batch(authority, packed[i])
  {
    seq(|packed|, i requires 0 <= i < |packed| => Batch(authority, packed[i]))
  }

  lemma {:induction false} MentionOfSum(a: seq<WorldEntry>, b: seq<WorldEntry>, key: string)
    ensures Mention(a + b, key) == if Mention(a, key).Some? then Mention(a, key) else Mention(b, key)
  {
    if b == [] {
      assert a + b == a;
    } else {
      FrontOfAppend(a, b);
      MentionOfSum(a, Front(b), key);
    }
  }

  lemma RestatesSum(authority: string, a: seq<WorldEntry>, b: seq<WorldEntry>, part: map<Entity, Text>)
    requires Restates(Batch(authority, a + b), part)
    ensures Restates(Batch(authority, a), part) && Restates(Batch(authority, b), part)
  {
    forall i | 0 <= i < |a|
      ensures Entity(authority, a[i].key) in part && a[i].blob == Some(part[Entity(authority, a[i].key)])
    {
      assert (a + b)[i] == a[i];
    }
    forall i | 0 <= i < |b|
      ensures Entity(authority, b[i].key) in part && b[i].blob == Some(part[Entity(authority, b[i].key)])
    {
      assert (a + b)[|a| + i] == b[i];
    }
  }

  /** However complete entries are cut into batches, the batches are as complete. */
  lemma {:induction false} CutCovers(authority: string, packed: seq<seq<WorldEntry>>, part: map<Entity, Text>)
    requires Restates(Batch(authority, Concat(packed)), part)
    ensures forall i | 0 <= i < |packed| :: Restates(Batch(authority, packed[i]), part)
    ensures forall key | Mention(Concat(packed), key).Some? ::
              exists i | 0 <= i < |packed| :: Mention(packed[i], key).Some?
  {
    if packed != [] {
      var f, l := Front(packed), Last(packed);
      RestatesSum(authority, Concat(f), l, part);
      hide Restates;
      CutCovers(authority, f, part);
      forall i | 0 <= i < |packed|
        ensures Restates(Batch(authority, packed[i]), part)
      {
        assert i < |f| ==> f[i] == packed[i];
      }
      forall key | Mention(Concat(packed), key).Some?
        ensures exists i | 0 <= i < |packed| :: Mention(packed[i], key).Some?
      {
        MentionOfSum(Concat(f), l, key);
        if Mention(Concat(f), key).Some? {
          var i :| 0 <= i < |f| && Mention(f[i], key).Some?;
          assert packed[i] == f[i];
        } else {
          assert packed[|packed| - 1] == l;
        }
      }
    }
  }

  /** Entries that name each entity of one authority. */
  ghost predicate Names(entries: seq<WorldEntry>, authority: string, world: map<Entity, Text>, done: set<Entity>) {
    && Restates(Batch(authority, entries), Part(world, authority))
    && (forall e | e in done :: Mention(entries, e.key).Some?)
    && |entries| == |done|
  }

  lemma NamesOneMore(entries: seq<WorldEntry>, e: Entity, world: map<Entity, Text>, done: set<Entity>)
    requires Names(entries, e.authority, world, done) && e in world && e !in done
    ensures Names(entries + [WorldEntry(e.key, Some(world[e]))], e.authority, world, done + {e})
  {
    var one := [WorldEntry(e.key, Some(world[e]))];
    MentionOfOne(one[0], e.key);
    forall d | d in done + {e}
      ensures Mention(entries + one, d.key).Some?
    {
      MentionOfSum(entries, one, d.key);
    }
  }

  lemma PackedCovers(authority: string, entries: seq<WorldEntry>, world: map<Entity, Text>,
                     packed: seq<seq<WorldEntry>>)
    requires Names(entries, authority, world, Part(world, authority).Keys) && Concat(packed) == entries
    ensures Covers(Batches(authority, packed), Part(world, authority))
  {
    CutCovers(authority, packed, Part(world, authority));
    forall e | e in Part(world, authority)
      ensures exists i | 0 <= i < |packed| :: BatchMention(Batches(authority, packed)[i], e).Some?
    {
      assert Mention(Concat(packed), e.key).Some?;
      var i :| 0 <= i < |packed| && Mention(packed[i], e.key).Some?;
      assert BatchMention(Batches(authority, packed)[i], e).Some?;
    }
  }

  lemma {:induction false} SeededSum(w: Custody, to: string, a: seq<Batch>, b: seq<Batch>)
    ensures Seeded(w, to, a + b) == Seeded(Seeded(w, to, a), to, b)
  {
    if b == [] {
      assert a + b == a;
    } else {
      FrontOfAppend(a, b);
      SeededSum(w, to, a, Front(b));
    }
  }

  /** Entities of the authorities in done. */
  ghost function Within(world: map<Entity, Text>, done: set<string>): set<Entity> {
    set e | e in world && e.authority in done
  }

  /** The batches so far cover the authorities in done, with no more batches than entities. */
  ghost predicate CoversThese(batches: seq<Batch>, world: map<Entity, Text>, done: set<string>) {
    && (forall i | 0 <= i < |batches| :: Restates(batches[i], world))
    && (forall e | e in world && e.authority in done ::
          exists i | 0 <= i < |batches| :: BatchMention(batches[i], e).Some?)
    && |batches| <= |Within(world, done)|
  }

  lemma WithinOneMore(world: map<Entity, Text>, done: set<string>, a: string)
    requires a !in done
    ensures |Within(world, done + {a})| == |Within(world, done)| + |Part(world, a)|
  {
    assert Within(world, done + {a}) == Within(world, done) + Part(world, a).Keys;
  }

  lemma CoversOneMore(batches: seq<Batch>, more: seq<Batch>, world: map<Entity, Text>, done: set<string>, a: string)
    requires CoversThese(batches, world, done) && a !in done
    requires Covers(more, Part(world, a)) && |more| <= |Part(world, a)|
    ensures CoversThese(batches + more, world, done + {a})
  {
    var all := batches + more;
    WithinOneMore(world, done, a);
    forall i | 0 <= i < |all|
      ensures Restates(all[i], world)
    {
      if i >= |batches| {
        assert all[i] == more[i - |batches|];
        PartRestates(world, a, all[i]);
      }
    }
    forall e | e in world && e.authority in done + {a}
      ensures exists i | 0 <= i < |all| :: BatchMention(all[i], e).Some?
    {
      if e.authority == a {
        assert e in Part(world, a);
        var i :| 0 <= i < |more| && BatchMention(more[i], e).Some?;
        assert all[|batches| + i] == more[i];
      } else {
        var i :| 0 <= i < |batches| && BatchMention(batches[i], e).Some?;
        assert all[i] == batches[i];
      }
    }
  }

  // ----- The world as the source keeps it -----

  class WorldTable {
    var world: map<Entity, Text>
    var holders: map<string, string>
    var members: set<string>
    var stamp: nat
    ghost var lines: seq<Line>
    ghost var present: set<string>
    ghost var attentive: set<string>

    ghost function Abs(): Custody
      reads this
    {
      Custody(world, holders, members, stamp, lines, present, attentive)
    }

    constructor ()
      ensures Abs() == NOTHING
    {
      world, holders, members, stamp := map[], map[], {}, 0;
      lines, present, attentive := [], {}, {};
    }

    method Send(authority: string, holder: string, entries: seq<WorldEntry>, reason: Reason, to: set<string>,
                unreliable: bool)
      modifies this`stamp, this`lines
      ensures Abs() == Sent(old(Abs()), authority, holder, entries, reason, to, unreliable)
    {
      stamp := stamp + 1;
      lines := lines + [Line(authority, holder, stamp, entries, reason, to, unreliable)];
    }

    method HandleWorld(from: string, e: Entity, op: Op, reliable: bool)
      modifies this`world, this`stamp, this`lines, this`present, this`attentive
      ensures Abs() == Writing(old(Abs()), from, e, op, reliable)
    {
      var known := e in world;
      var holder := if e.authority in holders then holders[e.authority] else "";
      if e.authority !in holders || holder != from {
        Send(e.authority, holder, [], Denied, {from}, false);
      } else if op.Set? && !known && !reliable {
        return;
      } else if op.Set? && !known && |world| >= MAX_KEYS {
        Send(e.authority, from, [], TooMany, {from}, false);
      } else if op.Unnamed? {
        return;
      } else {
        var entry;
        if op.Drop? {
          world := world - {e};
          entry := WorldEntry(e.key, None);
        } else {
          world := world[e := op.blob];
          entry := WorldEntry(e.key, Some(op.blob));
        }
        present, attentive := present - {from}, attentive - {from};
        Send(e.authority, from, [entry], Written, members - {from}, !reliable && !op.Drop?);
      }
    }

    /** One authority's entries, in some order. */
    method EntriesOf(authority: string) returns (entries: seq<WorldEntry>)
      ensures Names(entries, authority, world, Part(world, authority).Keys)
    {
      hide Restates, Mention;
      entries := [];
      var todo := Part(world, authority).Keys;
      ghost var done: set<Entity> := {};
      NoneNamed(authority, world);
      while todo != {}
        invariant todo + done == Part(world, authority).Keys && todo !! done
        invariant Names(entries, authority, world, done)
        decreases todo
      {
        var e :| e in todo;
        NamesOneMore(entries, e, world, done);
        entries := entries + [WorldEntry(e.key, Some(world[e]))];
        todo, done := todo - {e}, done + {e};
      }
      assert done == Part(world, authority).Keys;
    }

    /** Sends entries in as few messages as keep within the budget. */
    method PackWorld(authority: string, entries: seq<WorldEntry>, to: string, size: seq<WorldEntry> -> int)
      returns (ghost packed: seq<seq<WorldEntry>>)
      modifies this`stamp, this`lines
      ensures packed == if entries == [] then [[]] else Packed(entries, size, MESSAGE_BUDGET)
      ensures Abs() == Seeded(old(Abs()), to, Batches(authority, packed))
    {
      hide Packed, Seeded;
      var outs := Pack(entries, size, MESSAGE_BUDGET);
      packed := outs;
      var holder := if authority in holders then holders[authority] else "";
      ghost var before := Abs();
      SeededNone(before, to);
      assert Batches(authority, outs)[..0] == [];
      var i := 0;
      while i < |outs|
        invariant 0 <= i <= |outs| && holder == Holder(before, authority)
        invariant Abs() == Seeded(before, to, Batches(authority, outs)[..i])
      {
        SeededOne(before, to, Batches(authority, outs), i);
        Send(authority, holder, outs[i], Snapshot, {to}, false);
        i := i + 1;
      }
      assert Batches(authority, outs)[..i] == Batches(authority, packed);
    }

    /** One authority's world, for the member that adopts it. An empty world is still one message. */
    method WorldSnapshot(authority: string, to: string, size: seq<WorldEntry> -> int)
      returns (ghost batches: seq<Batch>)
      modifies this`stamp, this`lines
      ensures Covers(batches, Part(world, authority)) && batches != []
      ensures |batches| <= |Part(world, authority)| || (Part(world, authority) == map[] && |batches| == 1)
      ensures Abs() == Seeded(old(Abs()), to, batches)
    {
      hide Packed, Covers, Seeded, Restates, Mention;
      var entries := EntriesOf(authority);
      ghost var packed := PackWorld(authority, entries, to, size);
      PackIsComplete(entries, size);
      PackedCovers(authority, entries, world, packed);
      batches := Batches(authority, packed);
    }

    /** Every authority's world, for a newcomer or a returning member: never more lines than entities. */
    method WorldSnapshotAll(to: string, size: (string, seq<WorldEntry>) -> int) returns (ghost batches: seq<Batch>)
      modifies this`stamp, this`lines
      ensures Covers(batches, world) && |batches| <= |world|
      ensures Abs() == Seeded(old(Abs()), to, batches)
    {
      hide Covers, CoversThese, Seeded, Part;
      ghost var before := Abs();
      var todo := set e | e in world :: e.authority;
      ghost var all := todo;
      ghost var done: set<string> := {};
      batches := [];
      NothingCovered(before, to);
      while todo != {}
        invariant todo + done == all && todo !! done
        invariant CoversThese(batches, world, done)
        invariant Abs() == Seeded(before, to, batches)
        decreases todo
      {
        var a :| a in todo;
        HasEntities(world, a);
        ghost var more := WorldSnapshot(a, to, es => size(a, es));
        CoversOneMore(batches, more, world, done, a);
        SeededSum(before, to, batches, more);
        batches := batches + more;
        todo, done := todo - {a}, done + {a};
      }
      CoveredAll(batches, world, done);
    }
  }

  lemma SeededNone(w: Custody, to: string)
    ensures Seeded(w, to, []) == w
  {
  }

  lemma SeededOne(w: Custody, to: string, batches: seq<Batch>, i: nat)
    requires i < |batches|
    ensures var b := batches[i];
            Seeded(w, to, batches[..i + 1]) ==
            Sent(Seeded(w, to, batches[..i]), b.authority, Holder(w, b.authority), b.entries, Snapshot, {to}, false)
  {
    assert Front(batches[..i + 1]) == batches[..i];
  }

  lemma HasEntities(world: map<Entity, Text>, a: string)
    requires exists e :: e in world && e.authority == a
    ensures Part(world, a) != map[]
  {
    var e :| e in world && e.authority == a;
    assert e in Part(world, a);
  }

  lemma NoneNamed(authority: string, world: map<Entity, Text>)
    ensures Names([], authority, world, {})
  {
  }

  lemma PackIsComplete(entries: seq<WorldEntry>, size: seq<WorldEntry> -> int)
    ensures var packed := if entries == [] then [[]] else Packed(entries, size, MESSAGE_BUDGET);
            Concat(packed) == entries && packed != [] && |packed| <= if entries == [] then 1 else |entries|
  {
    if entries == [] {
      assert Concat([[]]) == [] + [];
    } else {
      PackedIsComplete(entries, size, MESSAGE_BUDGET);
    }
  }

  lemma NothingCovered(w: Custody, to: string)
    ensures CoversThese([], w.world, {}) && Seeded(w, to, []) == w
  {
  }

  lemma CoveredAll(batches: seq<Batch>, world: map<Entity, Text>, done: set<string>)
    requires CoversThese(batches, world, done) && forall e | e in world :: e.authority in done
    ensures Covers(batches, world) && |batches| <= |world|
  {
    assert Within(world, done) == world.Keys;
  }
}
