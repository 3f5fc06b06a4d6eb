/**
  Where an exchange's blobs come from (relay/escrow.go): every blob and every agreement in a committed state goes back
  to a request of that party that named that very exchange.
 */
module EscrowProvenance {
  import opened Lists
  import opened Wire
  import opened Escrow

  /** The id each exchange of a run was opened under. */
  ghost function Names(ops: seq<Op>): map<nat, Id>
    requires LegalRun(ops)
  {
    if ops == [] then map[]
    else
      var m := Names(Front(ops));
      if Run(ops).born == Run(Front(ops)).born || !Last(ops).Ask? then m else m[Run(ops).born := Last(ops).id]
  }

  // ----- What one step says about which exchange -----

  ghost predicate IsOf(d: Desk, t: Told) {
    t.birth == 0 || (t.state.id in d.records && d.records[t.state.id].birth == t.birth)
  }

  /** e has only exchanges of d, each under its id, and every new line of e is about one of them. */
  ghost predicate Continues(d: Desk, e: Desk) {
    && d.born == e.born && d.told <= e.told
    && (forall id | id in e.records :: id in d.records && e.records[id].birth == d.records[id].birth)
    && (forall i | |d.told| <= i < |e.told| :: IsOf(d, e.told[i]))
  }

  lemma ContinuesOn(d: Desk, e: Desk, f: Desk)
    requires Continues(d, e) && Continues(e, f)
    ensures Continues(d, f)
  {
    forall i | |d.told| <= i < |f.told|
      ensures IsOf(d, f.told[i])
    {
      if i < |e.told| {
        assert f.told[i] == e.told[i];
      } else {
        assert IsOf(e, f.told[i]);
      }
    }
  }

  lemma TellContinues(d: Desk, id: Id, to: seq<string>)
    requires id in d.records
    ensures Continues(d, Tell(d, id, to))
  {
    hide StateOf;
    assert StateOf(id, d.records[id], d.stamp + 1).id == id by {
      StateNames(id, d.records[id], d.stamp + 1);
    }
  }

  lemma StateNames(id: Id, r: Record, stamp: nat)
    ensures StateOf(id, r, stamp).id == id
  {
  }

  lemma FinishContinues(d: Desk, id: Id, phase: Phase, reason: Reason, now: int)
    requires id in d.records
    ensures Continues(d, Finish(d, id, phase, reason, now))
  {
    var e := Ended(d, id, phase, reason, now);
    assert Continues(d, e);
    TellContinues(e, id, [e.records[id].opener, e.records[id].other]);
    hide Continues, Ended, Tell;
    ContinuesOn(d, e, Finish(d, id, phase, reason, now));
  }

  lemma SettleContinues(d: Desk, id: Id, now: int)
    requires id in d.records
    ensures Continues(d, Settle(d, id, now))
  {
    FinishContinues(d, id, Committed, NoReason, now);
    TellContinues(d, id, [d.records[id].opener, d.records[id].other]);
    hide Continues, Finish, Tell;
  }

  lemma PartContinues(d: Desk, from: string, id: Id, req: Request, now: int)
    requires req.Deposit? || req.Commit?
    ensures Continues(d, if req.Deposit? then Depositing(d, from, id, req.blob, now) else Committing(d, from, id, now))
  {
    if id in d.records {
      var r := d.records[id];
      var s := if req.Deposit? then Given(r, from, Offered(req.blob)) else r.(committed := r.committed + {from});
      var act := Act(r.birth, from, if req.Deposit? then Gave(Offered(req.blob)) else Agreed);
      var e := Put(d, id, s).(acts := d.acts + {act});
      assert Continues(d, e);
      SettleContinues(e, id, now);
      hide Settle, Given;
      ContinuesOn(d, e, Settle(e, id, now));
    }
  }

  lemma {:induction false} DepartureContinues(d: Desk, ids: seq<Id>, party: string, now: int)
    ensures Continues(d, AbortAll(d, ids, party, now))
  {
    if ids != [] {
      DepartureContinues(d, Front(ids), party, now);
      var e := AbortAll(d, Front(ids), party, now);
      hide Continues, Finish;
      if Last(ids) in e.records {
        FinishContinues(e, Last(ids), Aborted, PartyLeft, now);
        ContinuesOn(d, e, Finish(e, Last(ids), Aborted, PartyLeft, now));
      }
    }
  }

  lemma {:induction false} SnapshotContinues(d: Desk, to: string, listing: seq<Id>)
    requires forall id | id in listing :: id in d.records
    ensures Continues(d, Snapshotting(d, to, listing))
  {
    if listing != [] {
      SnapshotContinues(d, to, Front(listing));
      var e := Snapshotting(d, to, Front(listing));
      hide Continues, Tell;
      if |listing| <= MAX_SNAPSHOT_LINES {
        TellContinues(e, Last(listing), [to]);
        ContinuesOn(d, e, Tell(e, Last(listing), [to]));
      }
    }
  }

  lemma StepContinues(d: Desk, op: Op)
    requires Legal(d, op) && !(op.Ask? && op.req.OpenWith?)
    ensures Continues(d, Step(d, op))
  {
    hide Depositing, Committing, AbortAll, Finish, Snapshotting;
    match op {
      case Depart(who, order, now) => DepartureContinues(d, order, who, now);
      case Snapshot(to, listing) => SnapshotContinues(d, to, listing);
      case Timeout(id, now) =>
        if id in d.records {
          FinishContinues(d, id, Aborted, TimedOut, now);
        }
      case Ask(from, id, req, _, now) =>
        if req.Abort? && id in d.records {
          FinishContinues(d, id, Aborted, ByParty, now);
        } else if !req.Abort? {
          PartContinues(d, from, id, req, now);
        }
      case _ =>
    }
  }

  // ----- Names over runs -----

  /** Every record, and every line about an exchange, goes by the id that exchange was opened under. */
  ghost predicate Named(d: Desk, names: map<nat, Id>) {
    && (forall b | b in names :: b <= d.born)
    && (forall id | id in d.records :: d.records[id].birth in names && names[d.records[id].birth] == id)
    && (forall i | 0 <= i < |d.told| :: NamedLine(d.told[i], names))
  }

  ghost predicate NamedLine(t: Told, names: map<nat, Id>) {
    t.birth == 0 || (t.birth in names && names[t.birth] == t.state.id)
  }

  lemma ContinuedNames(d: Desk, e: Desk, names: map<nat, Id>)
    requires Named(d, names) && Continues(d, e)
    ensures Named(e, names)
  {
    forall i | 0 <= i < |e.told|
      ensures NamedLine(e.told[i], names)
    {
      if i < |d.told| {
        assert e.told[i] == d.told[i];
      } else {
        assert IsOf(d, e.told[i]);
      }
    }
  }

  lemma BirthNames(d: Desk, id: Id, opener: string, other: string, names: map<nat, Id>)
    requires Named(d, names) && id !in d.records
    ensures Named(Opened(d, id, opener, other), names[d.born + 1 := id])
  {
    forall i | 0 <= i < |d.told|
      ensures NamedLine(d.told[i], names[d.born + 1 := id])
    {
      assert NamedLine(d.told[i], names);
    }
  }

  lemma OpeningNames(d: Desk, from: string, id: Id, with: string, victim: Option<Id>, names: map<nat, Id>)
    requires Named(d, names)
    ensures var e := Opening(d, from, id, with, victim);
            && (e.born == d.born ==> Named(e, names))
            && (e.born != d.born ==> e.born == d.born + 1 && Named(e, names[e.born := id]))
  {
    if !Opens(d, from, id, with) {
      assert Continues(d, Refuse(d, id, from));
      ContinuedNames(d, Refuse(d, id, from), names);
    } else {
      var e := Evicted(d, victim);
      assert Continues(d, e);
      ContinuedNames(d, e, names);
      BirthNames(e, id, from, with, names);
      var o := Opened(e, id, from, with);
      TellContinues(o, id, [from, with]);
      hide Continues, Named, Tell;
      ContinuedNames(o, Tell(o, id, [from, with]), names[d.born + 1 := id]);
    }
  }

  lemma {:induction false} RunIsNamed(ops: seq<Op>)
    requires LegalRun(ops)
    ensures Named(Run(ops), Names(ops))
  {
    if ops != [] {
      RunIsNamed(Front(ops));
      var d, op := Run(Front(ops)), Last(ops);
      var m := Names(Front(ops));
      hide Named, Opening;
      if op.Ask? && op.req.OpenWith? {
        OpeningNames(d, op.from, op.id, op.req.with, op.victim, m);
      } else {
        StepContinues(d, op);
        ContinuedNames(d, Step(d, op), m);
        ContinuesIsBornAlike(d, Step(d, op));
      }
    }
  }

  lemma ContinuesIsBornAlike(d: Desk, e: Desk)
    requires Continues(d, e)
    ensures e.born == d.born
  {
  }

  /** A name once given stays. */
  lemma {:induction false} NamesStay(ops: seq<Op>, k: nat, b: nat)
    requires LegalRun(ops) && k <= |ops| && LegalRun(ops[..k]) && b in Names(ops[..k])
    ensures b in Names(ops) && Names(ops)[b] == Names(ops[..k])[b]
    decreases |ops|
  {
    if k == |ops| {
      assert ops[..k] == ops;
    } else {
      assert Front(ops)[..k] == ops[..k];
      NamesStay(Front(ops), k, b);
      RunIsNamed(Front(ops));
      BornRises(ops);
      hide Run, LegalRun;
    }
  }

  lemma BornRises(ops: seq<Op>)
    requires LegalRun(ops) && ops != []
    ensures Run(Front(ops)).born <= Run(ops).born
  {
    var d, op := Run(Front(ops)), Last(ops);
    if !(op.Ask? && op.req.OpenWith?) {
      StepContinues(d, op);
    }
  }

  // ----- Back to the requests -----

  /** The k-th step was that party's request with this deed, naming id. */
  ghost predicate Requested(ops: seq<Op>, k: nat, id: Id, who: string, deed: Deed) {
    && k < |ops| && ops[k].Ask? && ops[k].from == who && ops[k].id == id
    && match deed
       case Gave(blob) => ops[k].req.Deposit? && Offered(ops[k].req.blob) == blob
       case Agreed => ops[k].req.Commit?
  }

  lemma ActWasRequested(ops: seq<Op>, a: Act, id: Id)
    requires LegalRun(ops) && a in Run(ops).acts
    requires a.birth in Names(ops) ==> Names(ops)[a.birth] == id
    ensures exists k: nat :: Requested(ops, k, id, a.who, a.deed)
  {
    ActsWereAsked(ops, a);
    var k: nat :| AskedAt(ops, k, a);
    RunIsNamed(ops[..k]);
    hide Run, LegalRun;
    assert Names(ops[..k])[a.birth] == ops[k].id;
    NamesStay(ops, k, a.birth);
    assert Requested(ops, k, id, a.who, a.deed);
  }

  /**
    In every run, each blob in a committed state that leaves the relay was deposited by the party it is filed under, in
    a request naming the exchange the state names, and that party also asked to commit it.
   */
  lemma BlobsWereGiven(ops: seq<Op>, i: nat, p: string)
    requires LegalRun(ops) && i < |Run(ops).told| && Run(ops).told[i].state.phase == Committed
    requires p in Run(ops).told[i].state.parties
    ensures var s := Run(ops).told[i].state;
            && s.blobs.Some? && p in s.blobs.value
            && (exists k: nat :: Requested(ops, k, s.id, p, Gave(s.blobs.value[p])))
            && (exists k: nat :: Requested(ops, k, s.id, p, Agreed))
  {
    CommittedLine(ops, i, p);
    LineIsNamed(ops, i);
    var t := Run(ops).told[i];
    hide Run, LegalRun, Names, Requested;
    ActWasRequested(ops, Act(t.birth, p, Gave(t.state.blobs.value[p])), t.state.id);
    ActWasRequested(ops, Act(t.birth, p, Agreed), t.state.id);
  }

  lemma LineIsNamed(ops: seq<Op>, i: nat)
    requires LegalRun(ops) && i < |Run(ops).told|
    ensures NamedLine(Run(ops).told[i], Names(ops))
  {
    RunIsNamed(ops);
    hide Run, LegalRun, Names, NamedLine;
  }

  lemma CommittedLine(ops: seq<Op>, i: nat, p: string)
    requires LegalRun(ops) && i < |Run(ops).told| && Run(ops).told[i].state.phase == Committed
    requires p in Run(ops).told[i].state.parties
    ensures var d := Run(ops);
            var t := d.told[i];
            && t.birth > 0 && t.state.blobs.Some? && p in t.state.blobs.value
            && Act(t.birth, p, Gave(t.state.blobs.value[p])) in d.acts && Act(t.birth, p, Agreed) in d.acts
  {
    RunKeeps(ops);
    var d := Run(ops);
    hide Run, LegalRun;
    LineIsOk(d, i);
    hide Sound, ToldOk;
    CommittedIsBacked(d.told[i], d.stamp, d.born, d.outcomes, d.acts, p);
  }

  lemma LineIsOk(d: Desk, i: nat)
    requires Sound(d) && i < |d.told|
    ensures ToldOk(d.told[i], d.stamp, d.born, d.outcomes) && OutcomesOk(d.outcomes, d.born, d.acts)
  {
    hide Shape, Distinct, GaveOnce, NoTurningBack, Tally, NoneReady, OutcomesOk, ToldOk;
  }

  lemma CommittedIsBacked(t: Told, stamp: nat, born: nat, outcomes: map<nat, Outcome>, acts: set<Act>, p: string)
    requires ToldOk(t, stamp, born, outcomes) && OutcomesOk(outcomes, born, acts)
    requires t.state.phase == Committed && p in t.state.parties
    ensures t.birth > 0 && t.state.blobs.Some? && p in t.state.blobs.value
    ensures Act(t.birth, p, Gave(t.state.blobs.value[p])) in acts && Act(t.birth, p, Agreed) in acts
  {
    assert OutcomeOk(t.birth, outcomes[t.birth], born, acts);
  }
}
