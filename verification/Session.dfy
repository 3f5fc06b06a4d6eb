/** The bounded bursts of a join or a resume (relay/resume.go, boundWelcomeRoster in relay/relay.go). */
module Session {
  import opened Lists
  import Backlog
  import Escrow
  import World

  const MAX_SNAPSHOT_LINES: nat := 192

  /** boundSnapshot: the end of a snapshot is what goes. */
  function Bound<T>(lines: seq<T>): (r: seq<T>)
    ensures r <= lines && |r| == if |lines| <= 192 then |lines| else 192
  {
    if |lines| <= MAX_SNAPSHOT_LINES then lines else lines[..MAX_SNAPSHOT_LINES]
  }

  /** A resume snapshot, in its priority order. */
  function Resume<T>(events: seq<T>, escrows: seq<T>, world: seq<T>, leases: seq<T>, states: seq<T>): seq<T> {
    Bound(events + escrows + world + leases + states)
  }

  /** A join snapshot. */
  function Join<T>(world: seq<T>, states: seq<T>): seq<T> {
    Bound(world + states)
  }

  /** The lines nothing else restates fit within the cut, whatever the leases and states add. */
  lemma PriorityLinesSurvive<T>(events: seq<T>, escrows: seq<T>, world: seq<T>, leases: seq<T>, states: seq<T>)
    requires |events| <= Backlog.MAX_MISSED && |escrows| <= Escrow.MAX_SNAPSHOT_LINES && |world| <= World.MAX_KEYS
    ensures events + escrows + world <= Resume(events, escrows, world, leases, states)
    ensures world <= Join(world, states)
  {
    assert (events + escrows + world) + (leases + states) == events + escrows + world + leases + states;
  }

  /**
    In every reachable room the three sections are that short: a returning member's missed events, its exchanges
    (cut to 48) and the room's world, batched as the world plane batches it, always survive the resume cut whole.
   */
  lemma ResumeLosesNothingPrecious(
    events: seq<Backlog.Op>,
    id: string,
    escrows: seq<Escrow.Op>,
    listing: seq<Escrow.Id>,
    world: seq<World.Step>,
    batches: seq<World.Batch>)
    requires Escrow.LegalRun(escrows) && Escrow.IsListing(Escrow.Run(escrows), id, listing)
    requires World.LegalRun(world) && |batches| <= |World.Run(world).world|
    ensures var e := Escrow.Run(escrows);
            var missed := Backlog.Of(Backlog.Run(events).missed, id);
            |missed| + (|Escrow.Snapshotting(e, id, listing).told| - |e.told|) + |batches| <= MAX_SNAPSHOT_LINES
  {
    Backlog.MissedEventsAreHeld(events, id);
    Escrow.SnapshotTells(Escrow.Run(escrows), id, listing);
    World.WorldIsBounded(world);
  }

  // ----- The Welcome's roster -----

  ghost predicate NeverShrinks(size: nat -> int) {
    forall i: nat, j: nat | i <= j :: size(i) <= size(j)
  }

  /**
    boundWelcomeRoster: how many of n members a Welcome of size(k) bytes can carry. The largest prefix that fits, and
    none at all when not even an empty roster does.
   */
  method RosterThatFits(n: nat, size: nat -> int, budget: int) returns (k: nat)
    requires NeverShrinks(size)
    ensures k <= n
    ensures k > 0 ==> size(k) <= budget
    ensures forall j: nat | k < j <= n :: size(j) > budget
  {
    if size(n) <= budget {
      return n;
    }
    var lo: nat, hi: nat := 0, n;
    while lo < hi
      invariant lo <= hi <= n
      invariant lo > 0 ==> size(lo) <= budget
      invariant forall j: nat | hi < j <= n :: size(j) > budget
    {
      var mid: nat := (lo + hi + 1) / 2;
      if size(mid) <= budget {
        lo := mid;
      } else {
        hi := mid - 1;
      }
    }
    return lo;
  }
}
