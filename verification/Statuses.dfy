/** What the check of status changes stops: nothing but a change away from done. */
module Statuses {
  import opened Wrappers
  import opened Queues
  import opened Counters
  import opened Store
  import opened Protocol

  /** The place of a status in the flow a vote is meant to take. */
  function Place(s: Status): Option<nat> {
    match s
    case StatusPending => Some(0)
    case StatusVerified => Some(1)
    case StatusAggregated => Some(2)
    case StatusProcessed => Some(3)
    case StatusDone => Some(4)
    case _ => None
  }

  predicate ValidTransition(from: Status, to: Status) {
    if from == StatusDone then false
    else if to == StatusError || to == StatusTimeout then true
    else if to == StatusDone then from == StatusProcessed
    else
      match from
      case StatusPending => to == StatusVerified
      case StatusVerified => to == StatusAggregated
      case StatusAggregated => to == StatusProcessed
      case StatusProcessed => to == StatusDone || to == StatusAggregated
      case _ => false
  }

  /** The change is one step forward in the flow. */
  predicate Forward(from: Status, to: Status) {
    Place(from).Some? && Place(to) == Some(Place(from).value + 1)
  }

  /** A change is valid when it steps forward, rolls a processed vote back, or fails one that is not done. */
  lemma ValidTransitionsFollowTheFlow(from: Status, to: Status)
    ensures ValidTransition(from, to) <==>
            || Forward(from, to)
            || (from == StatusProcessed && to == StatusAggregated)
            || (from != StatusDone && to in {StatusError, StatusTimeout})
  {
    match from
    case StatusPending =>
    case StatusVerified =>
    case StatusAggregated =>
    case StatusProcessed =>
    case _ =>
  }

  /** The statuses after a write, and whether it was logged as an invalid change. */
  datatype Write = Write(statuses: Statuses, warned: bool)

  function SetVoteIDStatus(m: Statuses, k: VerifiedKey, s: Status): Write {
    if k in m then
      if m[k] == StatusDone then Write(m, false)
      else Write(m[k := s], !ValidTransition(m[k], s))
    else Write(m[k := s], false)
  }

  /**
   A write takes effect exactly when the current status is not done. It is
   logged exactly when the change is invalid and the current status is not
   done, and then it takes effect all the same; a valid change always does.
   */
  lemma OnlyDoneStopsAWrite(m: Statuses, k: VerifiedKey, s: Status)
    ensures SetVoteIDStatus(m, k, s).statuses == SetStatus(m, k, s)
    ensures var after := SetStatus(m, k, s);
            && after.Keys == m.Keys + {k}
            && (after[k] == s <==> (k in m && m[k] == StatusDone ==> s == StatusDone))
            && (forall l :: l in m && l != k ==> after[l] == m[l])
    ensures SetVoteIDStatus(m, k, s).warned <==> k in m && m[k] != StatusDone && !ValidTransition(m[k], s)
    ensures SetVoteIDStatus(m, k, s).warned ==> SetStatus(m, k, s)[k] == s
    ensures k in m && ValidTransition(m[k], s) ==> SetStatus(m, k, s)[k] == s
    ensures k in m && SetStatus(m, k, s) == m ==> !ValidTransition(m[k], s) || m[k] == s
  {
    var after := SetStatus(m, k, s);
    assert after == if k in m && m[k] == StatusDone then m else m[k := s];
  }

  /**
   Invalid changes do happen: a pending ballot that is removed while its
   verification runs, and verified afterwards, goes from error to verified.
   */
  lemma RemovedVoteIsVerified(n: Node, v: VoteID, vb: VerifiedBallot) returns (nodes: seq<Node>, steps: seq<Step>)
    requires v in n.db.pending && n.db.pending[v].processID == vb.processID
    requires ValidProcessID(vb.processID) && vb.processID in n.db.books.stats
    requires var k := VerifiedKey(vb.processID, v); k in n.db.statuses ==> n.db.statuses[k] != StatusDone
    ensures Path(nodes, steps) && |steps| == 2 && nodes[0] == n
    ensures var k := VerifiedKey(vb.processID, v);
            && k in nodes[1].db.statuses && k in nodes[2].db.statuses
            && nodes[2].db.statuses[k] == StatusVerified
            && !ValidTransition(nodes[1].db.statuses[k], nodes[2].db.statuses[k])
  {
    var p := vb.processID;
    var removed := n.(db := RemovePending(n.db, p, v));
    var verified := removed.(db := MarkVerified(removed.db, v, Some(vb)).db);
    nodes, steps := [n, removed, verified],
                    [Ballots(RemovePendingBallot(p, v)), Ballots(MarkBallotVerified(v, Some(vb)))];
    StatsAreKept(n.db.books, p, [PendingVotes(-1)]);
    assert Next(nodes[0], steps[0], nodes[1]) && Next(nodes[1], steps[1], nodes[2]);
  }

  lemma StatsAreKept(b: Books, p: ProcessID, us: seq<Update>)
    ensures Updated(b, p, us).stats.Keys == b.stats.Keys
  {
  }
}
