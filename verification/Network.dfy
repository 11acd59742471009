/**
 Any number of sequencers working on one process: each has its own storage and
 its own tree, commits the batches its own storage hands out, and rebuilds from
 the batches anyone has published, in the network or outside it. All that is
 asked of a published batch is that its proof verifies. Steps interleave freely.
 */
module Network {
  import opened Wrappers
  import opened Algebra
  import opened Params
  import opened Ballots
  import opened Tree
  import opened Votes
  import opened Blobs
  import opened Staging
  import opened TallyInvariant
  import opened CircuitChecks
  import opened Replay
  import opened TransitionCircuit
  import opened Elgamal
  import opened Queues
  import opened Driver
  import opened Provenance
  import Protocol
  import Safety
  import Runs

  /** The process: its curve, its encryption key d * gen, its hash and its census. */
  datatype Setting = Setting(c: Curve, gen: Point, d: nat, hash: Hash, processID: ProcessID, census: Option<int> -> nat)
  {
    ghost predicate Valid() {
      && c.Lawful() && c.has(gen)
      && (forall a, b :: census(a) == census(b) ==> a == b)
    }
  }

  datatype Member = Member(node: Protocol.Node, state: Runs.Node)

  /** The members, and the proofs published by them or by anyone else. */
  datatype Net = Net(members: map<nat, Member>, published: set<Witness>)

  datatype Action =
    | Local(step: Protocol.Step)
    | Process(batch: AggregatorBatch, kSeed: nat, votes: seq<Vote>, proof: Option<Witness>)
    | Promote(root: Root)
    | Rebuild(w: Witness)

  datatype Step = By(who: nat, action: Action) | Outside(w: Witness)

  /** What the vote verifier circuit and the census establish of a ballot of the process. */
  ghost predicate Genuine(s: Setting, p: ProcessID, b: AggregatorBallot) {
    p == s.processID ==>
      && b.voterIndex == Some(s.census(b.address))
      && ValidVoteID(b.voteID) && OnCurve(s.c, b.encryptedBallot)
  }

  ghost function GenuineIn(s: Setting): BallotClaim {
    (p: ProcessID, b: AggregatorBallot) => Genuine(s, p, b)
  }

  /** A proof of the staged batch: it starts and ends at its roots, and is about its votes. */
  ghost predicate ProofOf(c: Curve, leaves: Leaves, votes: seq<Vote>, w: Witness)
    requires LeafResults(StageVotes(leaves, votes)).Ok?
  {
    && Proved(c, w)
    && w.rootBefore == Root(leaves) && w.rootAfter == Root(After(c, leaves, votes))
    && RealVotes(w) == RecordedAll(c, leaves, votes)
  }

  /** The tree after a batch that is accepted and proved; any other batch changes nothing. */
  ghost predicate Processed(s: Setting, m: Member, votes: seq<Vote>, proof: Option<Witness>, m': Member,
                            published: set<Witness>, published': set<Witness>) {
    var tx, tx' := m.state.tx, m'.state.tx;
    if Accepts(s.c, tx.leaves, votes) && proof.Some? then
      && ProofOf(s.c, tx.leaves, votes, proof.value)
      && tx'.leaves == After(s.c, tx.leaves, votes)
      && tx.stored <= tx'.stored && Root(tx'.leaves) in tx'.stored
      && m'.state.confirmed == m.state.confirmed + {Root(tx'.leaves)}
      && published' == published + {proof.value}
    else m'.state == m.state && published' == published
  }

  ghost predicate Acts(s: Setting, m: Member, a: Action, m': Member, published: set<Witness>, published': set<Witness>) {
    match a
    case Local(step) =>
      && Protocol.Next(m.node, step, m'.node) && Vouched(GenuineIn(s), m.node, step) && OwnID(m.node, step)
      && m'.state == m.state && published' == published
    case Process(batch, kSeed, votes, proof) =>
      && batch in m.node.taken && batch.processID == s.processID
      && AreVotesOf(s.c, s.gen, Times(s.c, s.d, s.gen), s.hash, kSeed, batch.ballots, votes)
      && m'.node == m.node
      && Processed(s, m, votes, proof, m', published, published')
    case Promote(root) =>
      && Runs.Next(s.c, m.state, Runs.Promote(root), m'.state)
      && m'.node == m.node && published' == published
    case Rebuild(w) =>
      && w in published && Runs.Next(s.c, m.state, Runs.Rebuild(w), m'.state)
      && m'.node == m.node && published' == published
  }

  ghost predicate Next(s: Setting, n: Net, step: Step, n': Net) {
    match step
    case By(who, action) =>
      && who in n.members && who in n'.members
      && n' == Net(n.members[who := n'.members[who]], n'.published)
      && Acts(s, n.members[who], action, n'.members[who], n.published, n'.published)
    case Outside(w) =>
      Proved(s.c, w) && n' == Net(n.members, n.published + {w})
  }

  ghost predicate Initial(s: Setting, n: Net) {
    && n.published == {}
    && (forall i :: i in n.members ==> n.members[i].node == Protocol.INITIAL && Runs.Initial(s.c, n.members[i].state))
  }

  ghost predicate Run(s: Setting, nets: seq<Net>, steps: seq<Step>) {
    && |nets| == |steps| + 1
    && Initial(s, nets[0])
    && (forall i :: 0 <= i < |steps| ==> Next(s, nets[i], steps[i], nets[i + 1]))
  }

  // What holds in every state

  ghost predicate SoundMember(s: Setting, m: Member) {
    && Protocol.SoundNode(m.node)
    && GoodVerified(GenuineIn(s), m.node.db) && GoodNode(Each(GenuineIn(s)), m.node)
    && OwnKeys(m.node.db) && GoodNode(UNIQUE, m.node)
  }

  ghost predicate SoundNet(s: Setting, n: Net) {
    && (forall i :: i in n.members ==> SoundMember(s, n.members[i]))
    && (forall w :: w in n.published ==> Proved(s.c, w))
  }

  /**
   Whatever the storage hands out for the process becomes votes with distinct
   indices, keys in range and points on the curve. Their vote IDs are pairwise
   distinct too, so all that a proof can still refuse is one that is stored.
   */
  lemma HandedOutIsAdmitted(s: Setting, m: Member, batch: AggregatorBatch, kSeed: nat, votes: seq<Vote>, leaves: Leaves)
    requires s.Valid() && SoundMember(s, m) && batch in m.node.taken && batch.processID == s.processID
    requires AreVotesOf(s.c, s.gen, Times(s.c, s.d, s.gen), s.hash, kSeed, batch.ballots, votes)
    ensures WellFormedVotes(s.c, votes) && DistinctIndices(votes)
    ensures FreshVoteIDs(leaves, votes) <==> forall i :: 0 <= i < |votes| ==> votes[i].voteID !in leaves
  {
    assert UNIQUE(batch.processID, batch.ballots) && Protocol.SoundBatch(batch);
    IDsAreDistinct(s, batch, kSeed, votes);
    hide AreVotesOf, Times, OnCurve, DistinctAddresses, WellFormedVotes, DistinctIndices, ValidVoteID;
    forall b | b in batch.ballots
      ensures b.voterIndex == Some(s.census(b.address)) && ValidVoteID(b.voteID) && OnCurve(s.c, b.encryptedBallot)
    {
      assert AllGood(GenuineIn(s), batch.processID, batch.ballots) && GenuineIn(s)(batch.processID, b);
    }
    IndicesAreDistinct(s.c, s.gen, Times(s.c, s.d, s.gen), s.hash, kSeed, s.census, batch.ballots, votes);
    VotesAreWellFormed(s.c, s.gen, s.d, s.hash, kSeed, batch.ballots, votes);
  }

  lemma IDsAreDistinct(s: Setting, batch: AggregatorBatch, kSeed: nat, votes: seq<Vote>)
    requires DistinctVoteIDs(batch.ballots)
    requires AreVotesOf(s.c, s.gen, Times(s.c, s.d, s.gen), s.hash, kSeed, batch.ballots, votes)
    ensures forall i, j :: 0 <= i < j < |votes| ==> votes[i].voteID != votes[j].voteID
  {
    hide Times, Reencrypted, Iterated;
    forall i | 0 <= i < |votes| ensures votes[i].voteID == batch.ballots[i].voteID {
      assert HasVoter(batch.ballots[i]);
    }
  }

  /** The step of a member's tree; a step that leaves the tree alone counts as a refusal. */
  ghost function TreeStep(s: Setting, n: Net, step: Step, who: nat): Runs.Step
    requires who in n.members
  {
    match step
    case Outside(_) => Runs.Refuse([])
    case By(actor, action) =>
      if actor != who then Runs.Refuse([])
      else
        match action
        case Local(_) => Runs.Refuse([])
        case Process(_, _, votes, proof) =>
          if Accepts(s.c, n.members[who].state.tx.leaves, votes) && proof.Some? then Runs.Commit(votes) else Runs.Refuse(votes)
        case Promote(root) => Runs.Promote(root)
        case Rebuild(w) => Runs.Rebuild(w)
  }

  lemma LocalStepIsSound(s: Setting, m: Member, step: Protocol.Step, m': Member)
    requires SoundMember(s, m) && Protocol.Next(m.node, step, m'.node)
    requires Vouched(GenuineIn(s), m.node, step) && OwnID(m.node, step)
    ensures SoundMember(s, m')
  {
    hide Vouched, Protocol.SoundNode, GoodNode, GoodVerified, OwnKeys, OwnID, Protocol.Next, Hereditary, GoodPull;
    Protocol.StepIsSound(m.node, step, m'.node);
    VouchedStepIsGood(GenuineIn(s), m.node, step, m'.node);
    KeysStayOwn(m.node, step, m'.node);
    PullIsUnique(m.node, step, m'.node);
    UniqueIsHereditary();
    StepIsGood(UNIQUE, m.node, step, m'.node);
  }

  lemma ActionProjects(s: Setting, n: Net, step: Step, n': Net)
    requires s.Valid() && SoundNet(s, n) && Next(s, n, step, n') && step.By?
    ensures Runs.Next(s.c, n.members[step.who].state, TreeStep(s, n, step, step.who), n'.members[step.who].state)
    ensures forall w :: w in n'.published ==> Proved(s.c, w)
    ensures SoundMember(s, n'.members[step.who])
  {
    hide After, Accepts, AreVotesOf, LeafResults, StageVotes, Proved, RealVotes, RecordedAll,
         Vouched, Protocol.SoundNode, GoodNode, GoodVerified, OwnKeys, OwnID, Protocol.Next, Times, WellFormedVotes, DistinctIndices,
         FreshVoteIDs;
    var m, m' := n.members[step.who], n'.members[step.who];
    match step.action
    case Local(local) =>
      LocalStepIsSound(s, m, local, m');
    case Process(batch, kSeed, votes, proof) =>
      HandedOutIsAdmitted(s, m, batch, kSeed, votes, m.state.tx.leaves);
    case Promote(root) =>
      hide Runs.Next;
    case Rebuild(w) =>
      hide Runs.Next;
  }

  lemma OthersStay(s: Setting, n: Net, step: Step, n': Net)
    requires Next(s, n, step, n')
    ensures n'.members.Keys == n.members.Keys && (step.By? ==> step.who in n.members)
    ensures forall i :: i in n.members && (step.By? ==> i != step.who) ==> n'.members[i] == n.members[i]
    ensures step.Outside? ==> n'.published == n.published + {step.w} && Proved(s.c, step.w)
  {
    hide Acts, Proved;
  }

  lemma StepIsSound(s: Setting, n: Net, step: Step, n': Net)
    requires s.Valid() && SoundNet(s, n) && Next(s, n, step, n')
    ensures SoundNet(s, n') && n'.members.Keys == n.members.Keys
  {
    hide Next, SoundMember, Proved, TreeStep, Runs.Next;
    OthersStay(s, n, step, n');
    if step.By? {
      ActionProjects(s, n, step, n');
    }
  }

  lemma InitialIsSound(s: Setting, n: Net)
    requires Initial(s, n)
    ensures SoundNet(s, n)
  {
    hide Runs.Initial;
    assert forall good: Claim :: GoodNode(good, Protocol.INITIAL);
  }

  lemma {:induction false} RunIsSound(s: Setting, nets: seq<Net>, steps: seq<Step>, i: nat)
    requires s.Valid() && Run(s, nets, steps) && i < |nets|
    ensures SoundNet(s, nets[i]) && nets[i].members.Keys == nets[0].members.Keys
  {
    hide Next, Initial, SoundNet;
    if i == 0 {
      InitialIsSound(s, nets[0]);
    } else {
      RunIsSound(s, nets, steps, i - 1);
      StepIsSound(s, nets[i - 1], steps[i - 1], nets[i]);
    }
  }

  // Every member sees a run of its own

  ghost predicate Shows(s: Setting, nets: seq<Net>, steps: seq<Step>, who: nat,
                        nodes: seq<Runs.Node>, treeSteps: seq<Runs.Step>)
    requires forall i :: 0 <= i < |nets| ==> who in nets[i].members
  {
    && |nodes| == |nets| && |treeSteps| == |steps| && |nets| == |steps| + 1
    && (forall i :: 0 <= i < |nets| ==> nodes[i] == nets[i].members[who].state)
    && (forall i :: 0 <= i < |steps| ==> treeSteps[i] == TreeStep(s, nets[i], steps[i], who))
  }

  lemma StandingStillIsARefusal(s: Setting, n: Net, step: Step, who: nat)
    requires who in n.members
    ensures (step.By? ==> step.who != who) ==> Runs.Next(s.c, n.members[who].state, TreeStep(s, n, step, who), n.members[who].state)
  {
    hide Accepts;
  }

  lemma StepProjects(s: Setting, n: Net, step: Step, n': Net, who: nat)
    requires s.Valid() && SoundNet(s, n) && Next(s, n, step, n') && who in n.members
    ensures who in n'.members
    ensures Runs.Next(s.c, n.members[who].state, TreeStep(s, n, step, who), n'.members[who].state)
  {
    hide Next, SoundNet, TreeStep, Runs.Next;
    OthersStay(s, n, step, n');
    if step.By? {
      ActionProjects(s, n, step, n');
    }
    StandingStillIsARefusal(s, n, step, who);
  }

  /**
   In every run of the network, what any member does to its tree is a run of
   admitted batches: distinct ballot indices are not assumed but follow from the
   queues and the census, also for the batches published by others.
   */
  lemma MembersRun(s: Setting, nets: seq<Net>, steps: seq<Step>, who: nat)
    returns (nodes: seq<Runs.Node>, treeSteps: seq<Runs.Step>)
    requires s.Valid() && Run(s, nets, steps) && who in nets[0].members
    ensures forall i :: 0 <= i < |nets| ==> who in nets[i].members
    ensures Shows(s, nets, steps, who, nodes, treeSteps) && Runs.Run(s.c, nodes, treeSteps)
  {
    hide Next, SoundNet, Runs.Next, TreeStep, Runs.Initial;
    forall i | 0 <= i < |nets| ensures who in nets[i].members {
      RunIsSound(s, nets, steps, i);
    }
    nodes := seq(|nets|, i requires 0 <= i < |nets| => nets[i].members[who].state);
    treeSteps := seq(|steps|, i requires 0 <= i < |steps| => TreeStep(s, nets[i], steps[i], who));
    forall i | 0 <= i < |steps| ensures Runs.Next(s.c, nodes[i], treeSteps[i], nodes[i + 1]) {
      RunIsSound(s, nets, steps, i);
      assert Next(s, nets[i], steps[i], nets[i + 1]);
      StepProjects(s, nets[i], steps[i], nets[i + 1], who);
    }
  }

  lemma MemberIsSound(s: Setting, nets: seq<Net>, steps: seq<Step>, i: nat, who: nat)
    requires s.Valid() && Run(s, nets, steps) && i < |nets| && who in nets[i].members
    ensures Runs.Sound(s.c, nets[i].members[who].state)
  {
    hide Run, SoundNet, Runs.Run, Runs.Sound, TreeStep;
    RunIsSound(s, nets, steps, i);
    var nodes, treeSteps := MembersRun(s, nets, steps, who);
    Runs.RunIsSound(s.c, nodes, treeSteps, i);
  }

  /**
   A member that knows the root before a published batch can rebuild it at any
   time, whoever published it, and ends where the publisher ended.
   */
  lemma PublishedCanBeRebuilt(s: Setting, nets: seq<Net>, steps: seq<Step>, i: nat, who: nat, w: Witness) returns (next: Net)
    requires s.Valid() && Run(s, nets, steps) && i < |nets| && who in nets[i].members
    requires w in nets[i].published && w.rootBefore in nets[i].members[who].state.confirmed
    ensures Next(s, nets[i], By(who, Rebuild(w)), next)
    ensures who in next.members && Root(next.members[who].state.tx.leaves) == w.rootAfter
  {
    hide Run, Proved, SoundMember, Runs.Sound, Runs.Next;
    RunIsSound(s, nets, steps, i);
    MemberIsSound(s, nets, steps, i, who);
    var m := nets[i].members[who];
    var state := Runs.RebuildIsPossible(s.c, m.state, w);
    next := Net(nets[i].members[who := Member(m.node, state)], nets[i].published);
  }

  lemma ProofShowsFresh(c: Curve, leaves: Leaves, votes: seq<Vote>, w: Witness)
    requires LeafResults(StageVotes(leaves, votes)).Ok? && ProofOf(c, leaves, votes, w)
    ensures FreshVoteIDs(leaves, votes) && w.rootAfter == Root(After(c, leaves, votes))
  {
    hide Proved, After, StageVotes, RealVotes;
    ProvedVoteIDsAreFresh(c, w);
    assert forall i :: 0 <= i < |votes| ==> RecordedAll(c, leaves, votes)[i].voteID == votes[i].voteID;
  }

  /** What a member commits has vote IDs that are new and pairwise distinct, and is published with its proof. */
  lemma CommitsAreFresh(s: Setting, n: Net, who: nat, batch: AggregatorBatch, kSeed: nat, votes: seq<Vote>, w: Witness, n': Net)
    requires Next(s, n, By(who, Process(batch, kSeed, votes, Some(w))), n')
    requires Accepts(s.c, n.members[who].state.tx.leaves, votes)
    ensures FreshVoteIDs(n.members[who].state.tx.leaves, votes) && w in n'.published
    ensures Root(n'.members[who].state.tx.leaves) == w.rootAfter
  {
    hide ProofOf, After, AreVotesOf, LeafResults, StageVotes, Times, FreshVoteIDs, AllMatch, BatchResults;
    ProofShowsFresh(s.c, n.members[who].state.tx.leaves, votes, w);
  }

  /**
   In every state of every run of the network, the results of every member are
   the sum of the latest ballot of every voter, and so they are at every root a
   member may be sent back to.
   */
  lemma EveryTallyHolds(s: Setting, nets: seq<Net>, steps: seq<Step>, i: nat, who: nat)
    requires s.Valid() && Run(s, nets, steps) && i < |nets| && who in nets[i].members
    ensures Balanced(s.c, nets[i].members[who].state.tx.leaves)
    ensures forall r :: r in nets[i].members[who].state.confirmed ==> Balanced(s.c, r.contents)
  {
    hide Run, SoundNet, Runs.Run, Balanced, TreeStep;
    RunIsSound(s, nets, steps, i);
    var nodes, treeSteps := MembersRun(s, nets, steps, who);
    Runs.TallyHoldsOnEveryRun(s.c, nodes, treeSteps);
  }
}
