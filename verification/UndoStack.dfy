/** What holds over whole runs: any number of processes, any interleaving, crashes anywhere. */
module UndoStack {
  import opened Wrappers
  import opened Journal
  import opened Protocol
  import opened Lineage
  import opened Safety

  /** The lock holder is the only process inside the critical section, and the disk is as it relies on. */
  ghost predicate Inv(p: Place, s: State, base: Option<Digest>, chain: seq<Id>, ph: Phase) {
    && Represents(s.disk, p, base, chain, ph)
    && (forall pid :: pid in s.pcs && Critical(s.pcs[pid]) ==> s.holder == Some(pid))
    && (s.holder.Some? ==>
          && s.holder.value in s.pcs && Critical(s.pcs[s.holder.value])
          && InControl(s.disk, p, base, chain, ph, s.pcs[s.holder.value]))
  }

  lemma InitInv(p: Place, s: State)
    requires Init(p, s)
    ensures Inv(p, s, Now(s.disk, p), [], Quiet)
  {
  }

  /** The stack changes only when a write records its replacement or a rollback its restoration. */
  ghost predicate StepMoves(s: State, e: Event, chain: seq<Id>, chain': seq<Id>) {
    if e.Act? && e.pid in s.pcs then Moves(s.pcs[e.pid], chain, chain') else chain' == chain
  }

  lemma StepKeeps(p: Place, s: State, e: Event, s': State, base: Option<Digest>, chain: seq<Id>, ph: Phase)
    returns (chain': seq<Id>, ph': Phase)
    requires Inv(p, s, base, chain, ph) && Step(p, s, e, s') && Orderly(p, s, e)
    ensures Inv(p, s', base, chain', ph') && StepMoves(s, e, chain, chain')
    ensures ph.Blocked? ==> ph' == ph && Now(s'.disk, p) == Now(s.disk, p)
    ensures e.Act? ==> Proceeds(s.pcs[e.pid], s'.pcs[e.pid])
  {
    chain', ph' := chain, ph;
    match e
    case Act(pid) =>
      chain', ph' := WorkKeeps(p, s.disk, s.pcs[pid], s'.disk, s'.pcs[pid], base, chain, ph);
      WorkLeaves(p, s.disk, s.pcs[pid], s'.disk, s'.pcs[pid]);
    case Other =>
      ElsewhereKeeps(s.disk, s'.disk, p, base, chain, ph);
      if s.holder.Some? {
        ElsewhereControl(s.disk, s'.disk, p, base, chain, ph, s.pcs[s.holder.value], s'.pcs[s.holder.value]);
      }
    case Acquire(pid) =>
      PhaseShows(s.disk, p, base, chain, ph);
    case _ =>
  }

  /** A step inside the critical section ends inside it or leaves it for good. */
  lemma WorkLeaves(p: Place, d: Disk, pc: Pc, d': Disk, pc': Pc)
    requires Work(p, d, pc, d', pc')
    ensures !pc'.Start?
  {
  }

  lemma ElsewhereControl(d: Disk, d': Disk, p: Place, base: Option<Digest>, chain: seq<Id>, ph: Phase, pc: Pc, pc': Pc)
    requires Represents(d, p, base, chain, ph) && InControl(d, p, base, chain, ph, pc) && Elsewhere(d, d', p)
    requires pc' == pc && (pc.BackedUp? ==> pc.id !in d'.receipts)
    ensures InControl(d', p, base, chain, ph, pc)
  {
    StackWrites(d, p, base, chain);
    StackCarried(d, d', p, base, chain);
  }

  /**
   Every state of an orderly run has its stack, and the stacks move by pushes and pops alone, from
   whatever represented state the run starts.
   */
  lemma {:induction false} RunKeepsFrom(p: Place, states: seq<State>, events: seq<Event>,
                                        base: Option<Digest>, chain: seq<Id>, ph: Phase)
    returns (chains: seq<seq<Id>>, phases: seq<Phase>)
    requires OrderlyRun(p, states, events) && Inv(p, states[0], base, chain, ph)
    ensures |chains| == |phases| == |states| && chains[0] == chain && phases[0] == ph
    ensures forall k :: 0 <= k < |states| ==> Inv(p, states[k], base, chains[k], phases[k])
    ensures forall k :: 0 <= k < |events| ==> StepMoves(states[k], events[k], chains[k], chains[k + 1])
  {
    chains, phases := [chain], [ph];
    var n := 0;
    while n < |events|
      invariant 0 <= n <= |events| && |chains| == |phases| == n + 1 && chains[0] == chain && phases[0] == ph
      invariant forall k :: 0 <= k <= n ==> Inv(p, states[k], base, chains[k], phases[k])
      invariant forall k :: 0 <= k < n ==> StepMoves(states[k], events[k], chains[k], chains[k + 1])
    {
      assert Step(p, states[n], events[n], states[n + 1]) && Orderly(p, states[n], events[n]);
      var chain', ph' := StepKeeps(p, states[n], events[n], states[n + 1], base, chains[n], phases[n]);
      chains, phases := chains + [chain'], phases + [ph'];
      n := n + 1;
    }
  }

  /** The same from an empty store. */
  lemma {:induction false} RunKeeps(p: Place, states: seq<State>, events: seq<Event>)
    returns (chains: seq<seq<Id>>, phases: seq<Phase>)
    requires OrderlyRun(p, states, events) && Init(p, states[0])
    ensures |chains| == |phases| == |states| && chains[0] == []
    ensures forall k :: 0 <= k < |states| ==> Inv(p, states[k], Now(states[0].disk, p), chains[k], phases[k])
    ensures forall k :: 0 <= k < |events| ==> StepMoves(states[k], events[k], chains[k], chains[k + 1])
  {
    InitInv(p, states[0]);
    chains, phases := RunKeepsFrom(p, states, events, Now(states[0].disk, p), [], Quiet);
  }

  /** Nothing left to settle: what a completed recovery establishes unless it has to block. */
  ghost predicate Clear(d: Disk, p: Place) {
    !AnyPending(d, p) && !AnyBlocking(d, p) && !AnyHalfFinished(d, p)
  }

  /**
   The verified writes, oldest first, form one linear history: each was made on top of the one
   before, on exactly the bytes that one left, and the file holds what the last one left.
   */
  ghost predicate StandingHistory(d: Disk, p: Place, base: Option<Digest>, chain: seq<Id>) {
    && (forall id :: id in chain <==> WriteAt(d, p, id) && d.receipts[id].state == Verified)
    && (forall i, j :: 0 <= i < j < |chain| ==> chain[i] != chain[j])
    && (chain != [] ==> Before(d, chain[0]) == base)
    && (forall i :: 0 < i < |chain| ==> FollowsOn(d, chain[i - 1], chain[i]))
    && Now(d, p) == if chain == [] then base else Post(d, chain[|chain| - 1])
  }

  function Before(d: Disk, id: Id): Option<Digest> {
    if id in d.receipts && d.receipts[id].FsWrite? then d.receipts[id].pre else None
  }

  predicate FollowsOn(d: Disk, below: Id, id: Id) {
    && id in d.receipts && d.receipts[id].FsWrite?
    && d.receipts[id].prev == Some(below) && d.receipts[id].pre == Post(d, below)
  }

  /** At a clear place the representation is the standing history, spelled out. */
  lemma ClearHistory(d: Disk, p: Place, base: Option<Digest>, chain: seq<Id>, ph: Phase)
    requires Represents(d, p, base, chain, ph) && Clear(d, p)
    ensures ph == Quiet && StandingHistory(d, p, base, chain)
  {
    SettledPhase(d, p, base, chain, ph);
    PhaseShows(d, p, base, chain, ph);
    StackWrites(d, p, base, chain);
    forall id | id in chain ensures d.receipts[id].state == Verified {
      var i :| 0 <= i < |chain| && chain[i] == id;
    }
    if chain != [] { assert LinkAt(d, p, base, chain, 0); }
    forall i | 0 < i < |chain| ensures FollowsOn(d, chain[i - 1], chain[i]) {
      assert LinkAt(d, p, base, chain, i);
      assert chain[..i][|chain[..i]| - 1] == chain[i - 1];
    }
  }

  /**
   The undo stack, for every orderly run: wherever the place is clear, its verified writes are one
   linear history over what the file was before the first governed write.
   */
  lemma {:induction false} UndoStackRefinement(p: Place, states: seq<State>, events: seq<Event>, k: nat)
    returns (chain: seq<Id>)
    requires OrderlyRun(p, states, events) && Init(p, states[0]) && k < |states|
    requires Clear(states[k].disk, p)
    ensures StandingHistory(states[k].disk, p, Now(states[0].disk, p), chain)
  {
    var chains, phases := RunKeeps(p, states, events);
    chain := chains[k];
    ClearHistory(states[k].disk, p, Now(states[0].disk, p), chain, phases[k]);
  }

  /** An unsettled receipt shows in the phase. */
  lemma BlockingPhase(d: Disk, p: Place, base: Option<Digest>, chain: seq<Id>, ph: Phase, x: Id)
    requires Represents(d, p, base, chain, ph) && Blocking(d, p, x)
    ensures ph == Blocked(x)
  {
    StackStands(d, p, base, chain, ph);
  }

  lemma StackStands(d: Disk, p: Place, base: Option<Digest>, chain: seq<Id>, ph: Phase)
    requires Represents(d, p, base, chain, ph)
    ensures forall id :: id in chain ==>
      WriteAt(d, p, id) && (d.receipts[id].state == Verified || d.receipts[id].state == Applied)
  {
    StackWrites(d, p, base, chain);
    forall i | 0 <= i < |chain|
      ensures d.receipts[chain[i]].state == Verified || d.receipts[chain[i]].state == Applied
    {
      assert chain[i] in chain;
    }
  }

  /**
   Fail-closed freeze: from the moment a receipt of the place is RECOVERY_REQUIRED, no write,
   rollback or recovery changes the file's bytes, and the receipt stays as it is.
   */
  lemma {:induction false} FrozenForever(p: Place, states: seq<State>, events: seq<Event>, i: nat, j: nat, x: Id)
    requires OrderlyRun(p, states, events) && Init(p, states[0])
    requires i <= j < |states| && Blocking(states[i].disk, p, x)
    ensures Now(states[j].disk, p) == Now(states[i].disk, p) && Blocking(states[j].disk, p, x)
  {
    var chains, phases := RunKeeps(p, states, events);
    BlockingPhase(states[i].disk, p, Now(states[0].disk, p), chains[i], phases[i], x);
    FrozenFrom(p, states, events, Now(states[0].disk, p), chains[i], i, j, x);
  }

  lemma {:induction false} FrozenFrom(p: Place, states: seq<State>, events: seq<Event>, base: Option<Digest>,
                                      chain: seq<Id>, i: nat, j: nat, x: Id)
    requires OrderlyRun(p, states, events) && i <= j < |states|
    requires Inv(p, states[i], base, chain, Blocked(x))
    ensures Now(states[j].disk, p) == Now(states[i].disk, p) && Blocking(states[j].disk, p, x)
    decreases j - i
  {
    if i < j {
      assert Step(p, states[i], events[i], states[i + 1]) && Orderly(p, states[i], events[i]);
      var chain', ph' := StepKeeps(p, states[i], events[i], states[i + 1], base, chain, Blocked(x));
      FrozenFrom(p, states, events, base, chain', i + 1, j, x);
    }
  }

  /** Mutual exclusion: recovery decides, and anybody writes, only while nobody else is inside. */
  lemma OneAtATime(p: Place, states: seq<State>, events: seq<Event>, k: nat, a: Pid, b: Pid)
    requires OrderlyRun(p, states, events) && Init(p, states[0]) && k < |states|
    requires a in states[k].pcs && b in states[k].pcs && Critical(states[k].pcs[a]) && Critical(states[k].pcs[b])
    ensures a == b
  {
    var chains, phases := RunKeeps(p, states, events);
    assert Inv(p, states[k], Now(states[0].disk, p), chains[k], phases[k]);
  }

  /**
   A live writer or rollbacker that passed its checks is never disturbed: every step it takes is
   the successful one, up to its receipt being VERIFIED with the digest of its content.
   */
  lemma LiveWriterSucceeds(p: Place, states: seq<State>, events: seq<Event>, k: nat)
    requires OrderlyRun(p, states, events) && Init(p, states[0]) && k < |events|
    requires events[k].Act? && events[k].pid in states[k].pcs && events[k].pid in states[k + 1].pcs
    ensures Proceeds(states[k].pcs[events[k].pid], states[k + 1].pcs[events[k].pid])
    ensures states[k].pcs[events[k].pid].Recorded? ==>
      var pc := states[k].pcs[events[k].pid];
      && WriteAt(states[k + 1].disk, p, pc.id) && states[k + 1].disk.receipts[pc.id].state == Verified
      && states[k + 1].disk.receipts[pc.id].post == Some(pc.post) == Now(states[k + 1].disk, p)
  {
    var chains, phases := RunKeeps(p, states, events);
    var base := Now(states[0].disk, p);
    assert Inv(p, states[k], base, chains[k], phases[k]);
    assert Step(p, states[k], events[k], states[k + 1]);
    var chain', ph' := StepKeeps(p, states[k], events[k], states[k + 1], base, chains[k], phases[k]);
    if states[k].pcs[events[k].pid].Recorded? {
      StackWrites(states[k].disk, p, base, chains[k]);
    }
  }

  /** At every step and crash point each write over existing bytes has those bytes in its backup. */
  lemma BackupsConserved(p: Place, states: seq<State>, events: seq<Event>, k: nat, id: Id)
    requires OrderlyRun(p, states, events) && Init(p, states[0]) && k < |states|
    requires WriteAt(states[k].disk, p, id) && states[k].disk.receipts[id].pre.Some?
    ensures id in states[k].disk.backups
    ensures Some(Sha256(states[k].disk.backups[id])) == states[k].disk.receipts[id].pre
  {
    var chains, phases := RunKeeps(p, states, events);
    assert HasBackup(states[k].disk, id);
  }
}
