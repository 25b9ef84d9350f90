/**
 One store with all its places at once. Every place has its own lock and its own processes, and they
 all change the same disk. What the rest of the store does looks to each place like the quiet
 environment the protocol allows it, so the theorems about one place hold of all of them together.
 */
module WholeStore {
  import opened Wrappers
  import opened Journal
  import opened Protocol
  import opened Lineage
  import opened Safety
  import opened UndoStack

  datatype Process = Process(place: Place, pc: Pc)

  datatype World = World(disk: Disk, holders: map<Place, Pid>, processes: map<Pid, Process>)

  /** What one place sees of the world. */
  function View(w: World, p: Place): State {
    State(w.disk, if p in w.holders then Some(w.holders[p]) else None,
          map pid | pid in w.processes && w.processes[pid].place == p :: w.processes[pid].pc)
  }

  predicate DifferentNames(a: Pc, b: Pc) {
    a.BackedUp? && b.BackedUp? ==> a.id != b.id
  }

  /** The name a writer has taken is a write's, and no other process's. */
  predicate NamesDiffer(w: World) {
    && (forall a :: a in w.processes && w.processes[a].pc.BackedUp? ==> w.processes[a].pc.id.RecoveryId?)
    && forall a, b :: a in w.processes && b in w.processes && a != b ==>
         DifferentNames(w.processes[a].pc, w.processes[b].pc)
  }

  /** A step of one process of `p`; other places keep their locks and processes. */
  ghost predicate WorldStep(w: World, p: Place, e: Event, w': World) {
    && !e.Other? && Step(p, View(w, p), e, View(w', p)) && Orderly(p, View(w, p), e)
    && (e.Arrive? ==> e.pid !in w.processes)
    && (forall q :: q != p ==> View(w', q).holder == View(w, q).holder && View(w', q).pcs == View(w, q).pcs)
    && NamesDiffer(w')
  }

  ghost predicate WorldRun(worlds: seq<World>, places: seq<Place>, events: seq<Event>) {
    && |worlds| == |events| + 1 && |places| == |events|
    && worlds[0].disk.receipts == map[] && worlds[0].holders == map[] && worlds[0].processes == map[]
    && forall k :: 0 <= k < |events| ==> WorldStep(worlds[k], places[k], events[k], worlds[k + 1])
  }

  function Views(worlds: seq<World>, p: Place): seq<State> {
    seq(|worlds|, k requires 0 <= k < |worlds| => View(worlds[k], p))
  }

  function EventsOf(places: seq<Place>, events: seq<Event>, p: Place): seq<Event>
    requires |places| == |events|
  {
    seq(|events|, k requires 0 <= k < |events| => if places[k] == p then events[k] else Other)
  }

  /** No rollback names a write of another place. */
  ghost predicate Kin(d: Disk) {
    forall rb :: rb in d.receipts && d.receipts[rb].Rollback? && d.receipts[rb].rollbackOf in d.receipts ==>
      d.receipts[d.receipts[rb].rollbackOf].place == d.receipts[rb].place
  }

  ghost predicate SourceKnown(d: Disk, q: Place, src: Id) {
    exists rb :: At(d, q, rb) && d.receipts[rb].Rollback? && d.receipts[rb].rollbackOf == src
  }

  /** A process about to mark a source got its name from a rollback of its own place. */
  ghost predicate Grounded(d: Disk, q: Place, pc: Pc) {
    pc.Finish? ==> SourceKnown(d, q, pc.src)
  }

  /** Receipts of a place stay, under the same names and of the same kind. */
  ghost predicate Kept(d: Disk, d': Disk) {
    forall id :: id in d.receipts ==>
      && id in d'.receipts && d'.receipts[id].place == d.receipts[id].place
      && (d.receipts[id].Rollback? ==>
          d'.receipts[id].Rollback? && d'.receipts[id].rollbackOf == d.receipts[id].rollbackOf)
  }

  /** How a step changed the journal: one receipt of `q` rewritten, one new one, or none. */
  ghost predicate Touches(d: Disk, d': Disk, q: Place) {
    && (forall p :: p != q ==> Now(d', p) == Now(d, p))
    && (forall id :: id in d.receipts && d.receipts[id].place != q ==>
        id in d'.receipts && d'.receipts[id] == d.receipts[id])
    && (forall id :: id in d'.receipts && id !in d.receipts ==> d'.receipts[id].place == q)
    && (forall b :: b in d.backups ==> b in d'.backups && d'.backups[b] == d.backups[b])
    && Kept(d, d')
  }

  lemma StateTouches(d: Disk, q: Place, id: Id, st: TxState)
    requires At(d, q, id)
    ensures Touches(d, SetState(d, id, st), q) && (Kin(d) ==> Kin(SetState(d, id, st)))
  {
  }

  lemma MarkTouches(d: Disk, q: Place, src: Id)
    requires Kin(d) && (src in d.receipts ==> At(d, q, src))
    ensures Touches(d, MarkSource(d, src), q) && Kin(MarkSource(d, src))
  {
    if src in d.receipts { StateTouches(d, q, src, RolledBack); }
  }

  lemma NewReceiptTouches(d: Disk, q: Place, id: Id, r: Receipt)
    requires Kin(d) && Fresh(d, id) && r.place == q && (r.Rollback? ==> At(d, q, r.rollbackOf))
    ensures var d' := d.(receipts := d.receipts[id := r]);
      Touches(d, d', q) && Kin(d')
  {
  }

  lemma ReconcileTouches(d: Disk, q: Place, id: Id, task: Task, next: Pc, d': Disk, pc': Pc)
    requires Kin(d) && Pending(d, q, id) && Reconcile(d, id, task, next, d', pc') && !next.Finish?
    ensures Touches(d, d', q) && Kin(d') && Grounded(d', q, pc')
  {
    StateTouches(d, q, id, Reconciled(d, d.receipts[id]));
    assert pc'.Finish? ==> At(d', q, id) && d'.receipts[id].Rollback? && d'.receipts[id].rollbackOf == pc'.src;
  }

  lemma SettleRollbackTouches(d: Disk, q: Place, task: Task, d': Disk, pc': Pc, id: Id)
    requires Kin(d) && SettleForRollback(q, d, task, id, d', pc')
    ensures Touches(d, d', q) && Kin(d') && Grounded(d', q, pc')
  {
    var r := d.receipts[id];
    if r.FsWrite? && r.state == Applied {
      StateTouches(d, q, id, d'.receipts[id].state);
    } else if Reconciled(d, r) == RecoveryRequired {
      StateTouches(d, q, id, RecoveryRequired);
    } else {
      ReconcileTouches(d, q, id, task, if r.FsWrite? then Demote(task, id) else Settle(task), d', pc');
    }
  }

  lemma DecideTouches(d: Disk, q: Place, id: Id, d': Disk, pc': Pc)
    requires Kin(d) && Decide(q, d, id, d', pc')
    ensures Touches(d, d', q) && Kin(d') && Grounded(d', q, pc')
  {
    if At(d, q, id) {
      if Incomplete(d.receipts[id].state) {
        ReconcileTouches(d, q, id, RecoverTask(id), Done(Checked), d', pc');
      } else {
        if d' != d { StateTouches(d, q, id, RecoveryRequired); }
        assert pc'.Finish? ==> d.receipts[id].Rollback? && d.receipts[id].rollbackOf == pc'.src;
      }
    }
  }

  lemma SettleTouches(d: Disk, q: Place, task: Task, d': Disk, pc': Pc)
    requires Kin(d) && Work(q, d, Settle(task), d', pc')
    ensures Touches(d, d', q) && Kin(d') && Grounded(d', q, pc')
  {
    match task
    case WriteTask(_, _) =>
      if AnyPending(d, q) {
        var id :| SettleForWrite(q, d, task, id, d', pc');
        ReconcileTouches(d, q, id, task, Settle(task), d', pc');
      }
    case RollbackTask(wanted) =>
      if AnyPending(d, q) {
        var id :| SettleForRollback(q, d, task, id, d', pc');
        SettleRollbackTouches(d, q, task, d', pc', id);
      } else if pc'.Intended? {
        assert pc'.src in Heads(d, q, wanted);
        NewReceiptTouches(d, q, pc'.rb, d'.receipts[pc'.rb]);
      }
    case RecoverTask(id) => DecideTouches(d, q, id, d', pc');
  }

  lemma WriterTouches(d: Disk, q: Place, pc: Pc, d': Disk, pc': Pc, base: Option<Digest>, chain: seq<Id>, ph: Phase)
    requires Represents(d, q, base, chain, ph) && InControl(d, q, base, chain, ph, pc) && Work(q, d, pc, d', pc')
    requires Kin(d) && WriterStage(pc)
    ensures Touches(d, d', q) && Kin(d') && Grounded(d', q, pc')
  {
    if pc.BackedUp? {
      NewReceiptTouches(d, q, pc.id, d'.receipts[pc.id]);
    } else if pc.Recorded? {
      StackWrites(d, q, base, chain);
      if d' != d { StateTouches(d, q, pc.id, d'.receipts[pc.id].state); }
    }
  }

  lemma RollbackerTouches(d: Disk, q: Place, pc: Pc, d': Disk, pc': Pc, base: Option<Digest>, chain: seq<Id>, ph: Phase)
    requires Represents(d, q, base, chain, ph) && InControl(d, q, base, chain, ph, pc) && Work(q, d, pc, d', pc')
    requires Kin(d) && RollbackStage(pc)
    ensures Touches(d, d', q) && Kin(d') && Grounded(d', q, pc')
  {
    if pc.HalfDone? {
      MarkTouches(d, q, pc.src);
    } else if pc.Logged? {
      StateTouches(d, q, pc.rb, Verified);
    } else if pc.Intended? {
      RestoreTouches(d, q, pc.rb, pc.src, d', pc');
    } else {
      RecordTouches(d, q, pc.rb, pc.src, d', pc');
    }
  }

  lemma RestoreTouches(d: Disk, q: Place, rb: Id, src: Id, d': Disk, pc': Pc)
    requires Kin(d) && At(d, q, rb) && RestoreTarget(q, d, rb, src, d', pc')
    ensures Touches(d, d', q) && Kin(d') && !pc'.Finish?
  {
    if pc'.Done? { StateTouches(d, q, rb, RecoveryRequired); }
  }

  lemma RecordTouches(d: Disk, q: Place, rb: Id, src: Id, d': Disk, pc': Pc)
    requires Kin(d) && At(d, q, rb) && RecordRestored(q, d, rb, src, d', pc')
    ensures Touches(d, d', q) && Kin(d') && !pc'.Finish?
  {
    if pc'.Done? { StateTouches(d, q, rb, RecoveryRequired); }
  }

  /** Every step of the lock holder of `q` stays within `q`. */
  lemma WorkTouches(d: Disk, q: Place, pc: Pc, d': Disk, pc': Pc, base: Option<Digest>, chain: seq<Id>, ph: Phase)
    requires Represents(d, q, base, chain, ph) && InControl(d, q, base, chain, ph, pc) && Work(q, d, pc, d', pc')
    requires Kin(d) && Grounded(d, q, pc)
    ensures Touches(d, d', q) && Kin(d') && Grounded(d', q, pc')
  {
    if WriterStage(pc) {
      WriterTouches(d, q, pc, d', pc', base, chain, ph);
    } else if RollbackStage(pc) {
      RollbackerTouches(d, q, pc, d', pc', base, chain, ph);
    } else if pc.Settle? {
      SettleTouches(d, q, pc.task, d', pc');
    } else if pc.Finish? {
      MarkTouches(d, q, pc.src);
    } else if pc.Demote? {
      StateTouches(d, q, pc.id, Superseded);
    }
  }

  lemma TouchesElsewhere(d: Disk, d': Disk, p: Place, q: Place)
    requires Touches(d, d', q) && p != q
    ensures Elsewhere(d, d', p)
  {
  }

  /** What holds of the whole world between two steps, besides each place's own invariant. */
  ghost predicate Tidy(w: World) {
    && Kin(w.disk) && NamesDiffer(w)
    && forall pid :: pid in w.processes ==> Grounded(w.disk, w.processes[pid].place, w.processes[pid].pc)
  }

  lemma GroundedLasts(d: Disk, d': Disk, q: Place, pc: Pc)
    requires Grounded(d, q, pc) && Kept(d, d')
    ensures Grounded(d', q, pc)
  {
    if pc.Finish? {
      var rb :| At(d, q, rb) && d.receipts[rb].Rollback? && d.receipts[rb].rollbackOf == pc.src;
      assert At(d', q, rb);
    }
  }

  /** The disk after a step, whatever the event: within the place it happened at. */
  lemma StepTouches(w: World, q: Place, e: Event, w': World, base: Option<Digest>, chain: seq<Id>, ph: Phase)
    requires Tidy(w) && WorldStep(w, q, e, w') && Inv(q, View(w, q), base, chain, ph)
    ensures Touches(w.disk, w'.disk, q) && Kin(w'.disk)
    ensures e.Act? ==> Grounded(w'.disk, q, View(w', q).pcs[e.pid])
  {
    var s, s' := View(w, q), View(w', q);
    if e.Act? {
      assert Grounded(w.disk, w.processes[e.pid].place, w.processes[e.pid].pc);
      WorkTouches(w.disk, q, s.pcs[e.pid], w'.disk, s'.pcs[e.pid], base, chain, ph);
    }
  }

  lemma StepStaysTidy(w: World, q: Place, e: Event, w': World, base: Option<Digest>, chain: seq<Id>, ph: Phase)
    requires Tidy(w) && WorldStep(w, q, e, w') && Inv(q, View(w, q), base, chain, ph)
    ensures Tidy(w')
  {
    StepTouches(w, q, e, w', base, chain, ph);
    forall pid | pid in w'.processes ensures Grounded(w'.disk, w'.processes[pid].place, w'.processes[pid].pc) {
      var p, pc := w'.processes[pid].place, w'.processes[pid].pc;
      assert pid in View(w', p).pcs && View(w', p).pcs[pid] == pc;
      if pid in View(w, p).pcs && View(w, p).pcs[pid] == pc {
        assert Grounded(w.disk, p, w.processes[pid].pc);
        GroundedLasts(w.disk, w'.disk, p, pc);
      } else {
        assert p == q;
      }
    }
  }

  /** To every other place, the step is one of the environment's. */
  lemma StepIsOther(w: World, q: Place, e: Event, w': World, p: Place,
                    base: Option<Digest>, chain: seq<Id>, ph: Phase, base': Option<Digest>, chain': seq<Id>, ph': Phase)
    requires p != q && Tidy(w) && WorldStep(w, q, e, w')
    requires Inv(q, View(w, q), base, chain, ph) && Inv(p, View(w, p), base', chain', ph')
    ensures Step(p, View(w, p), Other, View(w', p)) && Orderly(p, View(w, p), Other)
  {
    StepTouches(w, q, e, w', base, chain, ph);
    TouchesElsewhere(w.disk, w'.disk, p, q);
    forall pid | pid in View(w, p).pcs && View(w, p).pcs[pid].BackedUp?
      ensures View(w, p).pcs[pid].id !in w'.disk.receipts
    {
      OthersNames(w, q, e, w', p, pid, base', chain', ph');
    }
  }

  lemma OthersNames(w: World, q: Place, e: Event, w': World, p: Place, pid: Pid,
                    base: Option<Digest>, chain: seq<Id>, ph: Phase)
    requires p != q && NamesDiffer(w) && WorldStep(w, q, e, w') && Inv(p, View(w, p), base, chain, ph)
    requires pid in View(w, p).pcs && View(w, p).pcs[pid].BackedUp?
    ensures View(w, p).pcs[pid].id !in w'.disk.receipts
  {
    TakenIsFresh(View(w, p), p, pid, base, chain, ph);
    NewNames(w, q, e, w', pid);
  }

  /** The name a writer has taken is no receipt's yet. */
  lemma TakenIsFresh(s: State, p: Place, pid: Pid, base: Option<Digest>, chain: seq<Id>, ph: Phase)
    requires Inv(p, s, base, chain, ph) && pid in s.pcs && s.pcs[pid].BackedUp?
    ensures s.pcs[pid].id !in s.disk.receipts
  {
    assert Critical(s.pcs[pid]) && s.holder == Some(pid);
  }

  /** A write receipt appears only under the name its own writer had taken. */
  lemma NewNames(w: World, q: Place, e: Event, w': World, pid: Pid)
    requires NamesDiffer(w) && WorldStep(w, q, e, w')
    requires pid in w.processes && w.processes[pid].place != q && w.processes[pid].pc.BackedUp?
    requires w.processes[pid].pc.id !in w.disk.receipts
    ensures w.processes[pid].pc.id !in w'.disk.receipts
  {
    if e.Act? {
      var pc := View(w, q).pcs[e.pid];
      assert pc == w.processes[e.pid].pc;
      NewName(q, w.disk, pc, w'.disk, View(w', q).pcs[e.pid], w.processes[pid].pc.id);
    }
  }

  lemma NewName(q: Place, d: Disk, pc: Pc, d': Disk, pc': Pc, id: Id)
    requires Work(q, d, pc, d', pc') && id.RecoveryId? && id !in d.receipts
    requires pc.BackedUp? ==> pc.id != id
    ensures id !in d'.receipts
  {
    if pc.Settle? { SettleNames(q, d, pc.task, d', pc', id); }
  }

  lemma SettleNames(q: Place, d: Disk, task: Task, d': Disk, pc': Pc, id: Id)
    requires Work(q, d, Settle(task), d', pc') && id.RecoveryId? && id !in d.receipts
    ensures id !in d'.receipts
  {
    if task.WriteTask? && AnyPending(d, q) {
      var j :| SettleForWrite(q, d, task, j, d', pc');
    } else if task.RollbackTask? && AnyPending(d, q) {
      var j :| SettleForRollback(q, d, task, j, d', pc');
    }
  }

  /** The first `n` steps of the world, as place `p` sees them. */
  ghost predicate SeenInOrder(worlds: seq<World>, places: seq<Place>, events: seq<Event>, p: Place, n: nat)
    requires WorldRun(worlds, places, events) && n <= |events|
  {
    OrderlyRun(p, Views(worlds[..n + 1], p), EventsOf(places[..n], events[..n], p))
    && Init(p, Views(worlds[..n + 1], p)[0])
  }

  lemma ViewKeepsInv(worlds: seq<World>, places: seq<Place>, events: seq<Event>, p: Place, n: nat)
    returns (base: Option<Digest>, chain: seq<Id>, ph: Phase)
    requires WorldRun(worlds, places, events) && n <= |events| && SeenInOrder(worlds, places, events, p, n)
    ensures Inv(p, View(worlds[n], p), base, chain, ph)
  {
    var states := Views(worlds[..n + 1], p);
    var chains, phases := RunKeeps(p, states, EventsOf(places[..n], events[..n], p));
    base, chain, ph := Now(states[0].disk, p), chains[n], phases[n];
  }

  lemma SeesOneMore(worlds: seq<World>, places: seq<Place>, events: seq<Event>, p: Place, n: nat)
    requires WorldRun(worlds, places, events) && n < |events|
    requires Tidy(worlds[n]) && SeenInOrder(worlds, places, events, p, n)
    requires SeenInOrder(worlds, places, events, places[n], n)
    ensures SeenInOrder(worlds, places, events, p, n + 1)
  {
    var q, e, w, w' := places[n], events[n], worlds[n], worlds[n + 1];
    assert WorldStep(w, q, e, w');
    if p != q {
      var base, chain, ph := ViewKeepsInv(worlds, places, events, q, n);
      var base', chain', ph' := ViewKeepsInv(worlds, places, events, p, n);
      StepIsOther(w, q, e, w', p, base, chain, ph, base', chain', ph');
    }
    ViewGrows(worlds, places, events, p, n);
  }

  lemma ViewGrows(worlds: seq<World>, places: seq<Place>, events: seq<Event>, p: Place, n: nat)
    requires WorldRun(worlds, places, events) && n < |events| && SeenInOrder(worlds, places, events, p, n)
    requires var e := if places[n] == p then events[n] else Other;
      Step(p, View(worlds[n], p), e, View(worlds[n + 1], p)) && Orderly(p, View(worlds[n], p), e)
    ensures SeenInOrder(worlds, places, events, p, n + 1)
  {
    var states, seen := Views(worlds[..n + 2], p), EventsOf(places[..n + 1], events[..n + 1], p);
    var states0, seen0 := Views(worlds[..n + 1], p), EventsOf(places[..n], events[..n], p);
    forall k | 0 <= k < |seen| ensures Step(p, states[k], seen[k], states[k + 1]) && Orderly(p, states[k], seen[k]) {
      if k < n {
        assert states[k] == states0[k] && states[k + 1] == states0[k + 1] && seen[k] == seen0[k];
        assert Step(p, states0[k], seen0[k], states0[k + 1]) && Orderly(p, states0[k], seen0[k]);
      }
    }
  }

  lemma {:induction false} StaysTidy(worlds: seq<World>, places: seq<Place>, events: seq<Event>, n: nat)
    requires WorldRun(worlds, places, events) && n <= |events|
    ensures Tidy(worlds[n]) && forall p :: SeenInOrder(worlds, places, events, p, n)
  {
    if n == 0 {
      forall p ensures SeenInOrder(worlds, places, events, p, 0) {
        assert Init(p, View(worlds[0], p));
      }
    } else {
      StaysTidy(worlds, places, events, n - 1);
      assert WorldStep(worlds[n - 1], places[n - 1], events[n - 1], worlds[n]);
      var base, chain, ph := ViewKeepsInv(worlds, places, events, places[n - 1], n - 1);
      StepStaysTidy(worlds[n - 1], places[n - 1], events[n - 1], worlds[n], base, chain, ph);
      forall p ensures SeenInOrder(worlds, places, events, p, n) {
        SeesOneMore(worlds, places, events, p, n - 1);
      }
    }
  }

  /**
   Places do not disturb one another: in every run of the whole store, whatever the interleaving of
   processes at all its places and wherever they crash, what each place sees is an orderly run of
   the protocol, so everything proved of one place holds of every place at once.
   */
  lemma EveryPlaceRunsAlone(worlds: seq<World>, places: seq<Place>, events: seq<Event>, p: Place)
    requires WorldRun(worlds, places, events)
    ensures OrderlyRun(p, Views(worlds, p), EventsOf(places, events, p)) && Init(p, Views(worlds, p)[0])
  {
    StaysTidy(worlds, places, events, |events|);
    assert SeenInOrder(worlds, places, events, p, |events|);
    assert worlds[..|events| + 1] == worlds && places[..|events|] == places && events[..|events|] == events;
  }

  /** The undo stack of every place of the store, in every run. */
  lemma EveryPlaceHasItsStack(worlds: seq<World>, places: seq<Place>, events: seq<Event>, p: Place, k: nat)
    returns (chain: seq<Id>)
    requires WorldRun(worlds, places, events) && k < |worlds| && Clear(worlds[k].disk, p)
    ensures StandingHistory(worlds[k].disk, p, Now(worlds[0].disk, p), chain)
  {
    EveryPlaceRunsAlone(worlds, places, events, p);
    chain := UndoStackRefinement(p, Views(worlds, p), EventsOf(places, events, p), k);
  }
}
