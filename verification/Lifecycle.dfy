/**
 The life of a receipt over every run: any interleaving, crashes anywhere, recovery or not, and any
 outside edit of the governed file and of the backups.
 */
module Lifecycle {
  import opened Wrappers
  import opened Journal
  import opened Protocol

  /** The only changes of state there are. */
  predicate Edge(a: TxState, b: TxState) {
    match a
    case Prepared => b == Applied || b == RecoveredUnapplied || b == RecoveryRequired
    case Applied => b == Verified || b == RecoveryRequired
    case Verified => b == RecoveryRequired || b == RolledBack
    case RecoveryRequired => b == RolledBack
    case RecoveredUnapplied => b == Superseded
    case RolledBack => false
    case Superseded => false
  }

  function Level(st: TxState): nat {
    match st
    case Prepared => 0
    case Applied => 1
    case RecoveredUnapplied => 1
    case Verified => 2
    case Superseded => 2
    case RecoveryRequired => 3
    case RolledBack => 4
  }

  /** What an undone or about to be undone write can be. */
  ghost predicate CanBeMarked(d: Disk, p: Place, src: Id) {
    At(d, p, src) ==>
      && d.receipts[src].FsWrite?
      && var st := d.receipts[src].state; st == Verified || st == RecoveryRequired || st == RolledBack
  }

  ghost predicate Owns(d: Disk, p: Place, pc: Pc) {
    match pc
    case Finish(_, src) => CanBeMarked(d, p, src)
    case Demote(_, id) => WriteAt(d, p, id) && d.receipts[id].state == RecoveredUnapplied
    case Journaled(_, id) => WriteAt(d, p, id) && d.receipts[id].state == Prepared
    case Replaced(_, id) => WriteAt(d, p, id) && d.receipts[id].state == Prepared
    case Recorded(id, _) => WriteAt(d, p, id) && d.receipts[id].state == Applied
    case Intended(rb, src) => RollbackOf(d, p, rb, src) && d.receipts[rb].state == Prepared
    case Restored(rb, src) => RollbackOf(d, p, rb, src) && d.receipts[rb].state == Prepared
    case Logged(rb, src) => RollbackOf(d, p, rb, src) && d.receipts[rb].state == Applied
    case HalfDone(src) => CanBeMarked(d, p, src)
    case _ => true
  }

  ghost predicate RollbackOf(d: Disk, p: Place, rb: Id, src: Id) {
    At(d, p, rb) && d.receipts[rb].Rollback? && d.receipts[rb].rollbackOf == src
  }

  ghost predicate SourcesStand(d: Disk, p: Place) {
    forall rb :: At(d, p, rb) && d.receipts[rb].Rollback? ==> CanBeMarked(d, p, d.receipts[rb].rollbackOf)
  }

  ghost predicate Inv(p: Place, s: State) {
    && SourcesStand(s.disk, p)
    && (forall pid :: pid in s.pcs && Critical(s.pcs[pid]) ==> s.holder == Some(pid))
    && (s.holder.Some? ==> s.holder.value in s.pcs && Owns(s.disk, p, s.pcs[s.holder.value]))
  }

  /** Outside edits: file, backups and damaged files change at will, the place's valid receipts do not. */
  ghost predicate Tampered(d: Disk, d': Disk, p: Place) {
    && (forall id :: At(d, p, id) <==> At(d', p, id))
    && (forall id :: At(d, p, id) ==> d'.receipts[id] == d.receipts[id])
  }

  ghost predicate AnyStep(p: Place, s: State, e: Event, s': State) {
    Step(p, s, e, s') || (e.Other? && s' == s.(disk := s'.disk) && Tampered(s.disk, s'.disk, p))
  }

  /** Written facts never change; the post digest is recorded once; the state follows an edge or stays. */
  ghost predicate Ages(r: Receipt, r': Receipt) {
    && r'.place == r.place && r'.clock == r.clock
    && (r.state == r'.state || Edge(r.state, r'.state))
    && match r
       case FsWrite(_, st, pre, post, prev, backup, _) =>
         && r'.FsWrite? && r'.pre == pre && r'.prev == prev && r'.backup == backup
         && (st != Prepared ==> r'.post == post)
       case Rollback(_, st, src, expected, restored, _) =>
         && r'.Rollback? && r'.rollbackOf == src && r'.expectedPost == expected
         && (st != Prepared ==> r'.restored == restored)
  }

  ghost predicate Grows(d: Disk, d': Disk, p: Place) {
    forall id :: At(d, p, id) ==> At(d', p, id) && Ages(d.receipts[id], d'.receipts[id])
  }

  lemma StateAges(d: Disk, p: Place, id: Id, st: TxState)
    requires SourcesStand(d, p) && id in d.receipts
    requires At(d, p, id) ==> d.receipts[id].state == st || Edge(d.receipts[id].state, st)
    ensures Grows(d, SetState(d, id, st), p) && SourcesStand(SetState(d, id, st), p)
  {
    var d' := SetState(d, id, st);
    forall rb | At(d', p, rb) && d'.receipts[rb].Rollback? ensures CanBeMarked(d', p, d'.receipts[rb].rollbackOf) {
      assert At(d, p, rb) && d.receipts[rb].rollbackOf == d'.receipts[rb].rollbackOf;
      assert CanBeMarked(d, p, d.receipts[rb].rollbackOf);
    }
  }

  lemma MarkAges(d: Disk, p: Place, src: Id)
    requires SourcesStand(d, p) && CanBeMarked(d, p, src)
    ensures Grows(d, MarkSource(d, src), p) && SourcesStand(MarkSource(d, src), p)
  {
    if src in d.receipts { StateAges(d, p, src, RolledBack); }
  }

  lemma ReconcileAges(p: Place, d: Disk, id: Id, task: Task, next: Pc, d': Disk, pc': Pc)
    requires SourcesStand(d, p) && Pending(d, p, id) && Reconcile(d, id, task, next, d', pc')
    requires next.Demote? ==>
      d.receipts[id].FsWrite? && next.id == id && Reconciled(d, d.receipts[id]) == RecoveredUnapplied
    requires next.Demote? || next.Settle? || next.Done?
    ensures Grows(d, d', p) && SourcesStand(d', p) && Owns(d', p, pc')
  {
    StateAges(d, p, id, Reconciled(d, d.receipts[id]));
    assert At(d', p, id);
  }

  lemma SettleForRollbackAges(p: Place, d: Disk, task: Task, id: Id, d': Disk, pc': Pc)
    requires SourcesStand(d, p) && SettleForRollback(p, d, task, id, d', pc')
    ensures Grows(d, d', p) && SourcesStand(d', p) && Owns(d', p, pc')
  {
    var r := d.receipts[id];
    if r.FsWrite? && r.state == Applied {
      StateAges(d, p, id, d'.receipts[id].state);
    } else if Reconciled(d, r) == RecoveryRequired {
      StateAges(d, p, id, RecoveryRequired);
    } else {
      ReconcileAges(p, d, id, task, if r.FsWrite? then Demote(task, id) else Settle(task), d', pc');
    }
  }

  lemma BeginRollbackAges(p: Place, d: Disk, wanted: Digest, d': Disk, pc': Pc)
    requires SourcesStand(d, p) && BeginRollback(p, d, wanted, d', pc')
    ensures Grows(d, d', p) && SourcesStand(d', p) && Owns(d', p, pc')
  {
    if pc'.Intended? && d' != d {
      assert pc'.src in Heads(d, p, wanted);
      forall rb | At(d', p, rb) && d'.receipts[rb].Rollback? ensures CanBeMarked(d', p, d'.receipts[rb].rollbackOf) {
        assert rb != pc'.rb ==> At(d, p, rb) && CanBeMarked(d, p, d.receipts[rb].rollbackOf);
      }
    }
  }

  lemma DecideAges(p: Place, d: Disk, id: Id, d': Disk, pc': Pc)
    requires SourcesStand(d, p) && Decide(p, d, id, d', pc')
    ensures Grows(d, d', p) && SourcesStand(d', p) && Owns(d', p, pc')
  {
    if At(d, p, id) {
      var r := d.receipts[id];
      if Incomplete(r.state) {
        ReconcileAges(p, d, id, RecoverTask(id), Done(Checked), d', pc');
      } else if r.FsWrite? && r.state == Verified && !BackupOk(d, r) {
        StateAges(d, p, id, RecoveryRequired);
      }
    }
  }

  lemma SettleAges(p: Place, d: Disk, task: Task, d': Disk, pc': Pc)
    requires SourcesStand(d, p) && Work(p, d, Settle(task), d', pc')
    ensures Grows(d, d', p) && SourcesStand(d', p) && Owns(d', p, pc')
  {
    if task.RecoverTask? {
      DecideAges(p, d, task.receipt, d', pc');
    } else if AnyPending(d, p) {
      if task.WriteTask? {
        var id :| SettleForWrite(p, d, task, id, d', pc');
        ReconcileAges(p, d, id, task, Settle(task), d', pc');
      } else {
        var id :| SettleForRollback(p, d, task, id, d', pc');
        SettleForRollbackAges(p, d, task, id, d', pc');
      }
    } else if task.RollbackTask? {
      BeginRollbackAges(p, d, task.wanted, d', pc');
    }
  }

  lemma WriterAges(p: Place, d: Disk, pc: Pc, d': Disk, pc': Pc)
    requires SourcesStand(d, p) && Owns(d, p, pc) && Work(p, d, pc, d', pc')
    requires pc.BackedUp? || pc.Journaled? || pc.Replaced? || pc.Recorded?
    ensures Grows(d, d', p) && SourcesStand(d', p) && Owns(d', p, pc')
  {
    if pc.Recorded? {
      RecordedAges(p, d, pc, d', pc');
    } else {
      assert forall rb :: At(d', p, rb) && d'.receipts[rb].Rollback? ==>
        At(d, p, rb) && d.receipts[rb] == d'.receipts[rb] && CanBeMarked(d, p, d.receipts[rb].rollbackOf);
    }
  }

  lemma RecordedAges(p: Place, d: Disk, pc: Pc, d': Disk, pc': Pc)
    requires SourcesStand(d, p) && Owns(d, p, pc) && Work(p, d, pc, d', pc') && pc.Recorded?
    ensures Grows(d, d', p) && SourcesStand(d', p) && Owns(d', p, pc')
  {
    if d' != d { StateAges(d, p, pc.id, d'.receipts[pc.id].state); }
  }

  lemma RestoreAges(p: Place, d: Disk, rb: Id, src: Id, d': Disk, pc': Pc)
    requires SourcesStand(d, p) && Owns(d, p, Intended(rb, src)) && RestoreTarget(p, d, rb, src, d', pc')
    ensures Grows(d, d', p) && SourcesStand(d', p) && Owns(d', p, pc')
  {
    if pc'.Done? {
      StateAges(d, p, rb, RecoveryRequired);
    } else {
      assert d'.receipts == d.receipts;
      assert forall src' :: CanBeMarked(d, p, src') ==> CanBeMarked(d', p, src');
    }
  }

  lemma RecordAges(p: Place, d: Disk, rb: Id, src: Id, d': Disk, pc': Pc)
    requires SourcesStand(d, p) && Owns(d, p, Restored(rb, src)) && RecordRestored(p, d, rb, src, d', pc')
    ensures Grows(d, d', p) && SourcesStand(d', p) && Owns(d', p, pc')
  {
    if pc'.Done? {
      StateAges(d, p, rb, RecoveryRequired);
    } else {
      forall rb' | At(d', p, rb') && d'.receipts[rb'].Rollback?
        ensures CanBeMarked(d', p, d'.receipts[rb'].rollbackOf)
      {
        assert At(d, p, rb') && d.receipts[rb'].Rollback? && d.receipts[rb'].rollbackOf == d'.receipts[rb'].rollbackOf;
        assert CanBeMarked(d, p, d.receipts[rb'].rollbackOf);
      }
    }
  }

  lemma WorkAges(p: Place, d: Disk, pc: Pc, d': Disk, pc': Pc)
    requires SourcesStand(d, p) && Owns(d, p, pc) && Work(p, d, pc, d', pc')
    ensures Grows(d, d', p) && SourcesStand(d', p) && Owns(d', p, pc')
  {
    match pc
    case Enter(_) =>
    case Settle(task) => SettleAges(p, d, task, d', pc');
    case Finish(_, src) => MarkAges(d, p, src);
    case Demote(_, id) => StateAges(d, p, id, Superseded);
    case BackedUp(_, _) => WriterAges(p, d, pc, d', pc');
    case Journaled(_, _) => WriterAges(p, d, pc, d', pc');
    case Replaced(_, _) => WriterAges(p, d, pc, d', pc');
    case Recorded(_, _) => WriterAges(p, d, pc, d', pc');
    case Intended(rb, src) => RestoreAges(p, d, rb, src, d', pc');
    case Restored(rb, src) => RecordAges(p, d, rb, src, d', pc');
    case Logged(rb, src) =>
      assert CanBeMarked(d, p, src);
      StateAges(d, p, rb, Verified);
    case HalfDone(src) => MarkAges(d, p, src);
  }

  lemma StepAges(p: Place, s: State, e: Event, s': State)
    requires Inv(p, s) && AnyStep(p, s, e, s')
    ensures Inv(p, s') && Grows(s.disk, s'.disk, p)
  {
    match e
    case Act(pid) => WorkAges(p, s.disk, s.pcs[pid], s'.disk, s'.pcs[pid]);
    case Other =>
      assert Tampered(s.disk, s'.disk, p);
      assert forall src :: CanBeMarked(s.disk, p, src) ==> CanBeMarked(s'.disk, p, src);
    case _ =>
  }

  ghost predicate AnyRun(p: Place, states: seq<State>, events: seq<Event>) {
    && |states| == |events| + 1
    && forall k :: 0 <= k < |events| ==> AnyStep(p, states[k], events[k], states[k + 1])
  }

  lemma {:induction false} RunInv(p: Place, states: seq<State>, events: seq<Event>, k: nat)
    requires AnyRun(p, states, events) && Init(p, states[0]) && k < |states|
    ensures Inv(p, states[k])
  {
    if k > 0 {
      RunInv(p, states, events, k - 1);
      assert AnyStep(p, states[k - 1], events[k - 1], states[k]);
      StepAges(p, states[k - 1], events[k - 1], states[k]);
    }
  }

  /** How often the receipt's state changes between two moments of a run. */
  ghost function Changes(p: Place, states: seq<State>, id: Id, i: nat, j: nat): nat
    requires i <= j < |states|
    decreases j
  {
    if i == j then 0
    else Changes(p, states, id, i, j - 1) +
         if id in states[j - 1].disk.receipts && id in states[j].disk.receipts
            && states[j - 1].disk.receipts[id].state != states[j].disk.receipts[id].state then 1 else 0
  }

  /** A receipt `changes` state changes later. */
  predicate Lived(a: Receipt, b: Receipt, changes: nat) {
    && Level(a.state) + changes <= Level(b.state) <= 4
    && (a.state == b.state <==> changes == 0)
    && a.FsWrite? == b.FsWrite?
    && (a.FsWrite? ==> b.pre == a.pre && b.prev == a.prev && (a.state != Prepared ==> b.post == a.post))
  }

  lemma LivesOn(a: Receipt, b: Receipt, c: Receipt, changes: nat)
    requires Lived(a, b, changes) && Ages(b, c)
    ensures Lived(a, c, changes + if b.state != c.state then 1 else 0)
  {
  }

  /**
   Monotone lifecycle: once journaled, a receipt never disappears, its facts never change, its state
   only climbs, and so it changes at most four times in any run.
   */
  lemma {:induction false} LifecycleIsMonotone(p: Place, states: seq<State>, events: seq<Event>, id: Id, i: nat, j: nat)
    requires AnyRun(p, states, events) && Init(p, states[0]) && i <= j < |states|
    requires At(states[i].disk, p, id)
    ensures At(states[j].disk, p, id)
    ensures Lived(states[i].disk.receipts[id], states[j].disk.receipts[id], Changes(p, states, id, i, j))
    decreases j
  {
    if i < j {
      LifecycleIsMonotone(p, states, events, id, i, j - 1);
      StepOf(p, states, events, j - 1, id);
      LivesThrough(p, states, id, i, j);
    }
  }

  lemma LivesThrough(p: Place, states: seq<State>, id: Id, i: nat, j: nat)
    requires i < j < |states| && At(states[i].disk, p, id)
    requires At(states[j - 1].disk, p, id) && At(states[j].disk, p, id)
    requires Lived(states[i].disk.receipts[id], states[j - 1].disk.receipts[id], Changes(p, states, id, i, j - 1))
    requires Ages(states[j - 1].disk.receipts[id], states[j].disk.receipts[id])
    ensures Lived(states[i].disk.receipts[id], states[j].disk.receipts[id], Changes(p, states, id, i, j))
  {
    LivesOn(states[i].disk.receipts[id], states[j - 1].disk.receipts[id], states[j].disk.receipts[id],
            Changes(p, states, id, i, j - 1));
  }

  lemma StepOf(p: Place, states: seq<State>, events: seq<Event>, k: nat, id: Id)
    requires AnyRun(p, states, events) && Init(p, states[0]) && k < |events| && At(states[k].disk, p, id)
    ensures At(states[k + 1].disk, p, id) && Ages(states[k].disk.receipts[id], states[k + 1].disk.receipts[id])
  {
    RunInv(p, states, events, k);
    assert AnyStep(p, states[k], events[k], states[k + 1]);
    StepAges(p, states[k], events[k], states[k + 1]);
  }
}
