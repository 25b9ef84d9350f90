/**
 Governed writes, rollbacks and recoveries of one place as a machine of atomic steps. Each durable
 file operation is one step, any number of processes interleave, and any of them may crash between
 two steps, which frees the lock it holds.
 */
module Protocol {
  import opened Wrappers
  import opened Journal

  type Pid = nat

  datatype Task =
    | WriteTask(content: Bytes, expected: Option<Digest>)
    | RollbackTask(wanted: Digest)
    | RecoverTask(receipt: Id)

  datatype Result =
    | Denied | Conflict | Oversized | Failed | Deferred | Checked
    | Committed(id: Id, post: Digest)
    | Undone(src: Id)

  /** Where a process stands. All but `Start` and `Done` are inside the place's critical section. */
  datatype Pc =
    | Start(task: Task)
    | Enter(task: Task)
    | Settle(task: Task)
    | Finish(task: Task, src: Id)
    | Demote(task: Task, id: Id)
    | BackedUp(task: Task, id: Id)
    | Journaled(task: Task, id: Id)
    | Replaced(task: Task, id: Id)
    | Recorded(id: Id, post: Digest)
    | Intended(rb: Id, src: Id)
    | Restored(rb: Id, src: Id)
    | Logged(rb: Id, src: Id)
    | HalfDone(src: Id)
    | Done(result: Result)

  predicate Critical(pc: Pc) {
    !pc.Start? && !pc.Done?
  }

  ghost predicate AnyPending(d: Disk, p: Place) {
    exists id :: Pending(d, p, id)
  }

  ghost predicate AnyBlocking(d: Disk, p: Place) {
    exists id :: Blocking(d, p, id)
  }

  /** One reconciliation: a completed rollback needs a second write, everything else just one. */
  ghost predicate Reconcile(d: Disk, id: Id, task: Task, next: Pc, d': Disk, pc': Pc)
    requires id in d.receipts && Incomplete(d.receipts[id].state)
  {
    var r := d.receipts[id];
    var verdict := Reconciled(d, r);
    && d' == SetState(d, id, verdict)
    && pc' == if r.Rollback? && verdict == Verified then Finish(task, r.rollbackOf) else next
  }

  /** The reconcile-or-deny loop at the head of a governed write. */
  ghost predicate SettleForWrite(p: Place, d: Disk, task: Task, id: Id, d': Disk, pc': Pc) {
    Pending(d, p, id) && Reconcile(d, id, task, Settle(task), d', pc')
  }

  /**
   The gate, the compare-and-swap check and the backup, in the order the writer takes them. The gate
   also refuses when a receipt was blocking at the moment the settling loop visited it.
   */
  ghost predicate BeginWrite(p: Place, d: Disk, task: Task, d': Disk, pc': Pc)
    requires task.WriteTask?
  {
    || (d' == d && pc' == Done(Denied))
    || (&& !AnyBlocking(d, p) && d.damaged.Keys == {}
        && if Now(d, p) != task.expected then d' == d && pc' == Done(Conflict)
           else if p in d.targets && |d.targets[p]| > MAX_BACKUP_BYTES then d' == d && pc' == Done(Oversized)
           else
             && pc'.BackedUp? && pc'.task == task && pc'.id.RecoveryId? && Fresh(d, pc'.id) && pc'.id !in d.backups
             && d' == if p in d.targets then d.(backups := d.backups[pc'.id := d.targets[p]]) else d)
  }

  ghost predicate WritePrepared(p: Place, d: Disk, id: Id, d': Disk) {
    && Fresh(d, id) && id in d'.receipts
    && d' == d.(receipts := d.receipts[id := d'.receipts[id]])
    && var r := d'.receipts[id];
    && r.FsWrite? && r.place == p && r.state == Prepared
    && r.pre == Now(d, p) && r.post == None
    && LinkFor(d, p, r.pre, r.prev)
    && r.backup == if r.pre.Some? then Some(id) else None
  }

  /** The settling pass of a rollback: pendings are superseded, finalized, or deny the rollback. */
  ghost predicate SettleForRollback(p: Place, d: Disk, task: Task, id: Id, d': Disk, pc': Pc) {
    && Pending(d, p, id)
    && var r := d.receipts[id];
    if r.FsWrite? && r.state == Applied then
      var landed := r.post.Some? && Now(d, p) == r.post;
      && d' == SetState(d, id, if landed then Verified else RecoveryRequired)
      && pc' == if landed then Settle(task) else Done(Denied)
    else if Reconciled(d, r) == RecoveryRequired then
      d' == SetState(d, id, RecoveryRequired) && pc' == Done(Denied)
    else
      Reconcile(d, id, task, if r.FsWrite? then Demote(task, id) else Settle(task), d', pc')
  }

  ghost predicate BeginRollback(p: Place, d: Disk, wanted: Digest, d': Disk, pc': Pc) {
    if exists src :: Selects(d, p, wanted, Head(src)) then
      && pc'.Intended? && Selects(d, p, wanted, Head(pc'.src))
      && pc'.rb.RollbackId? && Fresh(d, pc'.rb) && pc'.rb in d'.receipts
      && d' == d.(receipts := d.receipts[pc'.rb := d'.receipts[pc'.rb]])
      && d'.receipts[pc'.rb] ==
         Rollback(p, Prepared, pc'.src, wanted, None, d'.receipts[pc'.rb].clock)
    else
      d' == d && pc' == Done(Denied)
  }

  /** Recovery's decision on one receipt, reread under the lock. */
  ghost predicate Decide(p: Place, d: Disk, id: Id, d': Disk, pc': Pc) {
    if !At(d, p, id) then d' == d && pc' == Done(Checked)
    else
      var r := d.receipts[id];
      if Incomplete(r.state) then
        Reconcile(d, id, RecoverTask(id), Done(Checked), d', pc')
      else if r.state == Verified && r.Rollback? then
        d' == d && pc' == Finish(RecoverTask(id), r.rollbackOf)
      else if r.state == Verified && !BackupOk(d, r) then
        d' == SetState(d, id, RecoveryRequired) && pc' == Done(Checked)
      else
        d' == d && pc' == Done(Checked)
  }

  ghost predicate RestoreTarget(p: Place, d: Disk, rb: Id, src: Id, d': Disk, pc': Pc) {
    && rb in d.receipts && src in d.receipts && d.receipts[src].FsWrite?
    && var s := d.receipts[src];
    if s.pre.None? then
      d' == d.(targets := d.targets - {p}) && pc' == Restored(rb, src)
    else if !BackupOk(d, s) then
      d' == SetState(d, rb, RecoveryRequired) && pc' == Done(Failed)
    else
      d' == d.(targets := d.targets[p := d.backups[s.backup.value]]) && pc' == Restored(rb, src)
  }

  ghost predicate RecordRestored(p: Place, d: Disk, rb: Id, src: Id, d': Disk, pc': Pc) {
    && rb in d.receipts && d.receipts[rb].Rollback? && src in d.receipts && d.receipts[src].FsWrite?
    && var s := d.receipts[src];
    if s.pre.Some? && Now(d, p) != s.pre then
      d' == SetState(d, rb, RecoveryRequired) && pc' == Done(Failed)
    else
      && d' == d.(receipts := d.receipts[rb := d.receipts[rb].(restored := Some(s.pre), state := Applied)])
      && pc' == Logged(rb, src)
  }

  /** The next atomic action of the process that holds the lock. */
  ghost predicate Work(p: Place, d: Disk, pc: Pc, d': Disk, pc': Pc) {
    match pc
    case Start(_) => false
    case Done(_) => false
    case Enter(task) =>
      && d' == d
      && pc' == (if task.RollbackTask? && (d.damaged.Keys != {} || Now(d, p) != Some(task.wanted))
                 then Done(Denied) else Settle(task))
    case Settle(task) =>
      (match task
       case WriteTask(_, _) =>
         if AnyPending(d, p) then exists id :: SettleForWrite(p, d, task, id, d', pc')
         else BeginWrite(p, d, task, d', pc')
       case RollbackTask(wanted) =>
         if AnyPending(d, p) then exists id :: SettleForRollback(p, d, task, id, d', pc')
         else BeginRollback(p, d, wanted, d', pc')
       case RecoverTask(id) => Decide(p, d, id, d', pc'))
    case Finish(task, src) =>
      d' == MarkSource(d, src) && pc' == if task.RecoverTask? then Done(Checked) else Settle(task)
    case Demote(task, id) =>
      id in d.receipts && d' == SetState(d, id, Superseded) && pc' == Settle(task)
    case BackedUp(task, id) =>
      WritePrepared(p, d, id, d') && pc' == Journaled(task, id)
    case Journaled(task, id) =>
      task.WriteTask? && d' == d.(targets := d.targets[p := task.content]) && pc' == Replaced(task, id)
    case Replaced(task, id) =>
      if p in d.targets && id in d.receipts && d.receipts[id].FsWrite? && d.receipts[id].state == Prepared then
        && d' == d.(receipts := d.receipts[id := d.receipts[id].(post := Now(d, p), state := Applied)])
        && pc' == Recorded(id, Sha256(d.targets[p]))
      else
        d' == d && pc' == Done(Failed)
    case Recorded(id, post) =>
      if id in d.receipts && Incomplete(d.receipts[id].state) then
        if Now(d, p) == Some(post) then
          d' == SetState(d, id, Verified) && pc' == Done(Committed(id, post))
        else
          d' == SetState(d, id, RecoveryRequired) && pc' == Done(Failed)
      else
        d' == d && pc' == Done(Failed)
    case Intended(rb, src) => RestoreTarget(p, d, rb, src, d', pc')
    case Restored(rb, src) => RecordRestored(p, d, rb, src, d', pc')
    case Logged(rb, src) =>
      rb in d.receipts && d' == SetState(d, rb, Verified) && pc' == HalfDone(src)
    case HalfDone(src) =>
      d' == MarkSource(d, src) && pc' == Done(Undone(src))
  }

  /** A rollback that crashed between its two terminal writes: verified, its source still standing. */
  predicate HalfFinished(d: Disk, p: Place, rb: Id) {
    && At(d, p, rb) && d.receipts[rb].Rollback? && d.receipts[rb].state == Verified
    && WriteAt(d, p, d.receipts[rb].rollbackOf) && d.receipts[d.receipts[rb].rollbackOf].state == Verified
  }

  ghost predicate AnyHalfFinished(d: Disk, p: Place) {
    exists rb :: HalfFinished(d, p, rb)
  }

  datatype State = State(disk: Disk, holder: Option<Pid>, pcs: map<Pid, Pc>)

  /** Work on other places of the same store: this place's file, receipts and backups are left alone. */
  ghost predicate Elsewhere(d: Disk, d': Disk, p: Place) {
    && Now(d, p) == Now(d', p)
    && (forall id :: At(d, p, id) <==> At(d', p, id))
    && (forall id :: At(d, p, id) ==> d'.receipts[id] == d.receipts[id])
    && (forall id :: id in d.backups && !(id in d.receipts && d.receipts[id].place != p)
          ==> id in d'.backups && d'.backups[id] == d.backups[id])
  }

  datatype Event =
    | Arrive(pid: Pid, task: Task)
    | Acquire(pid: Pid)
    | GiveUp(pid: Pid)
    | Act(pid: Pid)
    | Crash(pid: Pid)
    | Other

  ghost predicate Step(p: Place, s: State, e: Event, s': State) {
    match e
    case Arrive(pid, task) =>
      pid !in s.pcs && s' == s.(pcs := s.pcs[pid := Start(task)])
    case Acquire(pid) =>
      && pid in s.pcs && s.pcs[pid].Start? && s.holder == None
      && s' == s.(holder := Some(pid), pcs := s.pcs[pid := Enter(s.pcs[pid].task)])
    case GiveUp(pid) =>
      && pid in s.pcs && s.pcs[pid].Start? && s.holder != None
      && s' == s.(pcs := s.pcs[pid := Done(Deferred)])
    case Act(pid) =>
      && s.holder == Some(pid) && pid in s.pcs && pid in s'.pcs
      && Work(p, s.disk, s.pcs[pid], s'.disk, s'.pcs[pid])
      && s'.pcs == s.pcs[pid := s'.pcs[pid]]
      && s'.holder == if s'.pcs[pid].Done? then None else s.holder
    case Crash(pid) =>
      && pid in s.pcs
      && s' == s.(pcs := s.pcs - {pid}, holder := if s.holder == Some(pid) then None else s.holder)
    case Other =>
      && s' == s.(disk := s'.disk) && Elsewhere(s.disk, s'.disk, p)
      && forall pid :: pid in s.pcs && s.pcs[pid].BackedUp? ==> s.pcs[pid].id !in s'.disk.receipts
  }

  /**
   Writers and rollbackers are started only when no rollback of the place is half finished, which
   is what a completed recovery leaves behind.
   */
  ghost predicate Orderly(p: Place, s: State, e: Event) {
    (e.Acquire? && e.pid in s.pcs && s.pcs[e.pid].Start? && !s.pcs[e.pid].task.RecoverTask?) ==>
      !AnyHalfFinished(s.disk, p)
  }

  ghost predicate Run(p: Place, states: seq<State>, events: seq<Event>) {
    && |states| == |events| + 1
    && forall k :: 0 <= k < |events| ==> Step(p, states[k], events[k], states[k + 1])
  }

  ghost predicate OrderlyRun(p: Place, states: seq<State>, events: seq<Event>) {
    && Run(p, states, events)
    && forall k :: 0 <= k < |events| ==> Orderly(p, states[k], events[k])
  }

  /** A store with no receipt for this place and nobody at work. */
  ghost predicate Init(p: Place, s: State) {
    && (forall id :: !At(s.disk, p, id))
    && s.holder == None && s.pcs == map[]
  }
}
