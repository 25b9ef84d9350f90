/**
 The recovery store as it runs: receipts updated in place and rewritten file by file. Every method
 that touches the disk leaves the trail of disks it passed through, and that trail is checked step
 by step against the protocol, so what is proved of the protocol holds of every prefix of it.
 */
module RecoveryStores {
  import opened Wrappers
  import opened Journal
  import opened Protocol
  import opened Trails
  import opened Settling
  import opened Evidence
  import Clearing
  import Scanning
  import Recovery
  import Retention

  class RecoveryStore {
    var targets: map<Place, Bytes>
    var receipts: map<Id, Receipt>
    var damaged: map<Id, Option<Receipt>>
    var backups: map<Id, Bytes>
    ghost var trail: seq<Config>

    constructor (files: Disk)
      ensures Files() == files && trail == []
    {
      targets, receipts, damaged, backups := files.targets, files.receipts, files.damaged, files.backups;
      trail := [];
    }

    function Files(): Disk
      reads this`targets, this`receipts, this`damaged, this`backups
    {
      Disk(targets, receipts, damaged, backups)
    }

    /** The trail so far is legal and ends here. */
    ghost predicate Tracing(p: Place, pc: Pc)
      reads this
    {
      Trail(p, trail) && Last(trail) == Config(Files(), pc)
    }

    /** A process takes the lock of `p`: a new trail begins. */
    ghost method Begin(p: Place, task: Task)
      modifies this`trail
      ensures Tracing(p, Enter(task)) && trail == [Config(Files(), Enter(task))]
    {
      trail := [Config(Files(), Enter(task))];
    }

    /** Records that the next atomic step left the disk `disk` and the process at `pc`. */
    ghost method Mark(p: Place, disk: Disk, pc: Pc)
      requires Trail(p, trail) && Work(p, Last(trail).disk, Last(trail).pc, disk, pc)
      modifies this`trail
      ensures Trail(p, trail) && trail == old(trail) + [Config(disk, pc)]
    {
      trail := trail + [Config(disk, pc)];
    }

    /** One durable replacement of a receipt file. */
    method Put(id: Id, r: Receipt)
      modifies this`receipts
      ensures receipts == old(receipts)[id := r]
    {
      receipts := receipts[id := r];
    }

    /** Splits the links of a place's writes into those that count and those left in doubt. */
    method ChainReferences(p: Place) returns (effective: set<Id>, doubtful: set<Id>)
      ensures effective == Effective(Files(), p) && doubtful == Doubtful(Files(), p)
    {
      effective, doubtful := {}, {};
      var todo := receipts.Keys;
      while todo != {}
        invariant todo <= receipts.Keys
        invariant effective == set id | id in receipts && id !in todo && Standing(Files(), p, id) ::
                                 receipts[id].prev.value
        invariant doubtful == set id | id in receipts && id !in todo && InDoubt(Files(), p, id) ::
                                receipts[id].prev.value
        decreases |todo|
      {
        var id :| id in todo;
        ghost var before := todo;
        todo := todo - {id};
        var r := receipts[id];
        if r.place == p && r.FsWrite? && r.prev.Some? {
          if r.state == Applied || r.state == Verified {
            effective := effective + {r.prev.value};
          } else if r.state == RecoveryRequired {
            doubtful := doubtful + {r.prev.value};
          }
        }
      }
    }

    /** The receipt a write over content `pre` supersedes. */
    method FindSupersededId(p: Place, pre: Option<Digest>) returns (link: Option<Id>)
      ensures LinkFor(Files(), p, pre, link)
    {
      var effective, _ := ChainReferences(p);
      var unreferenced: set<Id> := {};
      link := None;
      var todo := receipts.Keys;
      while todo != {}
        invariant todo <= receipts.Keys
        invariant pre.Some? ==> link == None && forall id :: id in unreferenced <==>
          id in receipts && id !in todo && id in Heads(Files(), p, pre.value)
        invariant pre.None? ==> forall id :: id in TerminalWrites(Files(), p) && id !in todo ==>
          link.Some? && link.value in receipts && !Later(Files(), id, link.value)
        invariant pre.None? && link.Some? ==> link.value in TerminalWrites(Files(), p)
        decreases |todo|
      {
        var id :| id in todo;
        todo := todo - {id};
        var r := receipts[id];
        if r.place == p && r.FsWrite? {
          if pre.Some? {
            if r.state == Verified && r.post == pre && id !in effective {
              unreferenced := unreferenced + {id};
            }
          } else if Terminal(r.state) && (link.None? || Later(Files(), id, link.value)) {
            link := Some(id);
          }
        }
      }
      if pre.Some? {
        assert unreferenced == Heads(Files(), p, pre.value);
        if |unreferenced| == 1 {
          var id :| id in unreferenced;
          assert |unreferenced - {id}| == 0;
          assert SoleHead(Files(), p, pre.value, id);
          link := Some(id);
        }
      }
    }

    /** The receipt a rollback of content `h` undoes, or why there is none. */
    method FindLatestReceipt(p: Place, h: Digest) returns (choice: Selection)
      ensures Selects(Files(), p, h, choice)
    {
      var candidates: set<Id> := {};
      var todo := receipts.Keys;
      while todo != {}
        invariant todo <= receipts.Keys
        invariant forall id :: id in candidates <==> id !in todo && id in Candidates(Files(), p, h)
        decreases |todo|
      {
        var id :| id in todo;
        todo := todo - {id};
        var r := receipts[id];
        if r.place == p && r.FsWrite? && r.state == Verified && r.post == Some(h) {
          candidates := candidates + {id};
        }
      }
      assert candidates == Candidates(Files(), p, h);
      if candidates == {} {
        return NoReceipt;
      }
      var effective, doubtful := ChainReferences(p);
      var heads := candidates - effective;
      if |heads| != 1 {
        return AmbiguousLineage;
      }
      var id :| id in heads;
      assert |heads - {id}| == 0;
      assert SoleHead(Files(), p, h, id);
      choice := if id in doubtful then AmbiguousLineage else Head(id);
    }

    /** Journals an intent over the content now on disk: backup first, then the PREPARED receipt. */
    method SavePreimage(p: Place, id: Id, clock: int) returns (ok: bool, ghost backedUp: Disk)
      requires Fresh(Files(), id)
      modifies this`receipts, this`backups
      ensures ok <==> (p in targets ==> |targets[p]| <= MAX_BACKUP_BYTES)
      ensures !ok ==> Files() == old(Files())
      ensures ok ==>
        backedUp == (if p in targets then old(Files()).(backups := old(backups)[id := targets[p]]) else old(Files()))
      ensures ok ==> WritePrepared(p, backedUp, id, Files()) && receipts[id].clock == clock
    {
      backedUp := Files();
      var pre: Option<Digest> := None;
      var backup: Option<Id> := None;
      if p in targets {
        if |targets[p]| > MAX_BACKUP_BYTES {
          return false, backedUp;
        }
        pre, backup := Some(Sha256(targets[p])), Some(id);
        backups := backups[id := targets[p]];
        backedUp := Files();
      }
      var link := FindSupersededId(p, pre);
      Put(id, FsWrite(p, Prepared, pre, None, link, backup, clock));
      ok := true;
    }

    /** PREPARED to APPLIED, recording the digest of the new bytes. */
    method NoteTargetReplaced(id: Id, post: Digest) returns (ok: bool)
      modifies this`receipts
      ensures ok <==> id in old(receipts) && old(receipts[id]).FsWrite? && old(receipts[id]).state == Prepared
      ensures Files() == if ok
        then old(Files()).(receipts := old(receipts)[id := old(receipts[id]).(post := Some(post), state := Applied)])
        else old(Files())
    {
      if id !in receipts || !receipts[id].FsWrite? || receipts[id].state != Prepared {
        return false;
      }
      Put(id, receipts[id].(post := Some(post), state := Applied));
      ok := true;
    }

    /**
     Records the digest once more, rereads the file and finalizes: VERIFIED if the file carries the
     digest, RECOVERY_REQUIRED otherwise. `reapplied` is the disk between the two writes.
     */
    method RecordPostimage(id: Id, post: Digest) returns (ok: bool, ghost reapplied: Disk)
      modifies this`receipts
      ensures var known := id in old(receipts) && old(receipts[id]).FsWrite? && Incomplete(old(receipts[id]).state);
        && (!known ==> !ok && Files() == old(Files()))
        && (known ==>
              && reapplied == old(Files()).(receipts :=
                   old(receipts)[id := old(receipts[id]).(post := Some(post), state := Applied)])
              && (ok <==> Now(old(Files()), old(receipts[id]).place) == Some(post))
              && Files() == SetState(reapplied, id, if ok then Verified else RecoveryRequired))
    {
      reapplied := Files();
      if id !in receipts || !receipts[id].FsWrite? || !Incomplete(receipts[id].state) {
        return false, reapplied;
      }
      var data := receipts[id].(post := Some(post), state := Applied);
      Put(id, data);
      reapplied := Files();
      ok := data.place in targets && Sha256(targets[data.place]) == post;
      Put(id, data.(post := Some(post), state := if ok then Verified else RecoveryRequired));
    }

    /** The two terminal writes of a rollback; `half` is the disk between them. */
    method FinalizeRollback(rb: Id, src: Id) returns (ghost half: Disk)
      requires rb in receipts
      modifies this`receipts
      ensures half == SetState(old(Files()), rb, Verified)
      ensures Files() == MarkSource(half, src)
    {
      Put(rb, WithState(receipts[rb], Verified));
      half := Files();
      if src in receipts {
        Put(src, WithState(receipts[src], RolledBack));
      }
    }

    /** Settles one incomplete receipt against the bytes on disk. */
    method ReconcileOne(id: Id) returns (outcome: TxState, ghost half: Disk)
      requires id in receipts && Incomplete(receipts[id].state)
      modifies this`receipts
      ensures outcome == Reconciled(old(Files()), old(receipts[id]))
      ensures outcome ==
        if !BorneOut(old(Files()), old(receipts[id])) then RecoveryRequired
        else if old(receipts[id]).state == Prepared then RecoveredUnapplied else Verified
      ensures half == SetState(old(Files()), id, outcome)
      ensures Files() == if old(receipts[id]).Rollback? && outcome == Verified
                         then MarkSource(half, old(receipts[id]).rollbackOf) else half
    {
      var data := receipts[id];
      var present := data.place in targets;
      var current := if present then Some(Sha256(targets[data.place])) else None;
      outcome := RecoveryRequired;
      match data {
        case FsWrite(_, state, pre, post, _, _, _) =>
          if pre.Some? && !BackupOk(Files(), data) {
            outcome := RecoveryRequired;
          } else if state == Prepared {
            if (pre.None? && !present) || (pre.Some? && current == pre) {
              outcome := RecoveredUnapplied;
            }
          } else if post.Some? && current == post {
            outcome := Verified;
          }
        case Rollback(_, state, source, expected, restored, _) =>
          if state == Prepared {
            if current == Some(expected) {
              outcome := RecoveredUnapplied;
            }
          } else if restored.Some? && (current == restored.value || (restored.value.None? && !present)) {
            outcome := Verified;
            half := FinalizeRollback(id, source);
            return;
          }
      }
      Put(id, WithState(data, outcome));
      half := Files();
    }

    /** Settles one pending receipt ahead of a write. */
    method SettleForWriter(p: Place, id: Id, ghost task: Task) returns (outcome: TxState)
      requires Tracing(p, Settle(task)) && task.WriteTask? && Pending(Files(), p, id)
      modifies this`receipts, this`trail
      ensures Tracing(p, Settle(task)) && old(trail) <= trail
      ensures outcome == Reconciled(old(Files()), old(receipts[id])) && Files() == SettleOne(old(Files()), p, id)
    {
      ghost var before := Files();
      ghost var half;
      outcome, half := ReconcileOne(id);
      ghost var r := before.receipts[id];
      if r.Rollback? && outcome == Verified {
        assert SettleForWrite(p, before, task, id, half, Finish(task, r.rollbackOf));
        Mark(p, half, Finish(task, r.rollbackOf));
      } else {
        assert SettleForWrite(p, before, task, id, half, Settle(task));
      }
      Mark(p, Files(), Settle(task));
    }

    /**
     The reconcile half of reconcile-or-deny, over the files of a directory listing: `reconciled` are the
     receipts it settled, `required` those it could not settle or found blocking.
     */
    method ReconcileTarget(p: Place, files: seq<Id>, ghost task: Task) returns (reconciled: seq<Id>, required: seq<Id>)
      requires Tracing(p, Settle(task)) && task.WriteTask? && forall id :: id in receipts ==> id in files
      modifies this`receipts, this`trail
      ensures Tracing(p, Settle(task)) && old(trail) <= trail
      ensures Files() == SettleAll(old(Files()), p, files) && !AnyPending(Files(), p)
      ensures reconciled == Mended(old(Files()), p, files) && required == Required(old(Files()), p, files)
      ensures Recovery.WellNamed(old(Files())) && Recovery.Ordered(files) ==>
        && (forall id :: id in required <==> Stuck(old(Files()), p, id))
        && (forall id :: id in reconciled <==> Mends(old(Files()), p, id))
    {
      ghost var start := Files();
      reconciled, required := [], [];
      for k := 0 to |files|
        invariant Tracing(p, Settle(task)) && old(trail) <= trail
        invariant SettledUpTo(start, Files(), p, files, k, reconciled, required)
      {
        var id := files[k];
        SettlesOneMore(start, Files(), p, files, k, reconciled, required);
        if id in receipts && receipts[id].place == p {
          if Incomplete(receipts[id].state) {
            var outcome := SettleForWriter(p, id, task);
            if outcome == RecoveryRequired {
              required := required + [id];
            } else {
              reconciled := reconciled + [id];
            }
          } else if receipts[id].state == RecoveryRequired {
            required := required + [id];
          }
        }
      }
      AllSettled(start, p, files);
      if Recovery.WellNamed(start) && Recovery.Ordered(files) { Clearing.ReportedInBytes(start, p, files); }
    }

    /** An applied write: verified if the file carries its bytes, else the rollback is denied. */
    method SettleApplied(p: Place, id: Id, current: Option<Digest>, ghost task: Task) returns (denied: bool)
      requires Tracing(p, Settle(task)) && task.RollbackTask? && Pending(Files(), p, id) && current == Now(Files(), p)
      requires receipts[id].FsWrite? && receipts[id].state == Applied
      modifies this`receipts, this`trail
      ensures Tracing(p, if denied then Done(Denied) else Settle(task)) && old(trail) <= trail
      ensures Files() == Overtake(old(Files()), p, id) && (denied <==> Denies(old(Files()), p, id))
    {
      ghost var before := Files();
      var r := receipts[id];
      denied := !(r.post.Some? && current == r.post);
      var st := if denied then RecoveryRequired else Verified;
      Put(id, WithState(r, st));
      assert Files() == SetState(before, id, st);
      RollerSettles(p, before, task, id, Files(), if denied then Done(Denied) else Settle(task));
      Mark(p, Files(), if denied then Done(Denied) else Settle(task));
    }

    /** Settles one pending receipt ahead of a rollback; `current` is the digest of the file. */
    method SettleForRoller(p: Place, id: Id, current: Option<Digest>, ghost task: Task) returns (denied: bool)
      requires Tracing(p, Settle(task)) && task.RollbackTask? && Pending(Files(), p, id) && current == Now(Files(), p)
      modifies this`receipts, this`trail
      ensures Tracing(p, if denied then Done(Denied) else Settle(task)) && old(trail) <= trail
      ensures Files() == Overtake(old(Files()), p, id) && (denied <==> Denies(old(Files()), p, id))
    {
      if receipts[id].FsWrite? && receipts[id].state == Applied {
        denied := SettleApplied(p, id, current, task);
        return;
      }
      ghost var before := Files();
      var isWrite := receipts[id].FsWrite?;
      var outcome; ghost var half;
      outcome, half := ReconcileOne(id);
      denied := outcome == RecoveryRequired;
      RollerReconciles(p, before, task, id);
      if denied {
        Mark(p, half, Done(Denied));
      } else if isWrite {
        Mark(p, half, Demote(task, id));
        Demoted(p, id, task);
      } else {
        if outcome == Verified {
          Mark(p, half, Finish(task, before.receipts[id].rollbackOf));
        }
        Mark(p, Files(), Settle(task));
      }
    }

    /** RECOVERED_UNAPPLIED to SUPERSEDED: the intent can never apply once the rollback runs. */
    method Demoted(p: Place, id: Id, ghost task: Task)
      requires Tracing(p, Demote(task, id)) && id in receipts
      modifies this`receipts, this`trail
      ensures Tracing(p, Settle(task)) && old(trail) <= trail
      ensures Files() == SetState(old(Files()), id, Superseded)
    {
      Put(id, WithState(receipts[id], Superseded));
      Mark(p, Files(), Settle(task));
    }

    /**
     Settles the pending receipts of the place in the order of the listing, or denies the rollback at the
     first it cannot settle.
     */
    method SupersedePending(p: Place, files: seq<Id>, ghost task: Task) returns (denied: bool)
      requires Tracing(p, Settle(task)) && task.RollbackTask? && forall id :: id in receipts ==> id in files
      modifies this`receipts, this`trail
      ensures Tracing(p, if denied then Done(Denied) else Settle(task)) && old(trail) <= trail
      ensures Files() == OvertakeAll(old(Files()), p, files) && (denied <==> DeniedBy(old(Files()), p, files).Some?)
      ensures OnlySettled(old(Files()), Files()) && (!denied ==> !AnyPending(Files(), p))
      ensures Recovery.WellNamed(old(Files())) && Recovery.Ordered(files) ==>
        (denied <==> exists id :: Obstructs(old(Files()), p, id))
    {
      ghost var start := Files();
      OvertakeAllProgresses(start, p, files);
      if Recovery.WellNamed(start) && Recovery.Ordered(files) { Clearing.DeniedInBytes(start, p, files); }
      var current := if p in targets then Some(Sha256(targets[p])) else None;
      for k := 0 to |files|
        invariant Tracing(p, Settle(task)) && old(trail) <= trail && Now(Files(), p) == Now(start, p)
        invariant OvertakenUpTo(start, Files(), p, files, k)
      {
        OvertakesOneMore(start, Files(), p, files, k);
        var id := files[k];
        if id in receipts && receipts[id].place == p && Incomplete(receipts[id].state) {
          denied := SettleForRoller(p, id, current, task);
          if denied {
            return;
          }
        }
      }
      denied := false;
    }

    /** Puts back what the file held before `src`, or fails closed if the backup does not hold it. */
    method RestoreSource(p: Place, rb: Id, src: Id) returns (ok: bool)
      requires Tracing(p, Intended(rb, src)) && rb in receipts && receipts[rb].Rollback? && WriteAt(Files(), p, src)
      modifies this
      ensures Tracing(p, if ok then Restored(rb, src) else Done(Failed)) && old(trail) <= trail
      ensures ok <==> !Bereft(old(Files()), old(receipts[src]))
      ensures !ok ==> targets == old(targets) && rb in receipts && receipts[rb].state == RecoveryRequired
      ensures ok ==> receipts == old(receipts) && Now(Files(), p) == receipts[src].pre
      ensures forall q :: q != p ==> Now(Files(), q) == Now(old(Files()), q)
    {
      var source := receipts[src];
      ok := true;
      if source.pre.None? {
        targets := targets - {p};
        Mark(p, Files(), Restored(rb, src));
      } else if BackupOk(Files(), source) {
        targets := targets[p := backups[source.backup.value]];
        Mark(p, Files(), Restored(rb, src));
      } else {
        ok := false;
        var receipt := receipts[rb];
        Put(rb, WithState(receipt, RecoveryRequired));
        Mark(p, Files(), Done(Failed));
      }
    }

    /** APPLIED, then the two terminal writes. */
    method FinishUndo(p: Place, rb: Id, src: Id)
      requires Tracing(p, Restored(rb, src)) && rb in receipts && receipts[rb].Rollback?
      requires WriteAt(Files(), p, src) && Now(Files(), p) == receipts[src].pre
      modifies this`receipts, this`trail
      ensures Tracing(p, Done(Undone(src))) && old(trail) <= trail
      ensures receipts ==
        old(receipts)[rb := old(receipts[rb]).(restored := Some(old(receipts[src]).pre), state := Verified)]
                                       [src := WithState(old(receipts[src]), RolledBack)]
    {
      var receipt := receipts[rb].(restored := Some(receipts[src].pre), state := Applied);
      Put(rb, receipt);
      Mark(p, Files(), Logged(rb, src));
      ghost var half := FinalizeRollback(rb, src);
      Mark(p, half, HalfDone(src));
      Mark(p, Files(), Done(Undone(src)));
    }

    /** Journals the intent to undo the head of content `wanted`, if there is exactly one. */
    method Intend(p: Place, wanted: Digest, rb: Id, clock: int) returns (choice: Selection)
      requires Tracing(p, Settle(RollbackTask(wanted))) && !AnyPending(Files(), p)
      requires rb.RollbackId? && Fresh(Files(), rb)
      modifies this`receipts, this`trail
      ensures Selects(old(Files()), p, wanted, choice) && old(trail) <= trail
      ensures Tracing(p, if choice.Head? then Intended(rb, choice.id) else Done(Denied))
      ensures receipts == if choice.Head?
        then old(receipts)[rb := Journal.Rollback(p, Prepared, choice.id, wanted, None, clock)] else old(receipts)
    {
      choice := FindLatestReceipt(p, wanted);
      if choice.Head? {
        ghost var before := Files();
        Put(rb, Journal.Rollback(p, Prepared, choice.id, wanted, None, clock));
        assert BeginRollback(p, before, wanted, Files(), Intended(rb, choice.id));
        Mark(p, Files(), Intended(rb, choice.id));
      } else {
        NoHead(Files(), p, wanted, choice);
        assert BeginRollback(p, Files(), wanted, Files(), Done(Denied));
        Mark(p, Files(), Done(Denied));
      }
    }

    /** The checks and the settling a rollback makes before it chooses a receipt. */
    method EnterRollback(p: Place, expected: Digest, files: seq<Id>) returns (denied: bool)
      requires Tracing(p, Enter(RollbackTask(expected))) && forall id :: id in receipts ==> id in files
      modifies this`receipts, this`trail
      ensures Tracing(p, if denied then Done(Denied) else Settle(RollbackTask(expected))) && old(trail) <= trail
      ensures OnlySettled(old(Files()), Files())
      ensures !denied ==> !AnyPending(Files(), p) && Now(Files(), p) == Some(expected)
      ensures denied <==> damaged.Keys != {} || Now(old(Files()), p) != Some(expected)
                          || DeniedBy(old(Files()), p, files).Some?
      ensures Files() == if damaged.Keys != {} || Now(old(Files()), p) != Some(expected) then old(Files())
                         else OvertakeAll(old(Files()), p, files)
      ensures Recovery.WellNamed(old(Files())) && Recovery.Ordered(files) ==>
        (denied <==> damaged.Keys != {} || !HoldsBytes(old(Files()), p, Some(expected))
                     || exists id :: Obstructs(old(Files()), p, id))
    {
      if damaged.Keys != {} || p !in targets || Sha256(targets[p]) != expected {
        Mark(p, Files(), Done(Denied));
        return true;
      }
      Mark(p, Files(), Settle(RollbackTask(expected)));
      denied := SupersedePending(p, files, RollbackTask(expected));
    }

    /** Undoes the write that a rollback of the content `expected` selects, if it selects one. */
    method UndoHead(p: Place, expected: Digest, rb: Id, clock: int) returns (res: Result)
      requires Tracing(p, Settle(RollbackTask(expected))) && !AnyPending(Files(), p)
      requires rb.RollbackId? && Fresh(Files(), rb)
      modifies this
      ensures Tracing(p, Done(res)) && old(trail) <= trail && (res == Denied || res == Failed || res.Undone?)
      ensures res == Failed ==> rb in receipts && receipts[rb].state == RecoveryRequired
      ensures !res.Undone? ==> targets == old(targets)
      ensures res.Undone? ==>
        && WriteAt(Files(), p, res.src)
        && receipts[res.src].state == RolledBack && receipts[res.src].post == Some(expected)
        && Now(Files(), p) == receipts[res.src].pre
        && forall q :: q != p ==> Now(Files(), q) == Now(old(Files()), q)
    {
      ghost var settled := Files();
      var choice := Intend(p, expected, rb, clock);
      if !choice.Head? {
        return Denied;
      }
      var src := choice.id;
      assert src in Heads(settled, p, expected);
      var ok := RestoreSource(p, rb, src);
      if !ok {
        return Failed;
      }
      ghost var restored := Files();
      FinishUndo(p, rb, src);
      forall q | q != p ensures Now(Files(), q) == Now(settled, q) {
        assert Now(Files(), q) == Now(restored, q) == Now(settled, q);
      }
      res := Undone(src);
    }

    /**
     Undoes the newest standing write of the file, journaled as a transaction of its own. `files` is the
     listing of the receipt files; `rb` and `clock` are the new receipt's name and time.
     */
    method Rollback(p: Place, expected: Digest, files: seq<Id>, rb: Id, clock: int) returns (res: Result)
      requires Tracing(p, Enter(RollbackTask(expected))) && forall id :: id in receipts ==> id in files
      requires rb.RollbackId? && Fresh(Files(), rb)
      modifies this
      ensures Tracing(p, Done(res)) && old(trail) <= trail && (res == Denied || res == Failed || res.Undone?)
      ensures old(damaged).Keys != {} || !HoldsBytes(old(Files()), p, Some(expected)) ==> res == Denied
      ensures Recovery.WellNamed(old(Files())) && Recovery.Ordered(files) ==>
        forall id :: Obstructs(old(Files()), p, id) ==> res == Denied
      ensures res == Failed ==> rb in receipts && receipts[rb].state == RecoveryRequired
      ensures !res.Undone? ==> targets == old(targets)
      ensures res.Undone? ==>
        && Now(old(Files()), p) == Some(expected) && WriteAt(Files(), p, res.src)
        && receipts[res.src].state == RolledBack && receipts[res.src].post == Some(expected)
        && Now(Files(), p) == receipts[res.src].pre
        && forall q :: q != p ==> Now(Files(), q) == Now(old(Files()), q)
    {
      var denied := EnterRollback(p, expected, files);
      if denied {
        return Denied;
      }
      FreshKept(old(Files()), Files(), rb);
      ghost var settled := Files();
      res := UndoHead(p, expected, rb, clock);
      if res.Undone? {
        forall q | q != p ensures Now(Files(), q) == Now(old(Files()), q) {
          assert Now(Files(), q) == Now(settled, q);
        }
      }
    }

    /** Makes one recovery decision on the freshly reread receipt, its target's lock held. */
    method DecideLocked(id: Id) returns (outcome: Recovery.Outcome, ghost disks: seq<Disk>)
      requires id in receipts && id !in damaged && Recovery.MayWrite(Files(), receipts[id])
      modifies this`receipts
      ensures outcome == Recovery.OutcomeAt(old(Files()), id, {})
      ensures disks == Recovery.VisitDisks(old(Files()), id, {}) && Files() == Recovery.After(old(Files()), disks)
    {
      ghost var before := Files();
      var data := receipts[id];
      var verdict := Recovery.OwnState(Files(), data);
      ghost var half;
      if Incomplete(data.state) {
        verdict, half := ReconcileOne(id);
      } else if data.Rollback? {
        half := FinalizeRollback(id, data.rollbackOf);
      } else {
        Put(id, WithState(data, RecoveryRequired));
        half := Files();
      }
      assert half == SetState(before, id, verdict) == Recovery.Apply(before, Recovery.Judge(id));
      assert data.Rollback? && verdict == Verified ==> Files() == Recovery.Apply(half, Recovery.MarkFor(id));
      disks := if data.Rollback? && verdict == Verified then [half, Files()] else [half];
      outcome := match verdict
        case Verified => Recovery.AsVerified
        case RecoveryRequired => Recovery.AsRequired
        case _ => Recovery.AsRecovered;
    }

    /** One file of the scan; `busy` are the targets whose lock is held by somebody else. */
    method VisitFile(id: Id, busy: set<Place>) returns (outcome: Recovery.Outcome, ghost disks: seq<Disk>)
      requires receipts.Keys !! damaged.Keys
      modifies this`receipts, this`damaged
      ensures outcome == Recovery.OutcomeAt(old(Files()), id, busy)
      ensures disks == Recovery.VisitDisks(old(Files()), id, busy) && Files() == Recovery.After(old(Files()), disks)
      ensures receipts.Keys !! damaged.Keys
    {
      disks := [];
      if id in damaged {
        if damaged[id].Some? {
          var whole := damaged[id].value;
          damaged := damaged - {id};
          Put(id, WithState(whole, RecoveryRequired));
          disks := [Files()];
        }
        return Recovery.AsRequired, disks;
      }
      if id !in receipts {
        return Recovery.AsRequired, disks;
      }
      var data := receipts[id];
      if Dead(data.state) {
        return Recovery.AsRecovered, disks;
      }
      if data.state == RecoveryRequired {
        return Recovery.AsRequired, disks;
      }
      if data.state == Verified && data.FsWrite? && BackupOk(Files(), data) {
        return Recovery.AsVerified, disks;
      }
      if data.place in busy {
        return Recovery.AsDeferred, disks;
      }
      outcome, disks := DecideLocked(id);
    }

    /**
     Restart recovery over the files of one directory listing. `disks` are the disks it passed
     through; the lists say what became of each file, and `orphans` the backups no receipt names.
     */
    method Recover(files: seq<Id>, busy: set<Place>)
      returns (recovered: seq<Id>, required: seq<Id>, deferred: seq<Id>, verified: nat, orphans: set<Id>,
               ghost disks: seq<Disk>)
      requires receipts.Keys !! damaged.Keys && Recovery.Listing(Files(), files)
      modifies this`receipts, this`damaged
      ensures disks == Recovery.Scan(old(Files()), files, busy) && Files() == Recovery.After(old(Files()), disks)
      ensures var os := Recovery.Outcomes(old(Files()), files, busy);
        && recovered == Recovery.Pick(files, os, Recovery.AsRecovered)
        && required == Recovery.Pick(files, os, Recovery.AsRequired)
        && deferred == Recovery.Pick(files, os, Recovery.AsDeferred)
        && verified == |Recovery.Pick(files, os, Recovery.AsVerified)|
      ensures |recovered| + |required| + |deferred| + verified == |files|
      ensures Recovery.WellNamed(old(Files())) ==>
        Scanning.Reports(old(Files()), busy, recovered, required, deferred) && Scanning.AllMarked(old(Files()), Files())
      ensures Recovery.WellNamed(old(Files())) && Scanning.AtHome(old(Files())) ==>
        && Scanning.Settled(old(Files()), Files(), busy)
        && forall k :: 0 <= k < |disks| ==> Scanning.SparesBusy(old(Files()), disks[k], busy)
      ensures forall id :: id in recovered ==> id !in required && id !in deferred
      ensures forall id :: id in required ==> id !in deferred
      ensures forall b :: b in orphans <==>
        b in backups && forall id :: !NamesBackup(old(Files()), id, b)
    {
      recovered, required, deferred, verified := [], [], [], 0;
      disks := [];
      var seen: set<Id> := {};
      ghost var start := Files();
      ghost var os := Recovery.Outcomes(start, files, busy);
      for k := 0 to |files|
        invariant receipts.Keys !! damaged.Keys
        invariant ScanUpTo(start, Files(), files, busy, k, disks)
        invariant recovered == Recovery.Pick(files[..k], os[..k], Recovery.AsRecovered)
        invariant required == Recovery.Pick(files[..k], os[..k], Recovery.AsRequired)
        invariant deferred == Recovery.Pick(files[..k], os[..k], Recovery.AsDeferred)
        invariant verified == |Recovery.Pick(files[..k], os[..k], Recovery.AsVerified)|
        invariant SeenUpTo(start, Files(), files, k, seen)
      {
        ghost var before, seen0 := Files(), seen;
        if files[k] in receipts && receipts[files[k]].FsWrite? && receipts[files[k]].backup.Some? {
          seen := seen + {receipts[files[k]].backup.value};
        }
        var outcome; ghost var visited;
        outcome, visited := VisitFile(files[k], busy);
        ScanOneMore(start, before, files, busy, k, disks);
        disks := disks + visited;
        SeenOneMore(start, before, files, busy, k, seen0, seen);
        PickOneMore(files, os, k);
        match outcome
        case AsRecovered => recovered := recovered + [files[k]];
        case AsRequired => required := required + [files[k]];
        case AsDeferred => deferred := deferred + [files[k]];
        case AsVerified => verified := verified + 1;
      }
      assert files[..|files|] == files && os[..|files|] == os;
      ListingSeesAll(start, Files(), files, seen);
      ListsDisjoint(start, files, busy);
      if Recovery.WellNamed(start) { Scanning.ScanTold(start, files, busy); }
      orphans := backups.Keys - seen;
    }

    /** One file of a prune. */
    method PruneFile(id: Id, due: set<Id>, held: set<Id>) returns (pruned: bool, ghost disks: seq<Disk>)
      modifies this`receipts, this`backups
      ensures pruned <==> id in Retention.Gone(old(Files()), due)
      ensures disks == Retention.SweepFile(old(Files()), id, due, held)
      ensures Files() == Recovery.After(old(Files()), disks)
    {
      pruned, disks := false, [];
      if id in receipts && id in due && Terminal(receipts[id].state) {
        var data := receipts[id];
        receipts := receipts - {id};
        pruned, disks := true, [Files()];
        if data.FsWrite? && data.backup.Some? && data.backup.value !in held {
          backups := backups - {data.backup.value};
          disks := disks + [Files()];
        }
      }
    }

    /**
     Removes terminal receipts older than `days`, in the order of the listing and each before its backup, and
     goes on past what cannot be removed: `stuck` are receipt files and `held` backups whose unlink fails.
     `disks` are the disks after each unlink.
     */
    method Prune(files: seq<Id>, mtimes: map<Id, int>, now: int, days: int, stuck: set<Id>, held: set<Id>)
      returns (removed: nat, ghost disks: seq<Disk>)
      requires Recovery.Listing(Files(), files)
      modifies this`receipts, this`backups
      ensures Retention.Swept(old(Files()), Files(), files, Retention.Aged(mtimes, now - days * 86400) - stuck, held,
                              disks, removed)
      ensures Retention.Expunged(old(Files()), Files(), mtimes, now - days * 86400, stuck, held)
      ensures removed == |Retention.Missing(old(Files()), Files())| && Retention.ReceiptsFirst(old(Files()), disks)
    {
      ghost var start := Files();
      var due := Retention.Aged(mtimes, now - days * 86400) - stuck;
      removed, disks := PruneDue(files, due, held);
      Retention.SweepTold(start, Files(), files, mtimes, now - days * 86400, stuck, held, disks, removed);
    }

    method PruneDue(files: seq<Id>, due: set<Id>, held: set<Id>) returns (removed: nat, ghost disks: seq<Disk>)
      requires Recovery.Listing(Files(), files)
      modifies this`receipts, this`backups
      ensures Retention.Swept(old(Files()), Files(), files, due, held, disks, removed)
    {
      ghost var start := Files();
      removed, disks := 0, [];
      for k := 0 to |files|
        invariant Retention.SweepUpTo(start, Files(), files, due, held, k, disks, removed)
      {
        Retention.SweepOneMore(start, Files(), files, due, held, k, disks, removed);
        var pruned; ghost var swept;
        pruned, swept := PruneFile(files[k], due, held);
        disks := disks + swept;
        if pruned {
          removed := removed + 1;
        }
      }
      Retention.SweepRemoves(start, files, due, held);
    }
  }

  /** After `k` files: the disks and outcomes so far, and what the rest of the scan will add. */
  ghost predicate ScanUpTo(start: Disk, d: Disk, files: seq<Id>, busy: set<Place>, k: nat, disks: seq<Disk>)
    requires k <= |files|
  {
    && disks + Recovery.Scan(d, files[k..], busy) == Recovery.Scan(start, files, busy)
    && d == Recovery.After(start, disks)
    && Recovery.Outcomes(start, files, busy)[k..] == Recovery.Outcomes(d, files[k..], busy)
  }

  lemma ScanOneMore(start: Disk, d: Disk, files: seq<Id>, busy: set<Place>, k: nat, disks: seq<Disk>)
    requires k < |files| && ScanUpTo(start, d, files, busy, k, disks)
    ensures var visited := Recovery.VisitDisks(d, files[k], busy);
      ScanUpTo(start, Recovery.After(d, visited), files, busy, k + 1, disks + visited)
    ensures Recovery.Outcomes(start, files, busy)[k] == Recovery.OutcomeAt(d, files[k], busy)
  {
    var visited := Recovery.VisitDisks(d, files[k], busy);
    var x := Recovery.After(d, visited);
    ScanHead(d, files[k..], busy);
    assert files[k..][1..] == files[k + 1..];
    assert disks + (visited + Recovery.Scan(x, files[k + 1..], busy)) ==
      disks + visited + Recovery.Scan(x, files[k + 1..], busy);
    var os := Recovery.Outcomes(start, files, busy);
    assert os[k..][0] == os[k] && os[k..][1..] == os[k + 1..];
  }

  lemma ScanHead(d: Disk, files: seq<Id>, busy: set<Place>)
    requires files != []
    ensures var visited := Recovery.VisitDisks(d, files[0], busy);
      var x := Recovery.After(d, visited);
      && Recovery.Scan(d, files, busy) == visited + Recovery.Scan(x, files[1..], busy)
      && Recovery.Outcomes(d, files, busy)[0] == Recovery.OutcomeAt(d, files[0], busy)
      && Recovery.Outcomes(d, files, busy)[1..] == Recovery.Outcomes(x, files[1..], busy)
  {
  }

  lemma PickOneMore(files: seq<Id>, os: seq<Recovery.Outcome>, k: nat)
    requires k < |files| == |os|
    ensures forall kind :: Recovery.Pick(files[..k + 1], os[..k + 1], kind) ==
                           Recovery.Pick(files[..k], os[..k], kind) + if os[k] == kind then [files[k]] else []
  {
    assert files[..k + 1][..k] == files[..k] && os[..k + 1][..k] == os[..k];
  }

  lemma ListsDisjoint(d: Disk, files: seq<Id>, busy: set<Place>)
    requires Recovery.Listing(d, files)
    ensures var os := Recovery.Outcomes(d, files, busy);
      && |Recovery.Pick(files, os, Recovery.AsRecovered)| + |Recovery.Pick(files, os, Recovery.AsRequired)|
         + |Recovery.Pick(files, os, Recovery.AsDeferred)| + |Recovery.Pick(files, os, Recovery.AsVerified)| == |files|
      && forall id, a, b :: id in Recovery.Pick(files, os, a) && id in Recovery.Pick(files, os, b) ==> a == b
  {
    var os := Recovery.Outcomes(d, files, busy);
    Recovery.EachCountedOnce(d, files, busy);
    forall id, a, b | id in Recovery.Pick(files, os, a) && id in Recovery.Pick(files, os, b) ensures a == b {
      var k := Recovery.PickedAt(files, os, a, id);
    }
  }

  ghost predicate SeenUpTo(start: Disk, d: Disk, files: seq<Id>, k: nat, seen: set<Id>)
    requires k <= |files|
  {
    && (forall b :: b in seen <==> exists i :: 0 <= i < k && NamesBackup(start, files[i], b))
    && (forall i, b :: k <= i < |files| ==> NamesBackup(d, files[i], b) == NamesBackup(start, files[i], b))
  }

  lemma SeenOneMore(start: Disk, d: Disk, files: seq<Id>, busy: set<Place>, k: nat, seen: set<Id>, seen': set<Id>)
    requires k < |files| && SeenUpTo(start, d, files, k, seen)
    requires forall i, j :: 0 <= i < j < |files| ==> files[i] != files[j]
    requires forall b :: b in seen' <==> b in seen || NamesBackup(d, files[k], b)
    ensures SeenUpTo(start, Recovery.After(d, Recovery.VisitDisks(d, files[k], busy)), files, k + 1, seen')
  {
    var x := Recovery.After(d, Recovery.VisitDisks(d, files[k], busy));
    forall i, b | k < i < |files| ensures NamesBackup(x, files[i], b) == NamesBackup(d, files[i], b) {
      VisitKeepsNames(d, files[k], busy, files[i], b);
    }
  }

  lemma VisitKeepsNames(d: Disk, id: Id, busy: set<Place>, j: Id, b: Id)
    requires j != id
    ensures NamesBackup(Recovery.After(d, Recovery.VisitDisks(d, id, busy)), j, b) == NamesBackup(d, j, b)
  {
  }

  lemma ListingSeesAll(start: Disk, d: Disk, files: seq<Id>, seen: set<Id>)
    requires Recovery.Listing(start, files) && SeenUpTo(start, d, files, |files|, seen)
    ensures forall b :: b in seen <==> exists id :: NamesBackup(start, id, b)
  {
    forall id, b | NamesBackup(start, id, b) ensures b in seen {
      assert Recovery.Known(start, id);
      var i :| 0 <= i < |files| && files[i] == id;
    }
  }

  lemma NoHead(d: Disk, p: Place, h: Digest, choice: Selection)
    requires Selects(d, p, h, choice) && !choice.Head?
    ensures forall src :: !Selects(d, p, h, Head(src))
  {
    forall src | SoleHead(d, p, h, src) ensures src in Candidates(d, p, h) {
      assert src in Heads(d, p, h);
    }
  }

  lemma RollerSettles(p: Place, d: Disk, task: Task, id: Id, d': Disk, pc': Pc)
    requires task.RollbackTask? && SettleForRollback(p, d, task, id, d', pc')
    ensures Work(p, d, Settle(task), d', pc')
  {
  }

  lemma RollerReconciles(p: Place, d: Disk, task: Task, id: Id)
    requires task.RollbackTask? && Pending(d, p, id)
    requires !(d.receipts[id].FsWrite? && d.receipts[id].state == Applied)
    ensures var r := d.receipts[id];
      var verdict := Reconciled(d, r);
      var half := SetState(d, id, verdict);
      Work(p, d, Settle(task), half,
           if verdict == RecoveryRequired then Done(Denied)
           else if r.FsWrite? then Demote(task, id)
           else if verdict == Verified then Finish(task, r.rollbackOf) else Settle(task))
  {
    var r := d.receipts[id];
    var verdict := Reconciled(d, r);
    var half := SetState(d, id, verdict);
    RollerSettles(p, d, task, id, half,
                  if verdict == RecoveryRequired then Done(Denied)
                  else if r.FsWrite? then Demote(task, id)
                  else if verdict == Verified then Finish(task, r.rollbackOf) else Settle(task));
  }

  predicate Standing(d: Disk, p: Place, id: Id) {
    && WriteAt(d, p, id) && d.receipts[id].prev.Some?
    && (d.receipts[id].state == Applied || d.receipts[id].state == Verified)
  }

  predicate InDoubt(d: Disk, p: Place, id: Id) {
    WriteAt(d, p, id) && d.receipts[id].prev.Some? && d.receipts[id].state == RecoveryRequired
  }
}
