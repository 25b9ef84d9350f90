/** The governed operations: the critical sections that drive the recovery store, under the lock of the target. */
module Executor {
  import opened Wrappers
  import opened Journal
  import opened Protocol
  import opened Lineage
  import opened Safety
  import opened Trails
  import opened Settling
  import opened RecoveryStores
  import opened Evidence
  import Recovery
  import Clearing

  class GovernedExecutor {
    const store: RecoveryStore
    /** Targets whose lock another process holds. */
    var locked: set<Place>

    constructor (store: RecoveryStore)
      ensures this.store == store && locked == {}
    {
      this.store := store;
      locked := {};
    }

    /** Reconcile-or-deny, over the files of a directory listing. */
    method Gate(p: Place, files: seq<Id>, ghost task: Task) returns (blocked: bool)
      requires store.Tracing(p, Settle(task)) && task.WriteTask? && forall id :: id in store.receipts ==> id in files
      modifies store`receipts, store`trail
      ensures store.Tracing(p, if blocked then Done(Denied) else Settle(task)) && old(store.trail) <= store.trail
      ensures blocked <==> store.damaged.Keys != {} || Required(old(store.Files()), p, files) != []
      ensures store.Files() == SettleAll(old(store.Files()), p, files)
      ensures !blocked ==> Open(store.Files(), p)
      ensures Open(old(store.Files()), p) ==> !blocked && store.Files() == old(store.Files())
    {
      if Open(store.Files(), p) { NothingToSettle(store.Files(), p, files); }
      var _, required := store.ReconcileTarget(p, files, task);
      AllSettled(old(store.Files()), p, files);
      var blocker := HasBlockingState(p);
      blocked := required != [] || blocker;
      if blocked {
        store.Mark(p, store.Files(), Done(Denied));
      }
    }

    /** Whether mutation of the target must not proceed: a blocking receipt, or damage anywhere in the store. */
    method HasBlockingState(p: Place) returns (blocking: bool)
      ensures blocking <==> store.damaged.Keys != {} || AnyBlocking(store.Files(), p)
      ensures blocking <==> store.damaged.Keys != {} || exists id :: Blocks(store.Files(), p, id)
    {
      if store.damaged.Keys != {} {
        return true;
      }
      var todo := store.receipts.Keys;
      while todo != {}
        invariant todo <= store.receipts.Keys
        invariant forall id :: Blocking(store.Files(), p, id) ==> id in todo
        invariant forall id :: Blocks(store.Files(), p, id) ==> id in todo
        decreases |todo|
      {
        var id :| id in todo;
        if store.receipts[id].place == p && store.receipts[id].state == RecoveryRequired {
          assert Blocking(store.Files(), p, id) && Blocks(store.Files(), p, id);
          return true;
        }
        todo := todo - {id};
      }
      blocking := false;
    }

    /** Backup and PREPARED receipt, once the gate and the compare-and-swap check are passed. */
    method JournalIntent(p: Place, content: Bytes, expected: Option<Digest>, id: Id, clock: int) returns (saved: bool)
      requires store.Tracing(p, Settle(WriteTask(content, expected)))
      requires Open(store.Files(), p) && Now(store.Files(), p) == expected
      requires id.RecoveryId? && Fresh(store.Files(), id) && id !in store.backups
      modifies store`receipts, store`backups, store`trail
      ensures store.Tracing(p, if saved then Journaled(WriteTask(content, expected), id) else Done(Oversized))
      ensures old(store.trail) <= store.trail
      ensures saved <==> (p in store.targets ==> |store.targets[p]| <= MAX_BACKUP_BYTES)
      ensures !saved ==> store.Files() == old(store.Files())
      ensures saved ==> Prepares(old(store.Files()), store.Files(), p, id)
    {
      ghost var task := WriteTask(content, expected);
      ghost var before := store.Files();
      ghost var backedUp;
      saved, backedUp := store.SavePreimage(p, id, clock);
      if !saved {
        store.Mark(p, store.Files(), Done(Oversized));
        return;
      }
      LinkIgnoresBackups(before, backedUp, p, Now(before, p), store.receipts[id].prev);
      store.Mark(p, backedUp, BackedUp(task, id));
      store.Mark(p, store.Files(), Journaled(task, id));
    }

    /** The journaled replacement. */
    method Replace(p: Place, content: Bytes, expected: Option<Digest>, id: Id, clock: int) returns (res: Result)
      requires store.Tracing(p, Settle(WriteTask(content, expected)))
      requires Open(store.Files(), p) && Now(store.Files(), p) == expected
      requires id.RecoveryId? && Fresh(store.Files(), id) && id !in store.backups
      modifies store
      ensures store.Tracing(p, Done(res)) && old(store.trail) <= store.trail
      ensures res == Attempt(old(store.Files()), p, content, id)
      ensures res.Oversized? ==> store.Files() == old(store.Files())
      ensures res.Committed? ==> Overwritten(old(store.Files()), store.Files(), p, content, id)
    {
      var saved := JournalIntent(p, content, expected, id, clock);
      if !saved {
        return Oversized;
      }
      Land(p, content, expected, id);
      res := Committed(id, Sha256(content));
    }

    /** The replacement itself and its two journal entries. */
    method Land(p: Place, content: Bytes, expected: Option<Digest>, id: Id)
      requires store.Tracing(p, Journaled(WriteTask(content, expected), id))
      requires WriteAt(store.Files(), p, id) && store.receipts[id].state == Prepared
      modifies store
      ensures store.Tracing(p, Done(Committed(id, Sha256(content)))) && old(store.trail) <= store.trail
      ensures store.targets == old(store.targets)[p := content]
      ensures store.backups == old(store.backups) && store.damaged == old(store.damaged)
      ensures store.receipts ==
        old(store.receipts)[id := old(store.receipts[id]).(post := Some(Sha256(content)), state := Verified)]
    {
      ghost var task := WriteTask(content, expected);
      store.targets := store.targets[p := content];
      store.Mark(p, store.Files(), Replaced(task, id));
      var post := Sha256(store.targets[p]);
      var noted := store.NoteTargetReplaced(id, post);
      ghost var applied := store.Files();
      store.Mark(p, store.Files(), Recorded(id, post));
      var recorded; ghost var reapplied;
      recorded, reapplied := store.RecordPostimage(id, post);
      assert reapplied.receipts == applied.receipts;
      store.Mark(p, store.Files(), Done(Committed(id, post)));
    }

    /**
     Writes `content` if the file still has the digest `expected`. `files` is the listing of the receipt
     files; `id` and `clock` are the new receipt's name and time. `settled` is the disk that settling the
     leftovers of earlier crashes left.
     */
    method FsWrite(p: Place, content: Bytes, expected: Option<Digest>, files: seq<Id>, id: Id, clock: int)
      returns (res: Result, ghost settled: Disk)
      requires id.RecoveryId? && Fresh(store.Files(), id) && id !in store.backups
      requires forall j :: j in store.receipts ==> j in files
      modifies store
      ensures res != Deferred ==> Ran(old(store.Files()), WriteTask(content, expected), store, p, res)
      ensures res == if p in locked then Deferred else Outcome(old(store.Files()), p, content, expected, files, id)
      ensures p !in locked && Recovery.WellNamed(old(store.Files())) && Recovery.Ordered(files) ==>
        (res == Denied <==> old(store.damaged).Keys != {} || exists j :: Stuck(old(store.Files()), p, j))
      ensures p !in locked && res != Denied ==>
        && (res == Conflict <==> !HoldsBytes(old(store.Files()), p, expected))
        && (res == Oversized <==> HoldsBytes(old(store.Files()), p, expected) && expected.Some?
                                  && |old(store.targets)[p]| > 50 * 1024 * 1024)
        && (res != Conflict && res != Oversized ==> res == Committed(id, Sha256(content)))
      ensures settled == if p in locked then old(store.Files()) else SettleAll(old(store.Files()), p, files)
      ensures OnlySettled(old(store.Files()), settled)
      ensures if res.Committed? then Overwritten(settled, store.Files(), p, content, id) else store.Files() == settled
    {
      settled := store.Files();
      if p in locked {
        return Deferred, settled;
      }
      OutcomeInBytes(store.Files(), p, content, expected, files, id);
      ghost var task := WriteTask(content, expected);
      store.Begin(p, task);
      store.Mark(p, store.Files(), Settle(task));
      var blocked := Gate(p, files, task);
      settled := store.Files();
      AllSettled(old(store.Files()), p, files);
      if blocked {
        return Denied, settled;
      }
      var current := if p in store.targets then Some(Sha256(store.targets[p])) else None;
      if current != expected {
        store.Mark(p, store.Files(), Done(Conflict));
        return Conflict, settled;
      }
      FreshKept(old(store.Files()), store.Files(), id);
      res := Replace(p, content, expected, id, clock);
    }

    /** Undoes the newest standing write of the file, which must still have the digest `expected`. */
    method FsRollback(p: Place, expected: Digest, files: seq<Id>, rb: Id, clock: int) returns (res: Result)
      requires rb.RollbackId? && Fresh(store.Files(), rb) && forall id :: id in store.receipts ==> id in files
      modifies store
      ensures res == Deferred <==> p in locked
      ensures res == Deferred ==> store.Files() == old(store.Files())
      ensures res != Deferred ==> Ran(old(store.Files()), RollbackTask(expected), store, p, res)
      ensures p !in locked ==>
        (old(store.damaged).Keys != {} || !HoldsBytes(old(store.Files()), p, Some(expected)) ==> res == Denied)
      ensures p !in locked && Recovery.WellNamed(old(store.Files())) && Recovery.Ordered(files) ==>
        forall id :: Obstructs(old(store.Files()), p, id) ==> res == Denied
      ensures res == Failed ==> rb in store.receipts && store.receipts[rb].state == RecoveryRequired
      ensures !res.Undone? ==> store.targets == old(store.targets)
      ensures res.Undone? ==>
        && Now(old(store.Files()), p) == Some(expected) && WriteAt(store.Files(), p, res.src)
        && store.receipts[res.src].state == RolledBack && store.receipts[res.src].post == Some(expected)
        && Now(store.Files(), p) == store.receipts[res.src].pre
        && forall q :: q != p ==> Now(store.Files(), q) == Now(old(store.Files()), q)
    {
      if p in locked {
        return Deferred;
      }
      store.Begin(p, RollbackTask(expected));
      res := store.Rollback(p, expected, files, rb, clock);
    }
  }

  /** Nothing stands in the way of a write: no damage, nothing to settle, nothing blocked. */
  ghost predicate Open(d: Disk, p: Place) {
    d.damaged.Keys == {} && !AnyPending(d, p) && !AnyBlocking(d, p)
  }

  /** What a write that passed the gate and the compare-and-swap check comes to. */
  function Attempt(d: Disk, p: Place, content: Bytes, id: Id): Result {
    if p in d.targets && |d.targets[p]| > MAX_BACKUP_BYTES then Oversized else Committed(id, Sha256(content))
  }

  /** What a write that got the lock comes to, told from the disk it found. */
  function Outcome(d: Disk, p: Place, content: Bytes, expected: Option<Digest>, files: seq<Id>, id: Id): Result {
    if d.damaged.Keys != {} || Required(d, p, files) != [] then Denied
    else if Now(d, p) != expected then Conflict
    else Attempt(d, p, content, id)
  }

  /**
   The same, told from the bytes on disk: denied by damage or by a receipt that blocks or that the bytes do
   not bear out, and otherwise decided by the bytes of the file and their number.
   */
  lemma OutcomeInBytes(d: Disk, p: Place, content: Bytes, expected: Option<Digest>, files: seq<Id>, id: Id)
    requires forall j :: j in d.receipts ==> j in files
    ensures var res := Outcome(d, p, content, expected, files, id);
      && (Recovery.WellNamed(d) && Recovery.Ordered(files) ==>
            (res == Denied <==> d.damaged.Keys != {} || exists j :: Stuck(d, p, j)))
      && (res != Denied ==>
            && (res == Conflict <==> !HoldsBytes(d, p, expected))
            && (res == Oversized <==> HoldsBytes(d, p, expected) && expected.Some?
                                      && |d.targets[p]| > 50 * 1024 * 1024)
            && (res != Conflict && res != Oversized ==> res == Committed(id, Sha256(content))))
  {
    if Recovery.WellNamed(d) && Recovery.Ordered(files) {
      Clearing.ReportedInBytes(d, p, files);
      if Required(d, p, files) != [] { assert Stuck(d, p, Required(d, p, files)[0]); }
      if j :| Stuck(d, p, j) { assert j in Required(d, p, files); }
    }
  }

  /** The receipt and the backup of a write not yet made. */
  ghost predicate Prepares(d: Disk, d': Disk, p: Place, id: Id) {
    && d'.targets == d.targets && d'.damaged == d.damaged
    && d'.backups == (if p in d.targets then d.backups[id := d.targets[p]] else d.backups)
    && id in d'.receipts && d'.receipts == d.receipts[id := d'.receipts[id]]
    && var r := d'.receipts[id];
    && r.FsWrite? && r.place == p && r.state == Prepared && r.pre == Now(d, p)
    && LinkFor(d, p, r.pre, r.prev) && BackupOk(d', r)
  }

  /** The new disk: the content in place, and one new verified receipt that can give the old content back. */
  ghost predicate Overwritten(d: Disk, d': Disk, p: Place, content: Bytes, id: Id) {
    && d'.targets == d.targets[p := content] && d'.damaged == d.damaged
    && d'.backups == (if p in d.targets then d.backups[id := d.targets[p]] else d.backups)
    && id in d'.receipts && d'.receipts == d.receipts[id := d'.receipts[id]]
    && var r := d'.receipts[id];
    && r.FsWrite? && r.place == p && r.state == Verified && r.pre == Now(d, p) && r.post == Some(Sha256(content))
    && LinkFor(d, p, r.pre, r.prev) && BackupOk(d', r)
  }

  lemma LinkIgnoresBackups(d: Disk, x: Disk, p: Place, pre: Option<Digest>, link: Option<Id>)
    requires x == d.(backups := x.backups) && LinkFor(x, p, pre, link)
    ensures LinkFor(d, p, pre, link)
  {
    assert TerminalWrites(x, p) == TerminalWrites(d, p);
    if pre.Some? {
      assert Heads(x, p, pre.value) == Heads(d, p, pre.value);
      assert forall id :: SoleHead(x, p, pre.value, id) <==> SoleHead(d, p, pre.value, id);
    }
  }

  /** The store went through a legal trail of the protocol, from taking the lock to its result. */
  ghost predicate Ran(d: Disk, task: Task, store: RecoveryStore, p: Place, res: Result)
    reads store
  {
    && Trail(p, store.trail) && store.trail[0] == Config(d, Enter(task))
    && Last(store.trail) == Config(store.Files(), Done(res))
  }

  /** A settled place of an undamaged store is open. */
  lemma QuietIsOpen(d: Disk, p: Place, base: Option<Digest>, chain: seq<Id>)
    requires Represents(d, p, base, chain, Quiet) && d.damaged.Keys == {}
    ensures Open(d, p)
  {
  }

  /**
   When a write succeeds, whatever crash it comes after: in an undamaged store, from any phase of the
   place, it is refused by the gate exactly if the file is not accounted for, and otherwise decided by
   the digest and the size of the file alone.
   */
  lemma WriteVerdict(d: Disk, p: Place, content: Bytes, expected: Option<Digest>, files: seq<Id>, id: Id,
                     base: Option<Digest>, chain: seq<Id>, ph: Phase)
    requires Represents(d, p, base, chain, ph) && d.damaged.Keys == {} && forall j :: j in d.receipts ==> j in files
    ensures Outcome(d, p, content, expected, files, id) ==
      if Doomed(d, p, base, chain, ph) then Denied
      else if Now(d, p) != expected then Conflict
      else Attempt(d, p, content, id)
  {
    if Doomed(d, p, base, chain, ph) {
      DoomedBlocks(d, p, base, chain, ph, files);
    } else {
      var ph' := AccountedClears(d, p, base, chain, ph, files);
    }
  }

  /** A write that came back committed pushed its receipt on the undo stack of the store. */
  lemma FsWritePushes(d: Disk, store: RecoveryStore, p: Place, task: Task, res: Result,
                      base: Option<Digest>, chain: seq<Id>, ph: Phase)
    requires task.WriteTask? && Ran(d, task, store, p, res) && res.Committed?
    requires Represents(d, p, base, chain, ph) && !ph.Half?
    ensures Represents(store.Files(), p, base, chain + [res.id], Quiet)
    ensures p in store.targets && store.targets[p] == task.content && Now(d, p) == task.expected
  {
    var chain', ph' := WriteTrail(p, store.trail, base, chain, ph);
    WritePushes(p, store.trail, res.id, task.content, base, chain, ph);
  }

  /**
   A rollback, whatever crash it comes after, comes back undone exactly when the journal is undamaged, the
   caller named the digest of the file, the file is accounted for and there is a write to undo; it popped
   that write and no other, and the file is what that write had replaced.
   */
  lemma FsRollbackPops(d: Disk, store: RecoveryStore, p: Place, wanted: Digest, res: Result, base: Option<Digest>,
                       chain: seq<Id>, ph: Phase)
    requires Ran(d, RollbackTask(wanted), store, p, res) && Represents(d, p, base, chain, ph) && !ph.Half?
    ensures res ==
      if d.damaged.Keys == {} && Now(d, p) == Some(wanted) && !Doomed(d, p, base, chain, ph) && chain != []
      then Undone(chain[|chain| - 1]) else Denied
    ensures res.Undone? ==>
      && Represents(store.Files(), p, base, chain[..|chain| - 1], Quiet)
      && WriteAt(store.Files(), p, res.src) && Now(store.Files(), p) == store.receipts[res.src].pre
  {
    RollbackVerdict(p, store.trail, base, chain, ph);
    if res.Undone? { RollbackPops(p, store.trail, res.src, base, chain, ph); }
  }
}
