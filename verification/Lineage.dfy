/**
 The undo stack a journal represents: the standing writes of a place, each made on top of the one
 before, and the phases a place's files can be in between two atomic steps.
 */
module Lineage {
  import opened Wrappers
  import opened Journal
  import opened Protocol

  function Post(d: Disk, id: Id): Option<Digest> {
    if id in d.receipts && d.receipts[id].FsWrite? then d.receipts[id].post else None
  }

  /** Digest the stack says the file has; `base` is what the file was before any governed write. */
  function Top(d: Disk, base: Option<Digest>, chain: seq<Id>): Option<Digest> {
    if chain == [] then base else Post(d, chain[|chain| - 1])
  }

  /** A link that can never name a standing write. */
  ghost predicate Detached(d: Disk, p: Place, link: Option<Id>) {
    link.Some? && At(d, p, link.value) ==> Dead(d.receipts[link.value].state)
  }

  /** The write `id` was made directly on top of `below`. */
  ghost predicate OnTop(d: Disk, p: Place, base: Option<Digest>, below: seq<Id>, id: Id) {
    && WriteAt(d, p, id)
    && d.receipts[id].pre == Top(d, base, below)
    && (if below == [] then Detached(d, p, d.receipts[id].prev)
        else d.receipts[id].prev == Some(below[|below| - 1]))
  }

  ghost predicate LinkAt(d: Disk, p: Place, base: Option<Digest>, chain: seq<Id>, i: nat)
    requires i < |chain|
  {
    OnTop(d, p, base, chain[..i], chain[i]) && d.receipts[chain[i]].post.Some?
  }

  ghost predicate Stack(d: Disk, p: Place, base: Option<Digest>, chain: seq<Id>) {
    && (forall i :: 0 <= i < |chain| ==> LinkAt(d, p, base, chain, i))
    && (forall i, j :: 0 <= i < j < |chain| ==> chain[i] != chain[j])
  }

  ghost predicate VerifiedBelow(d: Disk, chain: seq<Id>, n: int)
    requires n <= |chain|
  {
    forall i :: 0 <= i < n ==> chain[i] in d.receipts && d.receipts[chain[i]].state == Verified
  }

  ghost predicate AllVerified(d: Disk, chain: seq<Id>) {
    VerifiedBelow(d, chain, |chain|)
  }

  ghost predicate SourceUndone(d: Disk, p: Place, src: Id) {
    At(d, p, src) ==> d.receipts[src].FsWrite? && d.receipts[src].state == RolledBack
  }

  /** A receipt that takes no further part in the protocol. */
  ghost predicate Retired(d: Disk, p: Place, id: Id)
    requires id in d.receipts
  {
    match d.receipts[id]
    case FsWrite(_, st, _, _, _, _, _) => Dead(st)
    case Rollback(_, st, src, _, _, _) =>
      st == RecoveredUnapplied || (st == Verified && SourceUndone(d, p, src))
  }

  /** Every receipt of the place is on the stack, in `busy`, or retired. */
  ghost predicate Accounted(d: Disk, p: Place, chain: seq<Id>, busy: set<Id>) {
    forall id :: At(d, p, id) && id !in chain && id !in busy ==> Retired(d, p, id)
  }

  /** The write has a backup file of its own holding the bytes it replaced. */
  ghost predicate HasBackup(d: Disk, id: Id)
    requires id in d.receipts && d.receipts[id].FsWrite?
  {
    d.receipts[id].pre.Some? ==> d.receipts[id].backup == Some(id) && BackupOk(d, d.receipts[id])
  }

  ghost predicate BackupsKept(d: Disk, p: Place) {
    forall id :: WriteAt(d, p, id) ==> HasBackup(d, id)
  }

  datatype Phase =
    | Quiet
    | Writing(w: Id)
    | Landed
    | Undoing(rb: Id)
    | Undid(rb: Id, src: Id)
    | Half(rb: Id, src: Id)
    | Blocked(x: Id)

  /** The source of a rollback whose effect is on disk: already off the stack, not yet marked. */
  ghost predicate Popped(d: Disk, p: Place, base: Option<Digest>, chain: seq<Id>, src: Id) {
    src !in chain && OnTop(d, p, base, chain, src) && d.receipts[src].state == Verified
  }

  ghost predicate InPhase(d: Disk, p: Place, base: Option<Digest>, chain: seq<Id>, ph: Phase) {
    match ph
    case Quiet =>
      AllVerified(d, chain) && Accounted(d, p, chain, {}) && Now(d, p) == Top(d, base, chain)
    case Writing(w) =>
      && w !in chain && OnTop(d, p, base, chain, w) && d.receipts[w].state == Prepared
      && AllVerified(d, chain) && Accounted(d, p, chain, {w})
    case Landed =>
      && chain != []
      && VerifiedBelow(d, chain, |chain| - 1)
      && chain[|chain| - 1] in d.receipts && d.receipts[chain[|chain| - 1]].state == Applied
      && Accounted(d, p, chain, {}) && Now(d, p) == Top(d, base, chain)
    case Undoing(rb) =>
      && chain != [] && At(d, p, rb) && d.receipts[rb].Rollback? && d.receipts[rb].state == Prepared
      && d.receipts[rb].rollbackOf == chain[|chain| - 1]
      && Some(d.receipts[rb].expectedPost) == Top(d, base, chain)
      && AllVerified(d, chain) && Accounted(d, p, chain, {rb})
      && (Now(d, p) == Top(d, base, chain) || Now(d, p) == Top(d, base, chain[..|chain| - 1]))
    case Undid(rb, src) =>
      && Popped(d, p, base, chain, src)
      && At(d, p, rb) && d.receipts[rb].Rollback? && d.receipts[rb].state == Applied
      && d.receipts[rb].rollbackOf == src && d.receipts[rb].restored == Some(Now(d, p))
      && AllVerified(d, chain) && Accounted(d, p, chain, {rb, src}) && Now(d, p) == Top(d, base, chain)
    case Half(rb, src) =>
      && Popped(d, p, base, chain, src)
      && At(d, p, rb) && d.receipts[rb].Rollback? && d.receipts[rb].state == Verified
      && d.receipts[rb].rollbackOf == src
      && AllVerified(d, chain) && Accounted(d, p, chain, {rb, src}) && Now(d, p) == Top(d, base, chain)
    case Blocked(x) =>
      && x !in chain && At(d, p, x) && d.receipts[x].state == RecoveryRequired
      && AllVerified(d, chain) && Accounted(d, p, chain, {x}) && Now(d, p) != Top(d, base, chain)
  }

  /** The disk represents the stack `chain` over `base`, in phase `ph`. */
  ghost predicate Represents(d: Disk, p: Place, base: Option<Digest>, chain: seq<Id>, ph: Phase) {
    Stack(d, p, base, chain) && BackupsKept(d, p) && InPhase(d, p, base, chain, ph)
  }

  /** The file holds bytes no settled receipt accounts for. */
  ghost predicate Doomed(d: Disk, p: Place, base: Option<Digest>, chain: seq<Id>, ph: Phase) {
    ph.Blocked? || ((ph.Writing? || ph.Undoing?) && Now(d, p) != Top(d, base, chain))
  }

  /** What the process inside the critical section relies on. */
  ghost predicate InControl(d: Disk, p: Place, base: Option<Digest>, chain: seq<Id>, ph: Phase, pc: Pc) {
    match pc
    case Start(_) => true
    case Done(result) =>
      (match result
       case Committed(id, post) =>
         ph == Quiet && chain != [] && chain[|chain| - 1] == id && Top(d, base, chain) == Some(post)
       case Undone(src) =>
         && ph == Quiet && src !in chain && WriteAt(d, p, src)
         && d.receipts[src].state == RolledBack && d.receipts[src].pre == Now(d, p)
       case _ => true)
    case Enter(task) => !task.RecoverTask? ==> !ph.Half?
    case Settle(task) =>
      && (!task.RecoverTask? ==> !ph.Half?)
      && (task.RollbackTask? ==> Now(d, p) == Some(task.wanted))
    case Finish(task, src) =>
      && (task.RollbackTask? ==> Now(d, p) == Some(task.wanted))
      && ((ph.Half? && ph.src == src) || (task.RecoverTask? && SourceUndone(d, p, src)))
    case Demote(task, id) =>
      && task.RollbackTask? && Now(d, p) == Some(task.wanted)
      && ph == Quiet && WriteAt(d, p, id) && d.receipts[id].state == RecoveredUnapplied
    case BackedUp(task, id) =>
      && ph == Quiet && task.WriteTask? && Now(d, p) == task.expected
      && id !in d.receipts
      && (Now(d, p).Some? ==> id in d.backups && Some(Sha256(d.backups[id])) == Now(d, p))
    case Journaled(task, id) =>
      ph == Writing(id) && task.WriteTask? && Now(d, p) == Top(d, base, chain) == task.expected
    case Replaced(task, id) =>
      && ph == Writing(id) && task.WriteTask?
      && Now(d, p) == Some(Sha256(task.content)) && Top(d, base, chain) == task.expected
    case Recorded(id, post) =>
      ph == Landed && chain != [] && chain[|chain| - 1] == id && Top(d, base, chain) == Some(post)
    case Intended(rb, src) =>
      ph == Undoing(rb) && chain != [] && chain[|chain| - 1] == src && Now(d, p) == Top(d, base, chain)
    case Restored(rb, src) =>
      && ph == Undoing(rb) && chain != [] && chain[|chain| - 1] == src
      && Now(d, p) == Top(d, base, chain[..|chain| - 1])
    case Logged(rb, src) => ph == Undid(rb, src)
    case HalfDone(src) => ph.Half? && ph.src == src
  }
}
