/** What the bytes on disk say about a receipt, told from the bytes alone. */
module Evidence {
  import opened Wrappers
  import opened Journal

  /** The file is, byte for byte, what the digest is of, or absent when there is none. */
  predicate HoldsBytes(d: Disk, p: Place, h: Option<Digest>) {
    match h
    case None => p !in d.targets
    case Some(digest) => p in d.targets && d.targets[p] == digest.of
  }

  /** The bytes the write replaced are not in the backup it names: no such file, or other bytes. */
  predicate Bereft(d: Disk, r: Receipt) {
    && r.FsWrite? && r.pre.Some?
    && !(r.backup.Some? && r.backup.value in d.backups && d.backups[r.backup.value] == r.pre.value.of)
  }

  /**
   The disk bears out what an interrupted operation recorded: a write still has its backup, and the file is
   what the last step recorded as done left.
   */
  predicate BorneOut(d: Disk, r: Receipt) {
    match r
    case FsWrite(p, st, pre, post, _, _, _) =>
      !Bereft(d, r) && if st == Prepared then HoldsBytes(d, p, pre) else post.Some? && HoldsBytes(d, p, post)
    case Rollback(p, st, _, expected, restored, _) =>
      if st == Prepared then HoldsBytes(d, p, Some(expected)) else restored.Some? && HoldsBytes(d, p, restored.value)
  }

  predicate Interrupted(r: Receipt) {
    r.state == Prepared || r.state == Applied
  }

  predicate Blocks(d: Disk, p: Place, id: Id) {
    id in d.receipts && d.receipts[id].place == p && d.receipts[id].state == RecoveryRequired
  }

  /** The receipt blocks its place, or will once it is looked at. */
  predicate Stuck(d: Disk, p: Place, id: Id) {
    || Blocks(d, p, id)
    || (id in d.receipts && d.receipts[id].place == p && Interrupted(d.receipts[id]) && !BorneOut(d, d.receipts[id]))
  }

  /** The receipt was left interrupted, and the disk bears it out. */
  predicate Mends(d: Disk, p: Place, id: Id) {
    && id in d.receipts && d.receipts[id].place == p
    && Interrupted(d.receipts[id]) && BorneOut(d, d.receipts[id])
  }

  /** What a rollback cannot get past: of an applied write it asks for the file only, not for the backup. */
  predicate Obstructs(d: Disk, p: Place, id: Id) {
    && id in d.receipts && d.receipts[id].place == p
    && var r := d.receipts[id];
    if r.FsWrite? && r.state == Applied then !(r.post.Some? && HoldsBytes(d, p, r.post))
    else Interrupted(r) && !BorneOut(d, r)
  }

  /** What recovery has to decide under the lock of the target. */
  predicate Undecided(d: Disk, r: Receipt) {
    Interrupted(r) || (r.state == Verified && (r.Rollback? || Bereft(d, r)))
  }

  /** What recovery finds wrong. */
  predicate Failing(d: Disk, r: Receipt) {
    (Interrupted(r) && !BorneOut(d, r)) || (r.state == Verified && Bereft(d, r))
  }

  /** The rollback `rb` of the write `src` is complete, or the disk says that only its record is missing. */
  predicate Reverts(d: Disk, rb: Id, src: Id) {
    && rb in d.receipts && d.receipts[rb].Rollback? && d.receipts[rb].rollbackOf == src
    && (d.receipts[rb].state == Verified || (d.receipts[rb].state == Applied && BorneOut(d, d.receipts[rb])))
  }

  lemma VerdictInBytes(d: Disk, r: Receipt)
    requires Incomplete(r.state)
    ensures Reconciled(d, r) ==
      if !BorneOut(d, r) then RecoveryRequired else if r.state == Prepared then RecoveredUnapplied else Verified
  {
  }

  /** A standing write, applied or verified, names `id` as the one it was made on. */
  predicate BuiltOn(d: Disk, p: Place, id: Id, upper: Id) {
    && upper in d.receipts && d.receipts[upper].FsWrite? && d.receipts[upper].place == p
    && d.receipts[upper].prev == Some(id)
    && (d.receipts[upper].state == Applied || d.receipts[upper].state == Verified)
  }

  /** A write nobody could settle names `id`. */
  predicate Contested(d: Disk, p: Place, id: Id, upper: Id) {
    && upper in d.receipts && d.receipts[upper].FsWrite? && d.receipts[upper].place == p
    && d.receipts[upper].prev == Some(id)
    && d.receipts[upper].state == RecoveryRequired
  }

  /** A verified write that left the bytes of `h`. */
  predicate Left(d: Disk, p: Place, h: Digest, id: Id) {
    && id in d.receipts && d.receipts[id].FsWrite? && d.receipts[id].place == p
    && d.receipts[id].state == Verified && d.receipts[id].post == Some(h)
  }

  /** And that no standing write was made on. */
  ghost predicate Uncovered(d: Disk, p: Place, h: Digest, id: Id) {
    Left(d, p, h, id) && forall upper :: !BuiltOn(d, p, id, upper)
  }

  ghost predicate OnlyUncovered(d: Disk, p: Place, h: Digest, id: Id) {
    forall j :: Uncovered(d, p, h, j) <==> j == id
  }

  /** A settled write of the place: it stands, was never applied, was undone or overtaken. */
  predicate SettledWrite(d: Disk, p: Place, id: Id) {
    && id in d.receipts && d.receipts[id].FsWrite? && d.receipts[id].place == p
    && (d.receipts[id].state == Verified || d.receipts[id].state == RecoveredUnapplied
        || d.receipts[id].state == RolledBack || d.receipts[id].state == Superseded)
  }

  lemma HeadsInWords(d: Disk, p: Place, h: Digest, id: Id)
    ensures id in Candidates(d, p, h) <==> Left(d, p, h, id)
    ensures id in Effective(d, p) <==> exists upper :: BuiltOn(d, p, id, upper)
    ensures id in Doubtful(d, p) <==> exists upper :: Contested(d, p, id, upper)
    ensures id in Heads(d, p, h) <==> Uncovered(d, p, h, id)
  {
    if upper :| BuiltOn(d, p, id, upper) { assert WriteAt(d, p, upper); }
    if upper :| Contested(d, p, id, upper) { assert WriteAt(d, p, upper); }
    if id in Effective(d, p) {
      var upper :| upper in d.receipts && WriteAt(d, p, upper) && d.receipts[upper].prev == Some(id)
                && (d.receipts[upper].state == Applied || d.receipts[upper].state == Verified);
      assert BuiltOn(d, p, id, upper);
    }
    if id in Doubtful(d, p) {
      var upper :| upper in d.receipts && WriteAt(d, p, upper) && d.receipts[upper].prev == Some(id)
                && d.receipts[upper].state == RecoveryRequired;
      assert Contested(d, p, id, upper);
    }
  }

  lemma SoleInWords(d: Disk, p: Place, h: Digest, id: Id)
    ensures SoleHead(d, p, h, id) <==> OnlyUncovered(d, p, h, id)
  {
    forall j ensures j in Heads(d, p, h) <==> Uncovered(d, p, h, j) { HeadsInWords(d, p, h, j); }
    if OnlyUncovered(d, p, h, id) {
      assert Uncovered(d, p, h, id);
      assert Heads(d, p, h) == {id};
    }
  }

  /**
   The link of a new write, told from the receipts: over content, the one uncovered write that left it, if
   there is just one; over nothing, the settled write with the latest clock, names deciding ties.
   */
  lemma LinkInWords(d: Disk, p: Place, pre: Option<Digest>, link: Option<Id>)
    ensures pre.Some? ==>
      (LinkFor(d, p, pre, link) <==>
       if link.Some? then OnlyUncovered(d, p, pre.value, link.value)
       else forall id :: !OnlyUncovered(d, p, pre.value, id))
    ensures pre.None? ==>
      (LinkFor(d, p, pre, link) <==>
       if link.Some? then
         && SettledWrite(d, p, link.value)
         && forall j :: SettledWrite(d, p, j) ==>
              && d.receipts[j].clock <= d.receipts[link.value].clock
              && (d.receipts[j].clock == d.receipts[link.value].clock ==> j.serial <= link.value.serial)
       else forall j :: !SettledWrite(d, p, j))
  {
    if pre.Some? {
      forall id ensures SoleHead(d, p, pre.value, id) <==> OnlyUncovered(d, p, pre.value, id) {
        SoleInWords(d, p, pre.value, id);
      }
    } else {
      assert forall j :: j in TerminalWrites(d, p) <==> SettledWrite(d, p, j);
    }
  }

  /**
   What a rollback selects, told from the receipts: the one uncovered write that left the content, unless a
   write nobody could settle was made on it.
   */
  lemma SelectionInWords(d: Disk, p: Place, h: Digest, choice: Selection)
    ensures Selects(d, p, h, choice) <==>
      match choice
      case NoReceipt => forall id :: !Left(d, p, h, id)
      case Head(id) => OnlyUncovered(d, p, h, id) && forall upper :: !Contested(d, p, id, upper)
      case AmbiguousLineage =>
        && (exists id :: Left(d, p, h, id))
        && forall id :: OnlyUncovered(d, p, h, id) ==> exists upper :: Contested(d, p, id, upper)
  {
    forall id
      ensures SoleHead(d, p, h, id) <==> OnlyUncovered(d, p, h, id)
      ensures id in Candidates(d, p, h) <==> Left(d, p, h, id)
      ensures id in Doubtful(d, p) <==> exists upper :: Contested(d, p, id, upper)
    {
      SoleInWords(d, p, h, id);
      HeadsInWords(d, p, h, id);
    }
  }
}
