/** Operations written out step by step: the trail of a write or a rollback that nothing stands in the way of. */
module Scripts {
  import opened Wrappers
  import opened Journal
  import opened Protocol
  import opened Lineage
  import opened Safety
  import opened Trails

  /** The receipt of the new write in state `st`. */
  function NewWrite(d: Disk, p: Place, content: Bytes, id: Id, link: Option<Id>, st: TxState): Receipt {
    FsWrite(p, st, Now(d, p), if st == Prepared then None else Some(Sha256(content)), link,
            if p in d.targets then Some(id) else None, 0)
  }

  function Saved(d: Disk, p: Place, id: Id): Disk {
    if p in d.targets then d.(backups := d.backups[id := d.targets[p]]) else d
  }

  function Journaling(d: Disk, p: Place, content: Bytes, id: Id, link: Option<Id>): Disk {
    Saved(d, p, id).(receipts := d.receipts[id := NewWrite(d, p, content, id, link, Prepared)])
  }

  function Written(d: Disk, p: Place, content: Bytes, id: Id, link: Option<Id>, st: TxState): Disk {
    Saved(d, p, id).(receipts := d.receipts[id := NewWrite(d, p, content, id, link, st)],
                     targets := d.targets[p := content])
  }

  /** The steps of a write, from taking the lock to its success. */
  function WriteScript(d: Disk, p: Place, content: Bytes, id: Id, link: Option<Id>): seq<Config> {
    var t, h := WriteTask(content, Now(d, p)), Sha256(content);
    [ Config(d, Enter(t)), Config(d, Settle(t)), Config(Saved(d, p, id), BackedUp(t, id)),
      Config(Journaling(d, p, content, id, link), Journaled(t, id)),
      Config(Written(d, p, content, id, link, Prepared), Replaced(t, id)),
      Config(Written(d, p, content, id, link, Applied), Recorded(id, h)),
      Config(Written(d, p, content, id, link, Verified), Done(Committed(id, h))) ]
  }

  /** Nothing stands in the way of a write under the name `id`. */
  ghost predicate Writable(d: Disk, p: Place, id: Id) {
    && d.damaged.Keys == {} && !AnyPending(d, p) && !AnyBlocking(d, p)
    && (p in d.targets ==> |d.targets[p]| <= MAX_BACKUP_BYTES)
    && id.RecoveryId? && Fresh(d, id) && id !in d.backups
  }

  lemma WriteBegins(d: Disk, p: Place, content: Bytes, id: Id)
    requires Writable(d, p, id)
    ensures var t := WriteTask(content, Now(d, p));
      Work(p, d, Enter(t), d, Settle(t)) && Work(p, d, Settle(t), Saved(d, p, id), BackedUp(t, id))
  {
  }

  lemma WritePrepares(d: Disk, p: Place, content: Bytes, id: Id, link: Option<Id>)
    requires Writable(d, p, id) && LinkFor(d, p, Now(d, p), link)
    ensures WritePrepared(p, Saved(d, p, id), id, Journaling(d, p, content, id, link))
  {
    var x := Saved(d, p, id);
    assert TerminalWrites(x, p) == TerminalWrites(d, p);
    if p in d.targets {
      var h := Sha256(d.targets[p]);
      assert Heads(x, p, h) == Heads(d, p, h);
      assert forall j :: SoleHead(x, p, h, j) <==> SoleHead(d, p, h, j);
    }
  }

  lemma WriteReplaces(d: Disk, p: Place, content: Bytes, id: Id, link: Option<Id>)
    ensures var t := WriteTask(content, Now(d, p));
      Work(p, Journaling(d, p, content, id, link), Journaled(t, id), Written(d, p, content, id, link, Prepared),
           Replaced(t, id))
  {
  }

  lemma WriteLands(d: Disk, p: Place, content: Bytes, id: Id, link: Option<Id>)
    ensures var t, h := WriteTask(content, Now(d, p)), Sha256(content);
      && Work(p, Written(d, p, content, id, link, Prepared), Replaced(t, id),
              Written(d, p, content, id, link, Applied), Recorded(id, h))
      && Work(p, Written(d, p, content, id, link, Applied), Recorded(id, h),
              Written(d, p, content, id, link, Verified), Done(Committed(id, h)))
  {
    var x, y := Written(d, p, content, id, link, Prepared), Written(d, p, content, id, link, Applied);
    assert x.receipts[id := NewWrite(d, p, content, id, link, Applied)] == y.receipts;
    assert SetState(y, id, Verified).receipts == Written(d, p, content, id, link, Verified).receipts;
  }

  lemma WriteScriptIsTrail(d: Disk, p: Place, content: Bytes, id: Id, link: Option<Id>)
    requires Writable(d, p, id) && LinkFor(d, p, Now(d, p), link)
    ensures Trail(p, WriteScript(d, p, content, id, link))
  {
    WriteBegins(d, p, content, id);
    WritePrepares(d, p, content, id, link);
    WriteReplaces(d, p, content, id, link);
    WriteLands(d, p, content, id, link);
    var t := WriteTask(content, Now(d, p));
    assert Work(p, Saved(d, p, id), BackedUp(t, id), Journaling(d, p, content, id, link), Journaled(t, id));
    forall k | 0 < k < 7
      ensures var cs := WriteScript(d, p, content, id, link);
        Work(p, cs[k - 1].disk, cs[k - 1].pc, cs[k].disk, cs[k].pc)
    {
      assert k == 1 || k == 2 || k == 3 || k == 4 || k == 5 || k == 6;
    }
  }

  /** Over a stack there is always a link to be had. */
  lemma LinkToTop(d: Disk, p: Place, base: Option<Digest>, chain: seq<Id>)
    requires Represents(d, p, base, chain, Quiet) && chain != []
    ensures LinkFor(d, p, Now(d, p), Some(chain[|chain| - 1]))
  {
    assert LinkAt(d, p, base, chain, |chain| - 1);
    HeadIsTop(d, p, base, chain, Now(d, p).value);
    assert SoleHead(d, p, Now(d, p).value, chain[|chain| - 1]);
  }

  function Undo(p: Place, h: Digest, src: Id, restored: Option<Option<Digest>>, st: TxState): Receipt {
    Journal.Rollback(p, st, src, h, restored, 0)
  }

  /** The file as it was before the write `src`. */
  function Before(d: Disk, p: Place, src: Id): map<Place, Bytes>
    requires src in d.receipts && d.receipts[src].FsWrite? && BackupOk(d, d.receipts[src])
  {
    var s := d.receipts[src];
    if s.pre.None? then d.targets - {p} else d.targets[p := d.backups[s.backup.value]]
  }

  /** The steps of a rollback that undoes `src`, from taking the lock to its success. */
  function RollbackScript(d: Disk, p: Place, h: Digest, rb: Id, src: Id): seq<Config>
    requires src in d.receipts && d.receipts[src].FsWrite? && BackupOk(d, d.receipts[src])
  {
    var t, pre, was := RollbackTask(h), d.receipts[src].pre, Before(d, p, src);
    var d1 := d.(receipts := d.receipts[rb := Undo(p, h, src, None, Prepared)]);
    var d3 := d.(targets := was, receipts := d.receipts[rb := Undo(p, h, src, Some(pre), Applied)]);
    var d4 := d.(targets := was, receipts := d.receipts[rb := Undo(p, h, src, Some(pre), Verified)]);
    [ Config(d, Enter(t)), Config(d, Settle(t)), Config(d1, Intended(rb, src)),
      Config(d1.(targets := was), Restored(rb, src)),
      Config(d3, Logged(rb, src)), Config(d4, HalfDone(src)), Config(MarkSource(d4, src), Done(Undone(src))) ]
  }

  /** Nothing stands in the way of a rollback of `h` under the name `rb`. */
  ghost predicate Undoable(d: Disk, p: Place, h: Digest, rb: Id, src: Id) {
    && d.damaged.Keys == {} && !AnyPending(d, p) && Now(d, p) == Some(h) && Selects(d, p, h, Head(src))
    && rb.RollbackId? && Fresh(d, rb) && WriteAt(d, p, src) && BackupOk(d, d.receipts[src])
  }

  lemma RollbackBegins(d: Disk, p: Place, h: Digest, rb: Id, src: Id)
    requires Undoable(d, p, h, rb, src)
    ensures var cs := RollbackScript(d, p, h, rb, src);
      && Work(p, d, Enter(RollbackTask(h)), d, Settle(RollbackTask(h)))
      && Work(p, cs[1].disk, cs[1].pc, cs[2].disk, cs[2].pc)
  {
    assert BeginRollback(p, d, h, RollbackScript(d, p, h, rb, src)[2].disk, Intended(rb, src));
  }

  lemma RollbackRestores(d: Disk, p: Place, h: Digest, rb: Id, src: Id)
    requires Undoable(d, p, h, rb, src)
    ensures var cs := RollbackScript(d, p, h, rb, src);
      Work(p, cs[2].disk, cs[2].pc, cs[3].disk, cs[3].pc) && Work(p, cs[3].disk, cs[3].pc, cs[4].disk, cs[4].pc)
  {
    var cs := RollbackScript(d, p, h, rb, src);
    assert Now(cs[3].disk, p) == d.receipts[src].pre;
    assert cs[3].disk.receipts[rb := cs[4].disk.receipts[rb]] == cs[4].disk.receipts;
  }

  lemma RollbackEnds(d: Disk, p: Place, h: Digest, rb: Id, src: Id)
    requires Undoable(d, p, h, rb, src)
    ensures var cs := RollbackScript(d, p, h, rb, src);
      Work(p, cs[4].disk, cs[4].pc, cs[5].disk, cs[5].pc) && Work(p, cs[5].disk, cs[5].pc, cs[6].disk, cs[6].pc)
  {
    var cs := RollbackScript(d, p, h, rb, src);
    assert SetState(cs[4].disk, rb, Verified).receipts == cs[5].disk.receipts;
  }

  lemma RollbackScriptIsTrail(d: Disk, p: Place, h: Digest, rb: Id, src: Id)
    requires Undoable(d, p, h, rb, src)
    ensures Trail(p, RollbackScript(d, p, h, rb, src))
  {
    RollbackBegins(d, p, h, rb, src);
    RollbackRestores(d, p, h, rb, src);
    RollbackEnds(d, p, h, rb, src);
    forall k | 0 < k < 7
      ensures var cs := RollbackScript(d, p, h, rb, src); Work(p, cs[k - 1].disk, cs[k - 1].pc, cs[k].disk, cs[k].pc)
    {
      assert k == 1 || k == 2 || k == 3 || k == 4 || k == 5 || k == 6;
    }
  }

  /** The top of a settled stack can always be undone. */
  lemma TopUndoable(d: Disk, p: Place, base: Option<Digest>, chain: seq<Id>, rb: Id)
    requires Represents(d, p, base, chain, Quiet) && chain != [] && d.damaged.Keys == {} && rb.RollbackId?
    requires Fresh(d, rb)
    ensures Now(d, p).Some? && Undoable(d, p, Now(d, p).value, rb, chain[|chain| - 1])
  {
    var top := chain[|chain| - 1];
    assert LinkAt(d, p, base, chain, |chain| - 1) && HasBackup(d, top);
    SelectsTop(d, p, base, chain, Now(d, p).value, top);
    if id :| Pending(d, p, id) { PendingPhase(d, p, base, chain, Quiet, id); }
  }
}
