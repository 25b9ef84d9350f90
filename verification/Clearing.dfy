/** What settling leaves and what it reports, told from the bytes that were on disk before it. */
module Clearing {
  import opened Wrappers
  import opened Journal
  import opened Protocol
  import opened Evidence
  import opened Settling
  import Recovery

  /** What a governed write settles: the rollback `rb` of the write `src`, interrupted before its terminal writes. */
  predicate Completed(d: Disk, p: Place, rb: Id, src: Id) {
    && At(d, p, rb) && d.receipts[rb].Rollback? && d.receipts[rb].rollbackOf == src
    && d.receipts[rb].state == Applied && BorneOut(d, d.receipts[rb])
  }

  /** What is reported ahead of a write, as `Settling.ReportedIff`, in bytes. */
  lemma ReportedInBytes(d: Disk, p: Place, files: seq<Id>)
    requires Recovery.WellNamed(d) && Recovery.Ordered(files) && forall id :: id in d.receipts ==> id in files
    ensures forall id :: id in Required(d, p, files) <==> Stuck(d, p, id)
    ensures forall id :: id in Mended(d, p, files) <==> Mends(d, p, id)
  {
    ReportsOnly(d, p, files);
    forall id
      ensures id in Required(d, p, files) <==> Stuck(d, p, id)
      ensures id in Mended(d, p, files) <==> Mends(d, p, id)
    {
      if id in files { ReportedIff(d, p, files, id); }
      if Pending(d, p, id) { VerdictInBytes(d, d.receipts[id]); }
    }
  }

  /** The state a receipt of the place is settled to ahead of a write. */
  function Cleared(d: Disk, r: Receipt): TxState {
    if !Interrupted(r) then r.state
    else if !BorneOut(d, r) then RecoveryRequired
    else if r.state == Prepared then RecoveredUnapplied
    else Verified
  }

  /** Some interrupted rollback among `files` completes and marks the write. */
  ghost predicate Marked(d: Disk, p: Place, files: seq<Id>, id: Id) {
    exists rb :: rb in files && Completed(d, p, rb, id)
  }

  lemma SettlesItself(d: Disk, p: Place, id: Id)
    requires Recovery.WellNamed(d) && id in d.receipts
    ensures SettleOne(d, p, id).receipts[id] ==
      if At(d, p, id) then WithState(d.receipts[id], Cleared(d, d.receipts[id])) else d.receipts[id]
  {
    if Pending(d, p, id) { VerdictInBytes(d, d.receipts[id]); }
  }

  lemma SettlesOther(d: Disk, p: Place, id: Id, other: Id)
    requires Recovery.WellNamed(d) && other in d.receipts && id != other
    ensures other in SettleOne(d, p, id).receipts
    ensures SettleOne(d, p, id).receipts[other] ==
      if Completed(d, p, id, other) then WithState(d.receipts[other], RolledBack) else d.receipts[other]
  {
    if Pending(d, p, id) { VerdictInBytes(d, d.receipts[id]); }
  }

  lemma CompletedLater(d: Disk, p: Place, files: seq<Id>, id: Id)
    requires Recovery.WellNamed(d) && Recovery.Ordered(files) && files != []
    ensures Marked(d, p, files, id) <==>
      Completed(d, p, files[0], id) || Marked(SettleOne(d, p, files[0]), p, files[1..], id)
  {
    var x := SettleOne(d, p, files[0]);
    forall rb | rb in files[1..] ensures Completed(x, p, rb, id) <==> Completed(d, p, rb, id) {
      var j :| 0 < j < |files| && files[j] == rb;
      VisitKeepsReceipt(d, p, files[0], rb);
    }
    assert forall rb :: rb in files <==> rb == files[0] || rb in files[1..];
  }

  /** What became of the receipt `id` in `x`, told from the disk `d` before `files` were visited. */
  ghost predicate Settles(d: Disk, x: Disk, p: Place, files: seq<Id>, id: Id)
    requires id in d.receipts
  {
    && id in x.receipts
    && x.receipts[id] == WithState(d.receipts[id],
         if Marked(d, p, files, id) then RolledBack
         else if id in files && At(d, p, id) then Cleared(d, d.receipts[id])
         else d.receipts[id].state)
  }

  lemma SameBytesCleared(d: Disk, y: Disk, r: Receipt)
    requires y.targets == d.targets && y.backups == d.backups
    ensures Cleared(y, r) == Cleared(d, r)
  {
  }

  lemma SettlesFirst(d: Disk, x: Disk, p: Place, files: seq<Id>, id: Id)
    requires Recovery.WellNamed(d) && Recovery.Ordered(files) && id in d.receipts && files != [] && id == files[0]
    requires id in SettleOne(d, p, id).receipts && Settles(SettleOne(d, p, id), x, p, files[1..], id)
    ensures Settles(d, x, p, files, id)
  {
    SettlesItself(d, p, id);
    CompletedLater(d, p, files, id);
    assert id !in files[1..] && !Completed(d, p, id, id);
  }

  lemma SettlesLater(d: Disk, x: Disk, p: Place, files: seq<Id>, id: Id)
    requires Recovery.WellNamed(d) && Recovery.Ordered(files) && id in d.receipts && files != [] && id != files[0]
    requires id in SettleOne(d, p, files[0]).receipts && Settles(SettleOne(d, p, files[0]), x, p, files[1..], id)
    ensures Settles(d, x, p, files, id)
  {
    SettlesOther(d, p, files[0], id);
    CompletedLater(d, p, files, id);
    SettleOneProgresses(d, p, files[0]);
    SameBytesCleared(d, SettleOne(d, p, files[0]), d.receipts[id]);
    if Completed(d, p, files[0], id) {
      assert id !in files[1..];
    }
  }

  /** The journal settling leaves ahead of a write, receipt by receipt. */
  lemma {:induction false} ClearedInBytes(d: Disk, p: Place, files: seq<Id>, id: Id)
    requires Recovery.WellNamed(d) && Recovery.Ordered(files) && id in d.receipts
    ensures Settles(d, SettleAll(d, p, files), p, files, id)
    decreases |files|
  {
    if files != [] {
      var y := SettleOne(d, p, files[0]);
      SettleOneStaysNamed(d, p, files[0]);
      SettleOneProgresses(d, p, files[0]);
      ClearedInBytes(y, p, files[1..], id);
      if id == files[0] {
        SettlesFirst(d, SettleAll(d, p, files), p, files, id);
      } else {
        SettlesLater(d, SettleAll(d, p, files), p, files, id);
      }
    }
  }

  /** The state a receipt of the place is settled to ahead of a rollback that is not denied. */
  function Overtaken(r: Receipt): TxState {
    if r.state == Prepared then (if r.FsWrite? then Superseded else RecoveredUnapplied)
    else if r.state == Applied then Verified
    else r.state
  }

  lemma ObstructsIff(d: Disk, p: Place, id: Id)
    ensures Denies(d, p, id) <==> Obstructs(d, p, id)
  {
    if Pending(d, p, id) { VerdictInBytes(d, d.receipts[id]); }
  }

  lemma OvertakesItself(d: Disk, p: Place, id: Id)
    requires Recovery.WellNamed(d) && id in d.receipts && !Obstructs(d, p, id)
    ensures Overtake(d, p, id).receipts[id] ==
      if At(d, p, id) then WithState(d.receipts[id], Overtaken(d.receipts[id])) else d.receipts[id]
  {
    ObstructsIff(d, p, id);
    if Pending(d, p, id) { VerdictInBytes(d, d.receipts[id]); }
  }

  lemma OvertakesOther(d: Disk, p: Place, id: Id, other: Id)
    requires Recovery.WellNamed(d) && id != other && !Obstructs(d, p, id)
    requires other in d.receipts
    ensures other in Overtake(d, p, id).receipts
    ensures Overtake(d, p, id).receipts[other] ==
      if Completed(d, p, id, other) then WithState(d.receipts[other], RolledBack) else d.receipts[other]
  {
    ObstructsIff(d, p, id);
    if Pending(d, p, id) { VerdictInBytes(d, d.receipts[id]); }
  }

  lemma SameReceiptObstructs(d: Disk, x: Disk, p: Place, id: Id)
    requires x.targets == d.targets && x.backups == d.backups && (id in x.receipts <==> id in d.receipts)
    requires id in d.receipts ==> x.receipts[id] == d.receipts[id]
    ensures Obstructs(x, p, id) <==> Obstructs(d, p, id)
    ensures forall src :: Completed(x, p, id, src) <==> Completed(d, p, id, src)
  {
  }

  lemma OvertakesLater(d: Disk, p: Place, files: seq<Id>, id: Id)
    requires Recovery.WellNamed(d) && Recovery.Ordered(files) && files != [] && !Obstructs(d, p, files[0])
    requires id in files[1..]
    ensures var x := Overtake(d, p, files[0]);
      && (id in x.receipts <==> id in d.receipts) && (id in d.receipts ==> x.receipts[id] == d.receipts[id])
      && (Obstructs(x, p, id) <==> Obstructs(d, p, id))
      && forall src :: Completed(x, p, id, src) <==> Completed(d, p, id, src)
  {
    var j :| 0 < j < |files| && files[j] == id;
    OvertakeProgresses(d, p, files[0]);
    if id in d.receipts { OvertakesOther(d, p, files[0], id); }
    assert !Completed(d, p, files[0], id);
    SameReceiptObstructs(d, Overtake(d, p, files[0]), p, id);
  }

  /** Which receipts stop a rollback before it chooses anything: told in bytes, in whatever order they come. */
  lemma {:induction false} DeniedInBytes(d: Disk, p: Place, files: seq<Id>)
    requires Recovery.WellNamed(d) && Recovery.Ordered(files)
    ensures DeniedBy(d, p, files).Some? <==> exists id :: id in files && Obstructs(d, p, id)
    ensures DeniedBy(d, p, files).Some? ==>
      DeniedBy(d, p, files).value in files && Obstructs(d, p, DeniedBy(d, p, files).value)
    decreases |files|
  {
    if files != [] {
      ObstructsIff(d, p, files[0]);
      if Obstructs(d, p, files[0]) {
        assert files[0] in files;
      } else {
        var x := Overtake(d, p, files[0]);
        OvertakeStaysNamed(d, p, files[0]);
        DeniedInBytes(x, p, files[1..]);
        forall id | id in files[1..] ensures Obstructs(x, p, id) <==> Obstructs(d, p, id) {
          OvertakesLater(d, p, files, id);
        }
        assert forall id :: id in files <==> id == files[0] || id in files[1..];
      }
    }
  }

  lemma OvertakeStaysNamed(d: Disk, p: Place, id: Id)
    requires Recovery.WellNamed(d)
    ensures Recovery.WellNamed(Overtake(d, p, id))
  {
    OvertakeProgresses(d, p, id);
    OnlyStatesNamed(d, Overtake(d, p, id));
  }

  lemma OnlyStatesNamed(d: Disk, x: Disk)
    requires Recovery.WellNamed(d) && OnlySettled(d, x)
    ensures Recovery.WellNamed(x)
  {
    forall id | id in x.receipts ensures Recovery.NamedFor(id, x.receipts[id]) {
      assert SameButState(d.receipts[id], x.receipts[id]);
    }
  }

  /** What became of the receipt `id` in `x` ahead of a rollback. */
  ghost predicate Overtakes(d: Disk, x: Disk, p: Place, files: seq<Id>, id: Id)
    requires id in d.receipts
  {
    && id in x.receipts
    && x.receipts[id] == WithState(d.receipts[id],
         if Marked(d, p, files, id) then RolledBack
         else if id in files && At(d, p, id) then Overtaken(d.receipts[id])
         else d.receipts[id].state)
  }

  lemma OvertakenMarks(d: Disk, p: Place, files: seq<Id>, id: Id)
    requires Recovery.WellNamed(d) && Recovery.Ordered(files) && files != [] && !Obstructs(d, p, files[0])
    ensures Marked(d, p, files, id) <==>
      Completed(d, p, files[0], id) || Marked(Overtake(d, p, files[0]), p, files[1..], id)
  {
    forall rb | rb in files[1..]
      ensures Completed(Overtake(d, p, files[0]), p, rb, id) <==> Completed(d, p, rb, id)
    {
      OvertakesLater(d, p, files, rb);
    }
    assert forall rb :: rb in files <==> rb == files[0] || rb in files[1..];
  }

  lemma OvertakenFirst(d: Disk, x: Disk, p: Place, files: seq<Id>, id: Id)
    requires Recovery.WellNamed(d) && Recovery.Ordered(files) && files != [] && !Obstructs(d, p, files[0])
    requires id in d.receipts && id in Overtake(d, p, files[0]).receipts
    requires Overtakes(Overtake(d, p, files[0]), x, p, files[1..], id)
    ensures Overtakes(d, x, p, files, id)
  {
    OvertakenMarks(d, p, files, id);
    if id == files[0] {
      OvertakesItself(d, p, id);
      assert id !in files[1..] && !Completed(d, p, id, id);
    } else {
      OvertakesOther(d, p, files[0], id);
      if Completed(d, p, files[0], id) { assert id !in files[1..]; }
    }
  }

  /**
   The journal settling leaves ahead of a rollback that nothing denies: intents that never applied are
   superseded, applied writes verified, interrupted rollbacks closed and the writes they undid marked.
   */
  lemma {:induction false} OvertakenInBytes(d: Disk, p: Place, files: seq<Id>, id: Id)
    requires Recovery.WellNamed(d) && Recovery.Ordered(files) && id in d.receipts
    requires forall j :: j in files ==> !Obstructs(d, p, j)
    ensures Overtakes(d, OvertakeAll(d, p, files), p, files, id)
    decreases |files|
  {
    if files != [] {
      var y := Overtake(d, p, files[0]);
      ObstructsIff(d, p, files[0]);
      OvertakeStaysNamed(d, p, files[0]);
      OvertakeProgresses(d, p, files[0]);
      forall j | j in files[1..] ensures !Obstructs(y, p, j) { OvertakesLater(d, p, files, j); }
      OvertakenInBytes(y, p, files[1..], id);
      OvertakenFirst(d, OvertakeAll(d, p, files), p, files, id);
    }
  }
}
