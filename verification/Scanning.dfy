/**
 What one recovery scan does and reports, told from the bytes that were on disk before it, while the locks
 of the places in `busy` are held by live operations.
 */
module Scanning {
  import opened Wrappers
  import opened Journal
  import opened Evidence
  import opened Recovery

  /** Every rollback of the write `src` is a rollback at its place, blocking ones aside. */
  ghost predicate UndoneAtHome(d: Disk, src: Id)
    requires src in d.receipts
  {
    forall rb :: rb in d.receipts && d.receipts[rb].Rollback? && d.receipts[rb].rollbackOf == src ==>
      d.receipts[rb].state == RecoveryRequired || d.receipts[rb].place == d.receipts[src].place
  }

  /** Rollbacks undo writes of their own place. */
  ghost predicate AtHome(d: Disk) {
    forall id :: id in d.receipts ==> UndoneAtHome(d, id)
  }

  /** The receipts of the busy places are as they were. */
  ghost predicate SparesBusy(start: Disk, x: Disk, busy: set<Place>) {
    forall id :: id in start.receipts && start.receipts[id].place in busy ==>
      id in x.receipts && x.receipts[id] == start.receipts[id]
  }

  /** The same, and no other rollback than at the start could mark a source. */
  ghost predicate Spared(start: Disk, x: Disk, busy: set<Place>) {
    && WellNamed(x) && SparesBusy(start, x, busy)
    && start.receipts.Keys <= x.receipts.Keys
    && forall rb :: rb in x.receipts && x.receipts[rb].Rollback? && x.receipts[rb].state != RecoveryRequired ==>
         && rb in start.receipts && start.receipts[rb].Rollback? && start.receipts[rb].state != RecoveryRequired
         && start.receipts[rb].place == x.receipts[rb].place
         && start.receipts[rb].rollbackOf == x.receipts[rb].rollbackOf
  }

  lemma StateSpares(start: Disk, d: Disk, id: Id, st: TxState, busy: set<Place>)
    requires Spared(start, d, busy) && id in d.receipts
    requires id in start.receipts ==> start.receipts[id].place !in busy
    requires d.receipts[id].Rollback? && d.receipts[id].state == RecoveryRequired ==> st == RecoveryRequired
    ensures Spared(start, SetState(d, id, st), busy)
  {
    StaysNamed(d, id, st);
  }

  lemma RestateSpares(start: Disk, d: Disk, id: Id, busy: set<Place>)
    requires Spared(start, d, busy) && id in d.damaged
    ensures Spared(start, Revive(d, id), busy)
  {
    ReviveKeepsFinal(d, id);
  }

  lemma FixSpares(start: Disk, d: Disk, id: Id, fix: Fix, busy: set<Place>)
    requires AtHome(start) && Spared(start, d, busy) && Applicable(d, fix)
    requires fix == Restate(id) || fix == Judge(id) || fix == MarkFor(id)
    requires id in d.receipts ==> d.receipts[id].place !in busy
    ensures Spared(start, Apply(d, fix), busy)
  {
    match fix
    case Restate(_) => RestateSpares(start, d, id, busy);
    case Judge(_) => StateSpares(start, d, id, OwnState(d, d.receipts[id]), busy);
    case MarkFor(_) =>
      var src := d.receipts[id].rollbackOf;
      if src in d.receipts {
        assert src in start.receipts ==> UndoneAtHome(start, src);
        StateSpares(start, d, src, RolledBack, busy);
      }
  }

  lemma VisitSpares(start: Disk, d: Disk, id: Id, busy: set<Place>)
    requires AtHome(start) && Spared(start, d, busy)
    ensures forall k :: 0 <= k < |VisitDisks(d, id, busy)| ==> Spared(start, VisitDisks(d, id, busy)[k], busy)
    ensures Spared(start, After(d, VisitDisks(d, id, busy)), busy)
  {
    var fixes := Visit(d, id, busy);
    if fixes != [] {
      FixSpares(start, d, id, fixes[0], busy);
      if |fixes| == 2 {
        FixSpares(start, Apply(d, fixes[0]), id, fixes[1], busy);
      }
    }
  }

  lemma {:induction false} ScanStaysSpared(start: Disk, d: Disk, files: seq<Id>, busy: set<Place>)
    requires AtHome(start) && Spared(start, d, busy)
    ensures forall k :: 0 <= k < |Scan(d, files, busy)| ==> Spared(start, Scan(d, files, busy)[k], busy)
    decreases |files|
  {
    if files != [] {
      var disks := VisitDisks(d, files[0], busy);
      VisitSpares(start, d, files[0], busy);
      ScanStaysSpared(start, After(d, disks), files[1..], busy);
      forall k | 0 <= k < |Scan(d, files, busy)| ensures Spared(start, Scan(d, files, busy)[k], busy) {
        ScanAt(d, files, busy, k);
      }
    }
  }

  /**
   Defer, never mismark: as long as rollbacks undo writes of their own place, no disk a scan passes through
   has a receipt of a place locked by somebody else in any other state than before.
   */
  lemma ScanSparesBusy(d: Disk, files: seq<Id>, busy: set<Place>)
    requires AtHome(d) && WellNamed(d)
    ensures forall k :: 0 <= k < |Scan(d, files, busy)| ==> SparesBusy(d, Scan(d, files, busy)[k], busy)
    ensures Spared(d, After(d, Scan(d, files, busy)), busy)
  {
    ScanStaysSpared(d, d, files, busy);
  }

  lemma FixLeavesLater(d: Disk, id: Id, fix: Fix, other: Id)
    requires WellNamed(d) && Applicable(d, fix) && id != other && (id.RollbackId? ==> other.RollbackId?)
    requires fix == Restate(id) || fix == Judge(id) || fix == MarkFor(id)
    ensures var x := Apply(d, fix);
      && (other in x.receipts <==> other in d.receipts)
      && (other in d.receipts ==> x.receipts[other] == d.receipts[other])
  {
  }

  lemma VisitLeavesLater(d: Disk, id: Id, busy: set<Place>, other: Id)
    requires WellNamed(d) && id != other && (id.RollbackId? ==> other.RollbackId?)
    ensures var x := After(d, VisitDisks(d, id, busy));
      && x.targets == d.targets && x.backups == d.backups && WellNamed(x)
      && (other in x.receipts <==> other in d.receipts)
      && (other in d.receipts ==> x.receipts[other] == d.receipts[other])
  {
    var fixes := Visit(d, id, busy);
    if fixes != [] {
      var x := Apply(d, fixes[0]);
      FixKeepsFiles(d, fixes[0]);
      FixKeepsFinal(d, fixes[0]);
      FixLeavesLater(d, id, fixes[0], other);
      if |fixes| == 2 {
        FixKeepsFiles(x, fixes[1]);
        FixKeepsFinal(x, fixes[1]);
        FixLeavesLater(x, id, fixes[1], other);
      }
    }
  }

  /** Writes are visited before rollbacks, so each file is found as it was when the scan began. */
  lemma {:induction false} OutcomesFromStart(d: Disk, files: seq<Id>, busy: set<Place>, k: nat)
    requires WellNamed(d) && Ordered(files) && k < |files|
    ensures Outcomes(d, files, busy)[k] == OutcomeAt(d, files[k], busy)
    decreases |files|
  {
    if k > 0 {
      var x := After(d, VisitDisks(d, files[0], busy));
      VisitLeavesLater(d, files[0], busy, files[k]);
      OutcomesFromStart(x, files[1..], busy, k - 1);
      SameOutcome(d, x, files[k], busy);
    }
  }

  lemma SameOutcome(d: Disk, x: Disk, id: Id, busy: set<Place>)
    requires x.targets == d.targets && x.backups == d.backups && (id in x.receipts <==> id in d.receipts)
    requires id in d.receipts ==> x.receipts[id] == d.receipts[id]
    ensures OutcomeAt(x, id, busy) == OutcomeAt(d, id, busy)
  {
  }

  /** In which lists a file is, told from the bytes on disk before the scan. */
  ghost predicate Reported(d: Disk, id: Id, busy: set<Place>, recovered: bool, required: bool, deferred: bool) {
    if id !in d.receipts then !recovered && (required <==> id in d.damaged) && !deferred
    else
      var r := d.receipts[id];
      && (deferred <==> r.place in busy && Undecided(d, r))
      && (required <==> r.state == RecoveryRequired || (r.place !in busy && Failing(d, r)))
      && (recovered <==>
            || r.state == RecoveredUnapplied || r.state == RolledBack || r.state == Superseded
            || (r.place !in busy && r.state == Prepared && BorneOut(d, r)))
  }

  ghost predicate Reports(d: Disk, busy: set<Place>, recovered: seq<Id>, required: seq<Id>, deferred: seq<Id>) {
    forall id :: Reported(d, id, busy, id in recovered, id in required, id in deferred)
  }

  lemma OutcomeInBytes(d: Disk, id: Id, busy: set<Place>)
    requires WellNamed(d) && Known(d, id)
    ensures var o := OutcomeAt(d, id, busy);
      if id in d.damaged then o == AsRequired
      else
        var r := d.receipts[id];
        o == if r.state == RecoveryRequired then AsRequired
             else if r.place in busy && Undecided(d, r) then AsDeferred
             else if Failing(d, r) then AsRequired
             else if r.state == Verified || r.state == Applied then AsVerified
             else AsRecovered
  {
    if id in d.receipts && Interrupted(d.receipts[id]) { VerdictInBytes(d, d.receipts[id]); }
  }

  lemma PickedIff(d: Disk, files: seq<Id>, busy: set<Place>, id: Id, kind: Outcome)
    requires WellNamed(d) && Listing(d, files)
    ensures id in Pick(files, Outcomes(d, files, busy), kind) <==> Known(d, id) && OutcomeAt(d, id, busy) == kind
  {
    EachCountedOnce(d, files, busy);
    if Known(d, id) {
      var k :| 0 <= k < |files| && files[k] == id;
      OutcomesFromStart(d, files, busy, k);
    }
  }

  /** The lists of a scan are exactly these. */
  lemma ScanReports(d: Disk, files: seq<Id>, busy: set<Place>)
    requires WellNamed(d) && Listing(d, files)
    ensures var os := Outcomes(d, files, busy);
      Reports(d, busy, Pick(files, os, AsRecovered), Pick(files, os, AsRequired), Pick(files, os, AsDeferred))
  {
    var os := Outcomes(d, files, busy);
    forall id ensures Reported(d, id, busy, id in Pick(files, os, AsRecovered), id in Pick(files, os, AsRequired),
                               id in Pick(files, os, AsDeferred))
    {
      PickedIff(d, files, busy, id, AsRecovered);
      PickedIff(d, files, busy, id, AsRequired);
      PickedIff(d, files, busy, id, AsDeferred);
      if Known(d, id) { OutcomeInBytes(d, id, busy); }
    }
  }

  /** A receipt the scan is through with, whose rollbacks are at its own place, has its final state. */
  lemma ThroughIsFinalAt(d: Disk, x: Disk, busy: set<Place>, id: Id)
    requires AtHome(d) && Spared(d, x, busy) && FreeThrough(x, busy)
    requires id in d.receipts && id in x.receipts && x.receipts[id].place == d.receipts[id].place
    requires d.receipts[id].place !in busy
    ensures Final(x).receipts[id] == x.receipts[id]
  {
    var y := Revived(x);
    assert Known(x, id) && Through(x, id);
    SameEvidenceSameVerdict(x, y, x.receipts[id]);
    if Undone(y, id) {
      var rb :| rb in y.receipts && Completes(y, rb, id);
      assert rb in x.receipts && rb in d.receipts && UndoneAtHome(d, id);
      SameEvidenceSameVerdict(x, y, x.receipts[rb]);
      assert Known(x, rb) && Through(x, rb);
    }
  }

  lemma FixKeepsPlaces(d: Disk, fix: Fix, id: Id)
    requires Applicable(d, fix) && id in d.receipts && d.receipts.Keys !! d.damaged.Keys
    ensures id in Apply(d, fix).receipts && Apply(d, fix).receipts[id].place == d.receipts[id].place
  {
  }

  lemma VisitKeepsPlace(d: Disk, file: Id, busy: set<Place>, id: Id)
    requires WellNamed(d) && id in d.receipts
    ensures var x := After(d, VisitDisks(d, file, busy));
      WellNamed(x) && id in x.receipts && x.receipts[id].place == d.receipts[id].place
  {
    VisitOnTheWay(d, file, busy);
    var fixes := Visit(d, file, busy);
    if fixes != [] {
      FixKeepsPlaces(d, fixes[0], id);
      FixKeepsFinal(d, fixes[0]);
      if |fixes| == 2 { FixKeepsPlaces(Apply(d, fixes[0]), fixes[1], id); }
    }
  }

  lemma {:induction false} ScanKeepsPlaces(d: Disk, files: seq<Id>, busy: set<Place>, id: Id)
    requires WellNamed(d) && id in d.receipts
    ensures var x := After(d, Scan(d, files, busy)); id in x.receipts && x.receipts[id].place == d.receipts[id].place
    decreases |files|
  {
    if files != [] {
      var x := After(d, VisitDisks(d, files[0], busy));
      VisitKeepsPlace(d, files[0], busy, id);
      ScanKeepsPlaces(x, files[1..], busy, id);
      ScanSplits(d, files, busy);
    }
  }

  lemma ScanIsThrough(d: Disk, files: seq<Id>, busy: set<Place>)
    requires WellNamed(d) && Listing(d, files)
    ensures FreeThrough(After(d, Scan(d, files, busy)), busy)
  {
    ScanGetsThrough(d, files, {}, busy);
  }

  lemma ScanHeads(d: Disk, files: seq<Id>, busy: set<Place>)
    requires WellNamed(d)
    ensures Final(After(d, Scan(d, files, busy))) == Final(d)
  {
    var n := |Scan(d, files, busy)|;
    if n > 0 { RecoverRestartable(d, files, busy, n - 1); }
  }

  /** A scan beside live operations settles exactly the receipts of the places nobody works at. */
  lemma ScanSettlesFree(d: Disk, files: seq<Id>, busy: set<Place>, id: Id)
    requires WellNamed(d) && AtHome(d) && Listing(d, files) && id in d.receipts
    ensures var x := After(d, Scan(d, files, busy));
      && id in x.receipts && id in Final(d).receipts
      && x.receipts[id] == if d.receipts[id].place in busy then d.receipts[id] else Final(d).receipts[id]
  {
    ScanSparesBusy(d, files, busy);
    ScanKeepsPlaces(d, files, busy, id);
    if d.receipts[id].place !in busy {
      ScanIsThrough(d, files, busy);
      ThroughIsFinalAt(d, After(d, Scan(d, files, busy)), busy, id);
      ScanHeads(d, files, busy);
    }
  }

  /** The final state of a receipt, told from the bytes on disk. */
  lemma FinalInBytes(d: Disk, id: Id)
    requires WellNamed(d) && id in d.receipts
    ensures var r, st := d.receipts[id], Final(d).receipts[id].state;
      && Final(d).receipts[id] == WithState(r, st)
      && st == if exists rb :: Reverts(d, rb, id) then RolledBack
               else if r.state == RecoveryRequired || Failing(d, r) then RecoveryRequired
               else if r.state == Prepared then RecoveredUnapplied
               else if r.state == Applied then Verified
               else r.state
  {
    var y := Revived(d);
    OwnInBytes(d, y, d.receipts[id]);
    forall rb ensures Reverts(d, rb, id) <==> rb in y.receipts && Completes(y, rb, id) {
      if rb in d.receipts { OwnInBytes(d, y, d.receipts[rb]); }
    }
  }

  lemma OwnInBytes(d: Disk, y: Disk, r: Receipt)
    requires y.targets == d.targets && y.backups == d.backups
    ensures OwnState(y, r) ==
      if r.state == RecoveryRequired || Failing(d, r) then RecoveryRequired
      else if r.state == Prepared then RecoveredUnapplied
      else if r.state == Applied then Verified
      else r.state
  {
    if Incomplete(r.state) { VerdictInBytes(y, r); }
  }

  /** A receipt file that lacks only its state ends as a blocking receipt, unless its rollback is complete. */
  lemma RevivedBlocks(d: Disk, id: Id)
    requires WellNamed(d) && id in d.damaged && d.damaged[id].Some?
    ensures id in Final(d).receipts && id !in Final(d).damaged
    ensures Final(d).receipts[id] ==
      WithState(d.damaged[id].value, if exists rb :: Reverts(d, rb, id) then RolledBack else RecoveryRequired)
  {
    var y := Revived(d);
    forall rb ensures Reverts(d, rb, id) <==> rb in y.receipts && Completes(y, rb, id) {
      if rb in d.receipts { OwnInBytes(d, y, d.receipts[rb]); }
    }
  }

  /** The receipts of the places nobody works at have their final state, the others are as they were. */
  ghost predicate Settled(d: Disk, x: Disk, busy: set<Place>) {
    forall id :: id in d.receipts ==>
      && id in x.receipts && id in Final(d).receipts
      && x.receipts[id] == if d.receipts[id].place in busy then d.receipts[id] else Final(d).receipts[id]
  }

  lemma ScanTold(d: Disk, files: seq<Id>, busy: set<Place>)
    requires WellNamed(d) && Listing(d, files)
    ensures var os := Outcomes(d, files, busy);
      Reports(d, busy, Pick(files, os, AsRecovered), Pick(files, os, AsRequired), Pick(files, os, AsDeferred))
    ensures AllMarked(d, After(d, Scan(d, files, busy)))
    ensures AtHome(d) ==>
      && Settled(d, After(d, Scan(d, files, busy)), busy)
      && forall k :: 0 <= k < |Scan(d, files, busy)| ==> SparesBusy(d, Scan(d, files, busy)[k], busy)
  {
    ScanReports(d, files, busy);
    ScanMarksAll(d, files, busy);
    if AtHome(d) {
      ScanSparesBusy(d, files, busy);
      forall id | id in d.receipts { ScanSettlesFree(d, files, busy, id); }
    }
  }

  /** What becomes of a file that fails validation: beyond repair it stays, else it is marked as blocking. */
  ghost predicate Marking(d: Disk, x: Disk, id: Id)
    requires id in d.damaged
  {
    || (id in x.damaged && x.damaged[id] == d.damaged[id])
    || (&& id !in x.damaged && d.damaged[id].Some? && id in x.receipts
        && (x.receipts[id] == WithState(d.damaged[id].value, RecoveryRequired)
            || x.receipts[id] == WithState(d.damaged[id].value, RolledBack)))
  }

  lemma FixMarks(d: Disk, x: Disk, fix: Fix, id: Id)
    requires id in d.damaged && Marking(d, x, id) && Applicable(x, fix) && x.receipts.Keys !! x.damaged.Keys
    ensures Marking(d, Apply(x, fix), id)
  {
  }

  lemma VisitMarks(d: Disk, x: Disk, file: Id, busy: set<Place>, id: Id)
    requires WellNamed(x) && id in d.damaged && Marking(d, x, id)
    ensures Marking(d, After(x, VisitDisks(x, file, busy)), id)
  {
    var fixes := Visit(x, file, busy);
    if fixes != [] {
      FixMarks(d, x, fixes[0], id);
      FixKeepsFinal(x, fixes[0]);
      if |fixes| == 2 { FixMarks(d, Apply(x, fixes[0]), fixes[1], id); }
    }
  }

  lemma {:induction false} ScanMarks(d: Disk, x: Disk, files: seq<Id>, busy: set<Place>, id: Id)
    requires WellNamed(x) && id in d.damaged && Marking(d, x, id)
    ensures Marking(d, After(x, Scan(x, files, busy)), id)
    decreases |files|
  {
    if files != [] {
      VisitMarks(d, x, files[0], busy, id);
      VisitOnTheWay(x, files[0], busy);
      ScanMarks(d, After(x, VisitDisks(x, files[0], busy)), files[1..], busy, id);
      ScanSplits(x, files, busy);
    }
  }

  /** Whatever is locked, a scan leaves no file that only lacks its state unmarked. */
  ghost predicate AllMarked(d: Disk, x: Disk) {
    forall id :: id in d.damaged ==> Marking(d, x, id) && (id in x.damaged <==> d.damaged[id].None?)
  }

  lemma ScanMarksAll(d: Disk, files: seq<Id>, busy: set<Place>)
    requires WellNamed(d) && Listing(d, files)
    ensures AllMarked(d, After(d, Scan(d, files, busy)))
  {
    var x := After(d, Scan(d, files, busy));
    ScanIsThrough(d, files, busy);
    forall id | id in d.damaged ensures Marking(d, x, id) && (id in x.damaged <==> d.damaged[id].None?) {
      ScanMarks(d, d, files, busy, id);
      ScanNamed(d, files, busy);
      if id in x.damaged { assert Known(x, id) && Through(x, id); }
    }
  }

  lemma ScanNamed(d: Disk, files: seq<Id>, busy: set<Place>)
    requires WellNamed(d)
    ensures WellNamed(After(d, Scan(d, files, busy)))
  {
    var n := |Scan(d, files, busy)|;
    if n > 0 { RecoverRestartable(d, files, busy, n - 1); }
  }
}
