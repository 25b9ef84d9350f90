/**
 Restart recovery of a whole store: one scan over every receipt file, its durable writes one by
 one, and what it leaves however often it is interrupted and rerun.
 */
module Recovery {
  import opened Wrappers
  import opened Journal

  /** File names tell the kind of receipt, rollbacks undo writes, and no file is both valid and damaged. */
  ghost predicate WellNamed(d: Disk) {
    && (forall id :: id in d.receipts ==> NamedFor(id, d.receipts[id]))
    && (forall id :: id in d.damaged && d.damaged[id].Some? ==> NamedFor(id, d.damaged[id].value))
    && d.receipts.Keys !! d.damaged.Keys
  }

  predicate NamedFor(id: Id, r: Receipt) {
    id.RecoveryId? == r.FsWrite? && (r.Rollback? ==> r.rollbackOf.RecoveryId?)
  }

  /** The verdict on a receipt by itself. */
  function OwnState(d: Disk, r: Receipt): TxState {
    if Incomplete(r.state) then Reconciled(d, r)
    else if r.FsWrite? && r.state == Verified && !BackupOk(d, r) then RecoveryRequired
    else r.state
  }

  /** Some rollback of the write is, or can be declared, complete. */
  predicate Undone(d: Disk, src: Id) {
    exists rb :: rb in d.receipts && Completes(d, rb, src)
  }

  predicate Completes(d: Disk, rb: Id, src: Id)
    requires rb in d.receipts
  {
    d.receipts[rb].Rollback? && d.receipts[rb].rollbackOf == src && OwnState(d, d.receipts[rb]) == Verified
  }

  function FinalState(d: Disk, id: Id): TxState
    requires id in d.receipts
  {
    if Undone(d, id) then RolledBack else OwnState(d, d.receipts[id])
  }

  /** A receipt file that only lacks its state becomes a blocking receipt; the others stay damaged. */
  function Revive(d: Disk, id: Id): Disk {
    if id in d.damaged && d.damaged[id].Some? then
      d.(damaged := d.damaged - {id}, receipts := d.receipts[id := d.damaged[id].value.(state := RecoveryRequired)])
    else d
  }

  function Revived(d: Disk): Disk {
    var whole := set id | id in d.damaged && d.damaged[id].Some?;
    d.(damaged := d.damaged - whole,
       receipts := map id | id in d.receipts.Keys + whole ::
         if id in d.receipts then d.receipts[id] else d.damaged[id].value.(state := RecoveryRequired))
  }

  /** The journal a completed recovery leaves; files and backups are untouched. */
  function Final(d: Disk): Disk {
    var d1 := Revived(d);
    d1.(receipts := map id | id in d1.receipts :: d1.receipts[id].(state := FinalState(d1, id)))
  }

  /** Whether the scan takes the lock of the receipt's target at all. */
  predicate MayWrite(d: Disk, r: Receipt) {
    Incomplete(r.state) || (r.state == Verified && (r.Rollback? || !BackupOk(d, r)))
  }

  /** A directory listing: write receipts first, then rollback receipts, each file once. */
  ghost predicate Listing(d: Disk, files: seq<Id>) {
    (forall id :: id in files <==> Known(d, id)) && Ordered(files)
  }

  ghost predicate Ordered(files: seq<Id>) {
    && (forall i, j :: 0 <= i < j < |files| ==> files[i] != files[j])
    && (forall i, j :: 0 <= i < j < |files| && files[i].RollbackId? ==> files[j].RollbackId?)
  }

  lemma OwnStateFixed(d: Disk, r: Receipt)
    ensures OwnState(d, r.(state := OwnState(d, r))) == OwnState(d, r) && !Incomplete(OwnState(d, r))
  {
  }

  lemma SameEvidenceSameVerdict(d: Disk, x: Disk, r: Receipt)
    requires x.targets == d.targets && x.backups == d.backups
    ensures OwnState(x, r) == OwnState(d, r)
  {
  }

  /** One durable write of a recovery. */
  datatype Fix = Restate(id: Id) | Judge(id: Id) | MarkFor(rb: Id)

  predicate Applicable(d: Disk, fix: Fix) {
    match fix
    case Restate(id) => id in d.damaged
    case Judge(id) => id in d.receipts
    case MarkFor(rb) => rb in d.receipts && d.receipts[rb].Rollback? && d.receipts[rb].state == Verified
  }

  function Apply(d: Disk, fix: Fix): Disk
    requires Applicable(d, fix)
  {
    match fix
    case Restate(id) => Revive(d, id)
    case Judge(id) => SetState(d, id, OwnState(d, d.receipts[id]))
    case MarkFor(rb) => MarkSource(d, d.receipts[rb].rollbackOf)
  }

  lemma ReviveKeepsFinal(d: Disk, id: Id)
    requires WellNamed(d)
    ensures WellNamed(Revive(d, id)) && Final(Revive(d, id)) == Final(d)
  {
    if id in d.damaged && d.damaged[id].Some? {
      RevivesOnce(d, id);
    }
  }

  lemma RevivesOnce(d: Disk, id: Id)
    requires WellNamed(d) && id in d.damaged && d.damaged[id].Some?
    ensures Revived(Revive(d, id)) == Revived(d)
  {
    var x := Revive(d, id);
    assert Revived(x).receipts == Revived(d).receipts;
    assert Revived(x).damaged == Revived(d).damaged;
  }

  /** Receipts that agree but for states already reached have the same final journal. */
  lemma SameFinal(d: Disk, x: Disk)
    requires x.targets == d.targets && x.backups == d.backups && x.damaged == d.damaged == Revived(d).damaged
    requires Revived(d) == d && Revived(x) == x && x.receipts.Keys == d.receipts.Keys
    requires forall id :: id in d.receipts ==> x.receipts[id] == d.receipts[id].(state := x.receipts[id].state)
    requires forall id :: id in d.receipts ==> FinalState(x, id) == FinalState(d, id)
    ensures Final(x) == Final(d)
  {
    assert Final(x).receipts == Final(d).receipts;
  }

  lemma OwnKeepsFinalState(d: Disk, id: Id, j: Id)
    requires id in d.receipts && j in d.receipts
    ensures var x := SetState(d, id, OwnState(d, d.receipts[id]));
      OwnState(x, x.receipts[j]) == OwnState(d, d.receipts[j]) && FinalState(x, j) == FinalState(d, j)
  {
    var x := SetState(d, id, OwnState(d, d.receipts[id]));
    forall k | k in d.receipts ensures OwnState(x, x.receipts[k]) == OwnState(d, d.receipts[k]) {
      if k == id { OwnStateFixed(d, d.receipts[id]); }
      SameEvidenceSameVerdict(d, x, x.receipts[k]);
    }
    assert forall rb :: rb in d.receipts ==> Completes(x, rb, j) == Completes(d, rb, j);
    assert Undone(x, j) == Undone(d, j);
  }

  lemma MarkKeepsFinalState(d: Disk, rb: Id, src: Id, j: Id)
    requires WellNamed(d) && rb in d.receipts && src in d.receipts && j in d.receipts && Completes(d, rb, src)
    ensures FinalState(SetState(d, src, RolledBack), j) == FinalState(d, j)
  {
    var x := SetState(d, src, RolledBack);
    forall k | k in d.receipts ensures forall t :: Completes(x, k, t) == Completes(d, k, t) {
      SameEvidenceSameVerdict(d, x, x.receipts[k]);
    }
    assert Completes(x, rb, src);
    SameEvidenceSameVerdict(d, x, x.receipts[j]);
    assert Undone(x, j) == Undone(d, j);
  }

  /** Setting states commutes with reviving. */
  lemma ReviveCommutes(d: Disk, id: Id, st: TxState)
    requires WellNamed(d) && id in d.receipts
    ensures Revived(SetState(d, id, st)) == SetState(Revived(d), id, st)
    ensures Revived(d).receipts[id] == d.receipts[id]
  {
    assert Revived(SetState(d, id, st)).receipts == SetState(Revived(d), id, st).receipts;
  }

  lemma FinalOfRevived(d: Disk)
    requires WellNamed(d)
    ensures Final(Revived(d)) == Final(d) && Revived(Revived(d)) == Revived(d) && WellNamed(Revived(d))
  {
    assert Revived(Revived(d)).receipts == Revived(d).receipts;
    assert Revived(Revived(d)).damaged == Revived(d).damaged;
  }

  /** What recovery may set a receipt to: its own verdict, or ROLLED_BACK once its rollback is complete. */
  ghost predicate Due(d: Disk, id: Id, st: TxState)
    requires id in d.receipts
  {
    st == OwnState(d, d.receipts[id]) || (st == RolledBack && Undone(d, id))
  }

  lemma DueKeepsFinalState(d: Disk, id: Id, st: TxState, j: Id)
    requires WellNamed(d) && id in d.receipts && j in d.receipts && Due(d, id, st)
    ensures FinalState(SetState(d, id, st), j) == FinalState(d, j)
  {
    if st == OwnState(d, d.receipts[id]) {
      OwnKeepsFinalState(d, id, j);
    } else {
      var rb :| rb in d.receipts && Completes(d, rb, id);
      MarkKeepsFinalState(d, rb, id, j);
    }
  }

  lemma DueInRevived(d: Disk, id: Id, st: TxState)
    requires WellNamed(d) && id in d.receipts && Due(d, id, st)
    ensures Due(Revived(d), id, st)
  {
    var d1 := Revived(d);
    SameEvidenceSameVerdict(d, d1, d.receipts[id]);
    if st != OwnState(d, d.receipts[id]) {
      var rb :| rb in d.receipts && Completes(d, rb, id);
      SameEvidenceSameVerdict(d, d1, d.receipts[rb]);
      assert Completes(d1, rb, id);
    }
  }

  lemma SetStateKeepsFinalRevived(d: Disk, id: Id, st: TxState)
    requires WellNamed(d) && Revived(d) == d && id in d.receipts && Due(d, id, st)
    ensures Final(SetState(d, id, st)) == Final(d)
  {
    var x := SetState(d, id, st);
    ReviveCommutes(d, id, st);
    forall j | j in d.receipts ensures FinalState(x, j) == FinalState(d, j) {
      DueKeepsFinalState(d, id, st, j);
    }
    SameFinal(d, x);
  }

  lemma SetStateKeepsFinal(d: Disk, id: Id, st: TxState)
    requires WellNamed(d) && id in d.receipts && Due(d, id, st)
    ensures WellNamed(SetState(d, id, st)) && Final(SetState(d, id, st)) == Final(d)
  {
    DueInRevived(d, id, st);
    FinalOfRevived(d);
    assert id in Revived(d).receipts;
    SetStateKeepsFinalRevived(Revived(d), id, st);
    ReviveCommutes(d, id, st);
    StaysNamed(d, id, st);
    FinalOfRevived(SetState(d, id, st));
  }

  lemma StaysNamed(d: Disk, id: Id, st: TxState)
    requires WellNamed(d) && id in d.receipts
    ensures WellNamed(SetState(d, id, st))
  {
  }

  predicate Known(d: Disk, id: Id) {
    id in d.receipts || id in d.damaged
  }

  lemma FixKeepsFiles(d: Disk, fix: Fix)
    requires Applicable(d, fix)
    ensures Apply(d, fix).targets == d.targets && Apply(d, fix).backups == d.backups
    ensures forall j :: Known(Apply(d, fix), j) <==> Known(d, j)
  {
  }

  /** However far a recovery got, the journal it is heading for is the same. */
  lemma FixKeepsFinal(d: Disk, fix: Fix)
    requires WellNamed(d) && Applicable(d, fix)
    ensures WellNamed(Apply(d, fix)) && Final(Apply(d, fix)) == Final(d)
  {
    match fix
    case Restate(id) => ReviveKeepsFinal(d, id);
    case Judge(id) => SetStateKeepsFinal(d, id, OwnState(d, d.receipts[id]));
    case MarkFor(rb) => MarkSourceKeepsFinal(d, rb);
  }

  lemma MarkSourceKeepsFinal(d: Disk, rb: Id)
    requires WellNamed(d) && rb in d.receipts && d.receipts[rb].Rollback? && d.receipts[rb].state == Verified
    ensures var x := MarkSource(d, d.receipts[rb].rollbackOf);
      WellNamed(x) && Final(x) == Final(d)
  {
    var src := d.receipts[rb].rollbackOf;
    if src in d.receipts {
      assert Completes(d, rb, src);
      SetStateKeepsFinal(d, src, RolledBack);
    }
  }

  /** The writes recovery makes for one file; a target locked by somebody else is deferred. */
  function Visit(d: Disk, id: Id, busy: set<Place>): seq<Fix> {
    if id in d.damaged then
      if d.damaged[id].Some? then [Restate(id)] else []
    else if id !in d.receipts then []
    else
      var r := d.receipts[id];
      if !MayWrite(d, r) || r.place in busy then []
      else if r.Rollback? && OwnState(d, r) == Verified then [Judge(id), MarkFor(id)]
      else [Judge(id)]
  }

  function After(d: Disk, disks: seq<Disk>): Disk {
    if disks == [] then d else disks[|disks| - 1]
  }

  function VisitDisks(d: Disk, id: Id, busy: set<Place>): seq<Disk> {
    var fixes := Visit(d, id, busy);
    if fixes == [] then []
    else
      var x := Apply(d, fixes[0]);
      if |fixes| == 1 then [x] else [x, Apply(x, fixes[1])]
  }

  /** Every disk a scan over `files` passes through, one per durable write. */
  function Scan(d: Disk, files: seq<Id>, busy: set<Place>): seq<Disk>
    decreases |files|
  {
    if files == [] then []
    else
      var disks := VisitDisks(d, files[0], busy);
      disks + Scan(After(d, disks), files[1..], busy)
  }

  lemma VisitKeepsFinal(d: Disk, id: Id, busy: set<Place>, k: nat)
    requires WellNamed(d) && k < |VisitDisks(d, id, busy)|
    ensures var x := VisitDisks(d, id, busy)[k];
      WellNamed(x) && Final(x) == Final(d) && forall j :: Known(x, j) <==> Known(d, j)
  {
    var fixes := Visit(d, id, busy);
    FixKeepsFinal(d, fixes[0]);
    FixKeepsFiles(d, fixes[0]);
    if k == 1 {
      FixKeepsFinal(Apply(d, fixes[0]), fixes[1]);
      FixKeepsFiles(Apply(d, fixes[0]), fixes[1]);
    }
  }

  /** A point of recovery from `d`: the same files, heading for the same journal. */
  ghost predicate OnTheWay(d: Disk, x: Disk) {
    WellNamed(x) && Final(x) == Final(d) && forall j :: Known(x, j) <==> Known(d, j)
  }

  lemma OnTheWayStill(d: Disk, x: Disk, y: Disk)
    requires OnTheWay(d, x) && OnTheWay(x, y)
    ensures OnTheWay(d, y)
  {
  }

  lemma ScanAt(d: Disk, files: seq<Id>, busy: set<Place>, k: nat)
    requires files != [] && k < |Scan(d, files, busy)|
    ensures var disks := VisitDisks(d, files[0], busy);
      var rest := Scan(After(d, disks), files[1..], busy);
      if k < |disks| then Scan(d, files, busy)[k] == disks[k]
      else k - |disks| < |rest| && Scan(d, files, busy)[k] == rest[k - |disks|]
  {
    assert Scan(d, files, busy) ==
      VisitDisks(d, files[0], busy) + Scan(After(d, VisitDisks(d, files[0], busy)), files[1..], busy);
  }

  lemma VisitOnTheWay(d: Disk, id: Id, busy: set<Place>)
    requires WellNamed(d)
    ensures OnTheWay(d, After(d, VisitDisks(d, id, busy)))
  {
    var disks := VisitDisks(d, id, busy);
    if disks != [] { VisitKeepsFinal(d, id, busy, |disks| - 1); }
  }

  /**
   Restartable: after any prefix of a recovery's writes, whatever it had to defer, the journal that
   remains has the same files and the same final state as the one it started from.
   */
  lemma {:induction false} RecoverRestartable(d: Disk, files: seq<Id>, busy: set<Place>, k: nat)
    requires WellNamed(d) && k < |Scan(d, files, busy)|
    ensures OnTheWay(d, Scan(d, files, busy)[k])
    decreases |files|
  {
    var disks := VisitDisks(d, files[0], busy);
    ScanAt(d, files, busy, k);
    if k < |disks| {
      VisitKeepsFinal(d, files[0], busy, k);
    } else {
      VisitOnTheWay(d, files[0], busy);
      RecoverRestartable(After(d, disks), files[1..], busy, k - |disks|);
      OnTheWayStill(d, After(d, disks), Scan(d, files, busy)[k]);
    }
  }

  /** A file the scan is through with: nothing is left to write for it. */
  ghost predicate Through(d: Disk, id: Id) {
    && (id in d.damaged ==> d.damaged[id].None?)
    && (id in d.receipts ==>
          && d.receipts[id].state == OwnState(d, d.receipts[id])
          && (d.receipts[id].Rollback? && d.receipts[id].state == Verified && d.receipts[id].rollbackOf in d.receipts
              ==> d.receipts[d.receipts[id].rollbackOf].state == RolledBack))
  }

  ghost predicate AllThrough(d: Disk) {
    forall id :: Known(d, id) ==> Through(d, id)
  }

  ghost predicate FreeThrough(d: Disk, busy: set<Place>) {
    forall id :: Known(d, id) && Free(d, id, busy) ==> Through(d, id)
  }

  /** Fixing a receipt undoes nothing that was through, as long as writes are visited before rollbacks. */
  lemma FixKeepsThrough(d: Disk, fix: Fix, j: Id)
    requires WellNamed(d) && Applicable(d, fix) && Through(d, j)
    requires fix.Restate? && fix.id.RecoveryId? ==> j.RecoveryId?
    ensures Through(Apply(d, fix), j)
  {
    FixKeepsFiles(d, fix);
    var x := Apply(d, fix);
    if j in x.receipts {
      SameEvidenceSameVerdict(d, x, x.receipts[j]);
    }
  }

  lemma JudgedIsThrough(d: Disk, id: Id, busy: set<Place>)
    requires WellNamed(d) && |Visit(d, id, busy)| == 1
    ensures Through(Apply(d, Visit(d, id, busy)[0]), id)
  {
    var x := Apply(d, Visit(d, id, busy)[0]);
    FixKeepsFiles(d, Visit(d, id, busy)[0]);
    if id in d.receipts {
      OwnStateFixed(d, d.receipts[id]);
      SameEvidenceSameVerdict(d, x, x.receipts[id]);
    }
  }

  lemma MarkedIsThrough(d: Disk, id: Id, busy: set<Place>)
    requires WellNamed(d) && |Visit(d, id, busy)| == 2
    ensures var x := Apply(d, Visit(d, id, busy)[0]);
      Applicable(x, Visit(d, id, busy)[1]) && Through(Apply(x, Visit(d, id, busy)[1]), id)
  {
    var x := Apply(d, Visit(d, id, busy)[0]);
    OwnStateFixed(d, d.receipts[id]);
    SameEvidenceSameVerdict(d, x, x.receipts[id]);
    var y := Apply(x, Visit(d, id, busy)[1]);
    SameEvidenceSameVerdict(x, y, y.receipts[id]);
  }

  lemma VisitKeepsThrough(d: Disk, id: Id, busy: set<Place>, j: Id)
    requires WellNamed(d) && Through(d, j) && (id.RecoveryId? ==> j.RecoveryId?)
    ensures Through(After(d, VisitDisks(d, id, busy)), j)
  {
    var fixes := Visit(d, id, busy);
    if fixes != [] {
      var x := Apply(d, fixes[0]);
      FixKeepsFinal(d, fixes[0]);
      FixKeepsThrough(d, fixes[0], j);
      if |fixes| == 2 { FixKeepsThrough(x, fixes[1], j); }
    }
  }

  /** The target of the receipt, if it is one, is not locked by somebody else. */
  predicate Free(d: Disk, id: Id, busy: set<Place>) {
    id in d.receipts ==> d.receipts[id].place !in busy
  }

  lemma VisitGetsThrough(d: Disk, id: Id, busy: set<Place>)
    requires WellNamed(d) && Free(d, id, busy)
    ensures Through(After(d, VisitDisks(d, id, busy)), id)
  {
    var fixes := Visit(d, id, busy);
    if |fixes| == 1 {
      JudgedIsThrough(d, id, busy);
    } else if |fixes| == 2 {
      MarkedIsThrough(d, id, busy);
    }
  }

  /** A scan under way: `seen` is dealt with, `files` are left, and writes come before rollbacks. */
  ghost predicate Midway(d: Disk, files: seq<Id>, seen: set<Id>, busy: set<Place>) {
    && WellNamed(d)
    && (forall id :: id in seen && Free(d, id, busy) ==> Through(d, id))
    && (forall id :: Known(d, id) ==> id in seen || id in files)
    && (forall i :: 0 <= i < |files| && files[i].RecoveryId? ==> forall id :: id in seen ==> id.RecoveryId?)
    && (forall i, j :: 0 <= i < j < |files| && files[i].RollbackId? ==> files[j].RollbackId?)
  }

  lemma VisitKeepsFree(d: Disk, id: Id, busy: set<Place>, j: Id)
    requires WellNamed(d) && j != id && Free(After(d, VisitDisks(d, id, busy)), j, busy)
    ensures Free(d, j, busy)
  {
  }

  lemma ScanAdvances(d: Disk, files: seq<Id>, seen: set<Id>, busy: set<Place>)
    requires Midway(d, files, seen, busy) && files != []
    ensures Midway(After(d, VisitDisks(d, files[0], busy)), files[1..], seen + {files[0]}, busy)
  {
    var id := files[0];
    var x := After(d, VisitDisks(d, id, busy));
    VisitOnTheWay(d, id, busy);
    forall j | j in seen + {id} && Free(x, j, busy) ensures Through(x, j) {
      if j == id {
        if Free(d, id, busy) { VisitGetsThrough(d, id, busy); }
      } else {
        VisitKeepsFree(d, id, busy, j);
        VisitKeepsThrough(d, id, busy, j);
      }
    }
  }

  lemma {:induction false} ScanGetsThrough(d: Disk, files: seq<Id>, seen: set<Id>, busy: set<Place>)
    requires Midway(d, files, seen, busy)
    ensures FreeThrough(After(d, Scan(d, files, busy)), busy)
    decreases |files|
  {
    if files != [] {
      ScanAdvances(d, files, seen, busy);
      ScanGetsThrough(After(d, VisitDisks(d, files[0], busy)), files[1..], seen + {files[0]}, busy);
      ScanSplits(d, files, busy);
    }
  }

  lemma AfterBoth(d: Disk, some: seq<Disk>, more: seq<Disk>)
    ensures After(d, some + more) == After(After(d, some), more)
  {
    if more == [] { assert some + more == some; }
  }

  lemma ScanSplits(d: Disk, files: seq<Id>, busy: set<Place>)
    requires files != []
    ensures var x := After(d, VisitDisks(d, files[0], busy));
      After(d, Scan(d, files, busy)) == After(x, Scan(x, files[1..], busy))
  {
    var x := After(d, VisitDisks(d, files[0], busy));
    AfterBoth(d, VisitDisks(d, files[0], busy), Scan(x, files[1..], busy));
  }

  lemma ThroughState(d: Disk, id: Id)
    requires AllThrough(d) && id in d.receipts
    ensures d.receipts[id].state == FinalState(d, id)
  {
    assert Known(d, id) && Through(d, id);
    if Undone(d, id) {
      var rb :| rb in d.receipts && Completes(d, rb, id);
      assert Known(d, rb) && Through(d, rb);
    }
  }

  /** A journal recovery is through with is final. */
  lemma ThroughIsFinal(d: Disk)
    requires WellNamed(d) && AllThrough(d)
    ensures Final(d) == d
  {
    forall id | id in d.damaged ensures d.damaged[id].None? {
      assert Known(d, id);
    }
    assert Revived(d).receipts == d.receipts && Revived(d).damaged == d.damaged;
    forall id | id in d.receipts ensures d.receipts[id].state == FinalState(d, id) { ThroughState(d, id); }
    assert Final(d).receipts == d.receipts;
  }

  /**
   A full scan leaves exactly the final journal, in whatever order the listing gives the files of
   each kind; nothing stays PREPARED or APPLIED, and no file or backup is touched.
   */
  lemma {:induction false} RecoverReachesFinal(d: Disk, files: seq<Id>)
    requires WellNamed(d) && Listing(d, files)
    ensures After(d, Scan(d, files, {})) == Final(d)
    ensures Final(d).targets == d.targets && Final(d).backups == d.backups
    ensures forall id :: id in Final(d).receipts ==> !Incomplete(Final(d).receipts[id].state)
  {
    var disks := Scan(d, files, {});
    ScanGetsThrough(d, files, {}, {});
    if disks != [] { RecoverRestartable(d, files, {}, |disks| - 1); }
    ThroughIsFinal(After(d, disks));
    forall id | id in Final(d).receipts ensures !Incomplete(Final(d).receipts[id].state) {
      assert Known(After(d, disks), id) && Through(After(d, disks), id);
      OwnStateFixed(After(d, disks), Final(d).receipts[id]);
    }
  }

  lemma PrefixOnTheWay(d: Disk, files: seq<Id>, busy: set<Place>, k: nat)
    requires WellNamed(d) && k <= |Scan(d, files, busy)|
    ensures OnTheWay(d, After(d, Scan(d, files, busy)[..k]))
  {
    AfterPrefix(d, Scan(d, files, busy), k);
    if k > 0 { RecoverRestartable(d, files, busy, k - 1); }
  }

  lemma AfterPrefix(d: Disk, disks: seq<Disk>, k: nat)
    requires k <= |disks|
    ensures After(d, disks[..k]) == if k == 0 then d else disks[k - 1]
  {
  }

  /**
   Idempotent: interrupt a recovery after any of its writes and run a full one, or run two full
   ones in a row, over any listings: the result is that of a single uninterrupted run.
   */
  lemma {:induction false} RecoverIdempotent(d: Disk, files: seq<Id>, busy: set<Place>, k: nat, again: seq<Id>)
    requires WellNamed(d) && Listing(d, files)
    requires k <= |Scan(d, files, busy)|
    requires Listing(After(d, Scan(d, files, busy)[..k]), again)
    ensures var x := After(d, Scan(d, files, busy)[..k]);
      After(x, Scan(x, again, {})) == After(d, Scan(d, files, {}))
  {
    PrefixOnTheWay(d, files, busy, k);
    RecoverReachesFinal(d, files);
    RecoverReachesFinal(After(d, Scan(d, files, busy)[..k]), again);
  }

  /** How a file is reported. */
  datatype Outcome = AsRecovered | AsRequired | AsDeferred | AsVerified

  function OutcomeAt(d: Disk, id: Id, busy: set<Place>): Outcome {
    if id !in d.receipts then AsRequired
    else
      var r := d.receipts[id];
      if MayWrite(d, r) && r.place in busy then AsDeferred
      else match OwnState(d, r)
        case RecoveryRequired => AsRequired
        case Verified => AsVerified
        case _ => AsRecovered
  }

  /** The outcome of each file, at the moment the scan came to it. */
  function Outcomes(d: Disk, files: seq<Id>, busy: set<Place>): (os: seq<Outcome>)
    ensures |os| == |files|
    decreases |files|
  {
    if files == [] then []
    else [OutcomeAt(d, files[0], busy)] + Outcomes(After(d, VisitDisks(d, files[0], busy)), files[1..], busy)
  }

  function Pick(files: seq<Id>, os: seq<Outcome>, kind: Outcome): seq<Id>
    requires |files| == |os|
  {
    if files == [] then []
    else
      var n := |files| - 1;
      Pick(files[..n], os[..n], kind) + if os[n] == kind then [files[n]] else []
  }

  lemma {:induction false} PickHas(files: seq<Id>, os: seq<Outcome>, kind: Outcome, k: nat)
    requires |files| == |os| && k < |files| && os[k] == kind
    ensures files[k] in Pick(files, os, kind)
  {
    var n := |files| - 1;
    if k < n { PickHas(files[..n], os[..n], kind, k); }
  }

  lemma {:induction false} PicksAddUp(files: seq<Id>, os: seq<Outcome>)
    requires |files| == |os|
    ensures |Pick(files, os, AsRecovered)| + |Pick(files, os, AsRequired)| + |Pick(files, os, AsDeferred)|
            + |Pick(files, os, AsVerified)| == |files|
  {
    if files != [] {
      PicksAddUp(files[..|files| - 1], os[..|files| - 1]);
    }
  }

  lemma {:induction false} PickedAt(files: seq<Id>, os: seq<Outcome>, kind: Outcome, id: Id) returns (k: nat)
    requires |files| == |os| && id in Pick(files, os, kind)
    ensures k < |files| && files[k] == id && os[k] == kind
  {
    var n := |files| - 1;
    if os[n] == kind && files[n] == id {
      k := n;
    } else {
      k := PickedAt(files[..n], os[..n], kind, id);
    }
  }

  /**
   What the scan reports adds up: each file of the listing is in the list of exactly one outcome, the one
   it had when the scan came to it, and nothing else is in any.
   */
  lemma {:induction false} EachCountedOnce(d: Disk, files: seq<Id>, busy: set<Place>)
    requires Listing(d, files)
    ensures var os := Outcomes(d, files, busy);
      && |Pick(files, os, AsRecovered)| + |Pick(files, os, AsRequired)| + |Pick(files, os, AsDeferred)|
         + |Pick(files, os, AsVerified)| == |files|
      && (forall k, kind :: 0 <= k < |files| ==> (files[k] in Pick(files, os, kind) <==> os[k] == kind))
      && forall id, kind :: id in Pick(files, os, kind) ==> Known(d, id)
  {
    var os := Outcomes(d, files, busy);
    PicksAddUp(files, os);
    forall k, kind | 0 <= k < |files| ensures files[k] in Pick(files, os, kind) <==> os[k] == kind {
      if os[k] == kind { PickHas(files, os, kind, k); }
      if files[k] in Pick(files, os, kind) { var j := PickedAt(files, os, kind, files[k]); }
    }
    forall id, kind | id in Pick(files, os, kind) ensures Known(d, id) {
      var j := PickedAt(files, os, kind, id);
    }
  }

  /** What is blocking or damaged in the end was reported when the scan came to it. */
  lemma {:induction false} OutcomeOfBlocked(d: Disk, files: seq<Id>, k: nat)
    requires WellNamed(d) && k < |files|
    requires files[k] in Final(d).damaged
          || (files[k] in Final(d).receipts && Final(d).receipts[files[k]].state == RecoveryRequired)
    ensures Outcomes(d, files, {})[k] == AsRequired
    decreases |files|
  {
    var disks := VisitDisks(d, files[0], {});
    if k == 0 {
      if files[0] in d.receipts { BlockedIsOwn(d, files[0]); }
    } else {
      if disks != [] { VisitKeepsFinal(d, files[0], {}, |disks| - 1); }
      OutcomeOfBlocked(After(d, disks), files[1..], k - 1);
    }
  }

  lemma BlockedIsOwn(d: Disk, id: Id)
    requires WellNamed(d) && id in d.receipts
    requires id in Final(d).receipts && Final(d).receipts[id].state == RecoveryRequired
    ensures OwnState(d, d.receipts[id]) == RecoveryRequired
  {
    SameEvidenceSameVerdict(d, Revived(d), d.receipts[id]);
  }

  /**
   An empty list of required files is the all clear: after such a recovery no receipt of any place
   is blocking, none is damaged, and nothing is left to settle.
   */
  lemma {:induction false} NothingRequired(d: Disk, files: seq<Id>)
    requires WellNamed(d) && Listing(d, files)
    requires Pick(files, Outcomes(d, files, {}), AsRequired) == []
    ensures Final(d).damaged == map[]
    ensures forall id :: id in Final(d).receipts ==>
      Final(d).receipts[id].state != RecoveryRequired && !Incomplete(Final(d).receipts[id].state)
  {
    RecoverReachesFinal(d, files);
    forall id | Known(d, id)
      ensures id !in Final(d).damaged
      ensures id in Final(d).receipts ==> Final(d).receipts[id].state != RecoveryRequired
    {
      var k :| 0 <= k < |files| && files[k] == id;
      var os := Outcomes(d, files, {});
      if os[k] == AsRequired {
        PickHas(files, os, AsRequired, k);
      }
      if id in Final(d).damaged || (id in Final(d).receipts && Final(d).receipts[id].state == RecoveryRequired) {
        OutcomeOfBlocked(d, files, k);
      }
    }
    assert Final(d).damaged.Keys == {};
  }
}
