/**
 Settling what earlier crashes left of one place, receipt by receipt in the order of a directory
 listing: what it leaves, what it reports, and when it clears the way for a write.
 */
module Settling {
  import opened Wrappers
  import opened Journal
  import opened Protocol
  import opened Lineage
  import opened Safety
  import Recovery

  /** One visit: a pending receipt is judged, and a completed rollback marks its source. */
  function SettleOne(d: Disk, p: Place, id: Id): Disk {
    if !Pending(d, p, id) then d
    else
      var r := d.receipts[id];
      var half := SetState(d, id, Reconciled(d, r));
      if r.Rollback? && Reconciled(d, r) == Verified then MarkSource(half, r.rollbackOf) else half
  }

  function SettleAll(d: Disk, p: Place, files: seq<Id>): Disk
    decreases |files|
  {
    if files == [] then d else SettleAll(SettleOne(d, p, files[0]), p, files[1..])
  }

  /** A receipt that blocks, or will once judged. */
  predicate Unsettled(d: Disk, p: Place, id: Id) {
    Blocking(d, p, id) || (Pending(d, p, id) && Reconciled(d, d.receipts[id]) == RecoveryRequired)
  }

  predicate Mendable(d: Disk, p: Place, id: Id) {
    Pending(d, p, id) && Reconciled(d, d.receipts[id]) != RecoveryRequired
  }

  function Required(d: Disk, p: Place, files: seq<Id>): seq<Id>
    decreases |files|
  {
    if files == [] then []
    else (if Unsettled(d, p, files[0]) then [files[0]] else []) + Required(SettleOne(d, p, files[0]), p, files[1..])
  }

  function Mended(d: Disk, p: Place, files: seq<Id>): seq<Id>
    decreases |files|
  {
    if files == [] then []
    else (if Mendable(d, p, files[0]) then [files[0]] else []) + Mended(SettleOne(d, p, files[0]), p, files[1..])
  }

  /** After `k` visits: what is left to visit adds to the lists exactly what is missing. */
  ghost predicate SettledUpTo(start: Disk, d: Disk, p: Place, files: seq<Id>, k: nat, mended: seq<Id>,
                              required: seq<Id>)
    requires k <= |files|
  {
    && SettleAll(d, p, files[k..]) == SettleAll(start, p, files)
    && mended + Mended(d, p, files[k..]) == Mended(start, p, files)
    && required + Required(d, p, files[k..]) == Required(start, p, files)
  }

  lemma SettlesOneMore(start: Disk, d: Disk, p: Place, files: seq<Id>, k: nat, mended: seq<Id>, required: seq<Id>)
    requires k < |files| && SettledUpTo(start, d, p, files, k, mended, required)
    ensures SettledUpTo(start, SettleOne(d, p, files[k]), p, files, k + 1,
                        if Mendable(d, p, files[k]) then mended + [files[k]] else mended,
                        if Unsettled(d, p, files[k]) then required + [files[k]] else required)
  {
    assert files[k..][0] == files[k] && files[k..][1..] == files[k + 1..];
  }

  predicate SameButState(r: Receipt, r': Receipt) {
    r' == WithState(r, r'.state)
  }

  /** The journal changed only by settling: same files, bytes untouched, only states differ. */
  ghost predicate OnlySettled(d: Disk, d': Disk) {
    && d'.targets == d.targets && d'.backups == d.backups && d'.damaged == d.damaged
    && d'.receipts.Keys == d.receipts.Keys
    && forall id :: id in d.receipts ==> SameButState(d.receipts[id], d'.receipts[id])
  }

  /** Settling leaves no new receipt pending, and at most `blocked` newly blocking. */
  ghost predicate Progresses(d: Disk, d': Disk, p: Place, blocked: set<Id>) {
    && OnlySettled(d, d')
    && (forall j :: Pending(d', p, j) ==> Pending(d, p, j))
    && (forall j :: Blocking(d', p, j) ==> Blocking(d, p, j) || j in blocked)
  }

  lemma OnlySettledOn(d: Disk, d1: Disk, d2: Disk)
    requires OnlySettled(d, d1) && OnlySettled(d1, d2)
    ensures OnlySettled(d, d2)
  {
    forall id | id in d.receipts ensures SameButState(d.receipts[id], d2.receipts[id]) {
      assert SameButState(d.receipts[id], d1.receipts[id]) && SameButState(d1.receipts[id], d2.receipts[id]);
    }
  }

  lemma FreshKept(d: Disk, d': Disk, id: Id)
    requires OnlySettled(d, d') && Fresh(d, id)
    ensures Fresh(d', id)
  {
    forall j | j in d'.receipts ensures SameButState(d.receipts[j], d'.receipts[j]) {}
  }

  lemma StateProgresses(d: Disk, p: Place, id: Id, st: TxState)
    requires id in d.receipts && !Incomplete(st)
    ensures Progresses(d, SetState(d, id, st), p, if st == RecoveryRequired then {id} else {})
    ensures !Pending(SetState(d, id, st), p, id)
  {
  }

  lemma ProgressesOn(d: Disk, d1: Disk, d2: Disk, p: Place, blocked: set<Id>)
    requires Progresses(d, d1, p, blocked) && Progresses(d1, d2, p, {})
    ensures Progresses(d, d2, p, blocked)
  {
    forall id | id in d.receipts ensures SameButState(d.receipts[id], d2.receipts[id]) {
      assert SameButState(d.receipts[id], d1.receipts[id]) && SameButState(d1.receipts[id], d2.receipts[id]);
    }
  }

  lemma ReconcileProgresses(d: Disk, p: Place, id: Id)
    requires Pending(d, p, id)
    ensures var r := d.receipts[id];
      var outcome := Reconciled(d, r);
      var half := SetState(d, id, outcome);
      var d' := if r.Rollback? && outcome == Verified then MarkSource(half, r.rollbackOf) else half;
      Progresses(d, d', p, if outcome == RecoveryRequired then {id} else {}) && !Pending(d', p, id)
  {
    var r := d.receipts[id];
    var outcome := Reconciled(d, r);
    var half := SetState(d, id, outcome);
    StateProgresses(d, p, id, outcome);
    if r.Rollback? && outcome == Verified && r.rollbackOf in half.receipts {
      StateProgresses(half, p, r.rollbackOf, RolledBack);
      ProgressesOn(d, half, MarkSource(half, r.rollbackOf), p, {});
    }
  }

  lemma SettleOneProgresses(d: Disk, p: Place, id: Id)
    ensures Progresses(d, SettleOne(d, p, id), p, if Unsettled(d, p, id) then {id} else {})
    ensures !Pending(SettleOne(d, p, id), p, id)
  {
    if Pending(d, p, id) { ReconcileProgresses(d, p, id); }
  }

  lemma {:induction false} SettleAllProgresses(d: Disk, p: Place, files: seq<Id>)
    ensures OnlySettled(d, SettleAll(d, p, files))
    ensures forall id :: Pending(SettleAll(d, p, files), p, id) ==> Pending(d, p, id) && id !in files
    ensures forall id :: Blocking(SettleAll(d, p, files), p, id) ==>
      id in Required(d, p, files) || (Blocking(d, p, id) && id !in files)
    decreases |files|
  {
    if files != [] {
      var x := SettleOne(d, p, files[0]);
      SettleOneProgresses(d, p, files[0]);
      SettleAllProgresses(x, p, files[1..]);
      OnlySettledOn(d, x, SettleAll(d, p, files));
    }
  }

  /** A full listing leaves nothing pending, and what blocks afterwards was reported. */
  lemma AllSettled(d: Disk, p: Place, files: seq<Id>)
    requires forall id :: id in d.receipts ==> id in files
    ensures var x := SettleAll(d, p, files);
      && OnlySettled(d, x) && !AnyPending(x, p)
      && forall id :: Blocking(x, p, id) ==> id in Required(d, p, files)
  {
    SettleAllProgresses(d, p, files);
  }

  lemma {:induction false} NothingToSettle(d: Disk, p: Place, files: seq<Id>)
    requires !AnyPending(d, p) && !AnyBlocking(d, p)
    ensures SettleAll(d, p, files) == d && Required(d, p, files) == []
    decreases |files|
  {
    if files != [] {
      assert !Pending(d, p, files[0]) && !Blocking(d, p, files[0]);
      NothingToSettle(d, p, files[1..]);
    }
  }

  /** A pending receipt the rollback cannot get past. */
  predicate Denies(d: Disk, p: Place, id: Id) {
    Pending(d, p, id) &&
    var r := d.receipts[id];
    if r.FsWrite? && r.state == Applied then !(r.post.Some? && Now(d, p) == r.post)
    else Reconciled(d, r) == RecoveryRequired
  }

  /** One visit ahead of a rollback: applied writes are verified, intents superseded, rollbacks settled. */
  function Overtake(d: Disk, p: Place, id: Id): Disk {
    if !Pending(d, p, id) then d
    else if Denies(d, p, id) then SetState(d, id, RecoveryRequired)
    else if d.receipts[id].Rollback? then SettleOne(d, p, id)
    else if d.receipts[id].state == Applied then SetState(d, id, Verified)
    else SetState(SetState(d, id, RecoveredUnapplied), id, Superseded)
  }

  function OvertakeAll(d: Disk, p: Place, files: seq<Id>): Disk
    decreases |files|
  {
    if files == [] then d
    else if Denies(d, p, files[0]) then Overtake(d, p, files[0])
    else OvertakeAll(Overtake(d, p, files[0]), p, files[1..])
  }

  /** The first receipt of the listing that denies the rollback. */
  function DeniedBy(d: Disk, p: Place, files: seq<Id>): Option<Id>
    decreases |files|
  {
    if files == [] then None
    else if Denies(d, p, files[0]) then Some(files[0])
    else DeniedBy(Overtake(d, p, files[0]), p, files[1..])
  }

  ghost predicate OvertakenUpTo(start: Disk, d: Disk, p: Place, files: seq<Id>, k: nat)
    requires k <= |files|
  {
    && OvertakeAll(d, p, files[k..]) == OvertakeAll(start, p, files)
    && DeniedBy(d, p, files[k..]) == DeniedBy(start, p, files)
  }

  lemma OvertakesOneMore(start: Disk, d: Disk, p: Place, files: seq<Id>, k: nat)
    requires k < |files| && OvertakenUpTo(start, d, p, files, k)
    ensures if Denies(d, p, files[k]) then
              OvertakeAll(start, p, files) == Overtake(d, p, files[k]) && DeniedBy(start, p, files) == Some(files[k])
            else OvertakenUpTo(start, Overtake(d, p, files[k]), p, files, k + 1)
    ensures Now(Overtake(d, p, files[k]), p) == Now(d, p)
  {
    assert files[k..][0] == files[k] && files[k..][1..] == files[k + 1..];
  }

  lemma SupersededProgresses(d: Disk, p: Place, id: Id)
    requires Pending(d, p, id)
    ensures var x := SetState(SetState(d, id, RecoveredUnapplied), id, Superseded);
      Progresses(d, x, p, {}) && !Pending(x, p, id)
  {
    var x := SetState(d, id, RecoveredUnapplied);
    StateProgresses(d, p, id, RecoveredUnapplied);
    StateProgresses(x, p, id, Superseded);
    ProgressesOn(d, x, SetState(x, id, Superseded), p, {});
  }

  lemma OvertakeProgresses(d: Disk, p: Place, id: Id)
    ensures Progresses(d, Overtake(d, p, id), p, if Denies(d, p, id) then {id} else {})
    ensures !Pending(Overtake(d, p, id), p, id)
  {
    if Pending(d, p, id) {
      if Denies(d, p, id) {
        StateProgresses(d, p, id, RecoveryRequired);
      } else if d.receipts[id].Rollback? {
        ReconcileProgresses(d, p, id);
      } else if d.receipts[id].state == Applied {
        StateProgresses(d, p, id, Verified);
      } else {
        SupersededProgresses(d, p, id);
      }
    }
  }

  lemma {:induction false} OvertakenPending(d: Disk, p: Place, files: seq<Id>)
    ensures OnlySettled(d, OvertakeAll(d, p, files))
    ensures DeniedBy(d, p, files).None? ==>
      forall id :: Pending(OvertakeAll(d, p, files), p, id) ==> Pending(d, p, id) && id !in files
    decreases |files|
  {
    if files != [] {
      var x := Overtake(d, p, files[0]);
      OvertakeProgresses(d, p, files[0]);
      OvertakenPending(x, p, files[1..]);
      if !Denies(d, p, files[0]) { OnlySettledOn(d, x, OvertakeAll(d, p, files)); }
    }
  }

  /** Over a full listing: only states change, and nothing stays pending unless the rollback is denied. */
  lemma OvertakeAllProgresses(d: Disk, p: Place, files: seq<Id>)
    requires forall id :: id in d.receipts ==> id in files
    ensures OnlySettled(d, OvertakeAll(d, p, files))
    ensures DeniedBy(d, p, files).None? ==> !AnyPending(OvertakeAll(d, p, files), p)
  {
    OvertakenPending(d, p, files);
  }

  /** Writes come before rollbacks in a listing, so no visit touches what is still to be visited. */
  lemma VisitLeavesRest(d: Disk, p: Place, files: seq<Id>, j: nat)
    requires Recovery.WellNamed(d) && 0 < j < |files|
    requires files[0] != files[j] && (files[0].RollbackId? ==> files[j].RollbackId?)
    ensures var x := SettleOne(d, p, files[0]);
      && (Pending(x, p, files[j]) <==> Pending(d, p, files[j]))
      && (Blocking(x, p, files[j]) <==> Blocking(d, p, files[j]))
      && (Pending(d, p, files[j]) ==> Reconciled(x, x.receipts[files[j]]) == Reconciled(d, d.receipts[files[j]]))
  {
    VisitKeepsReceipt(d, p, files[0], files[j]);
  }

  lemma VisitKeepsReceipt(d: Disk, p: Place, id: Id, other: Id)
    requires Recovery.WellNamed(d) && id != other && (id.RollbackId? ==> other.RollbackId?)
    ensures SameReceipt(d, SettleOne(d, p, id), other)
  {
    if Pending(d, p, id) {
      var r := d.receipts[id];
      var half := SetState(d, id, Reconciled(d, r));
      if r.Rollback? && r.rollbackOf in half.receipts {
        assert r.rollbackOf.RecoveryId?;
        assert SameReceipt(d, SetState(half, r.rollbackOf, RolledBack), other);
      }
    }
  }

  predicate SameReceipt(d: Disk, x: Disk, id: Id) {
    && (id in x.receipts <==> id in d.receipts) && (id in d.receipts ==> x.receipts[id] == d.receipts[id])
    && x.targets == d.targets && x.backups == d.backups
  }

  lemma SettleOneStaysNamed(d: Disk, p: Place, id: Id)
    requires Recovery.WellNamed(d)
    ensures Recovery.WellNamed(SettleOne(d, p, id))
  {
  }

  /**
   What is reported, told from the disk before: the receipts that were blocking or could not be settled,
   and apart from them those that could.
   */
  lemma {:induction false} ReportedIff(d: Disk, p: Place, files: seq<Id>, id: Id)
    requires Recovery.WellNamed(d) && Recovery.Ordered(files) && id in files
    ensures id in Required(d, p, files) <==> Unsettled(d, p, id)
    ensures id in Mended(d, p, files) <==> Mendable(d, p, id)
    decreases |files|
  {
    var x, rest := SettleOne(d, p, files[0]), files[1..];
    SettleOneStaysNamed(d, p, files[0]);
    ReportsOnly(x, p, rest);
    if id != files[0] {
      var j :| 0 < j < |files| && files[j] == id;
      assert rest[j - 1] == id;
      VisitLeavesRest(d, p, files, j);
      ReportedIff(x, p, rest, id);
    } else {
      assert id !in rest;
    }
  }

  lemma {:induction false} ReportsOnly(d: Disk, p: Place, files: seq<Id>)
    ensures forall id :: id in Required(d, p, files) || id in Mended(d, p, files) ==> id in files
    decreases |files|
  {
    if files != [] {
      var x, rest := SettleOne(d, p, files[0]), files[1..];
      ReportsOnly(x, p, rest);
      forall id | id in Required(d, p, files) || id in Mended(d, p, files) ensures id in files {
        assert id == files[0] || id in Required(x, p, rest) || id in Mended(x, p, rest);
      }
    }
  }

  /** A place whose file is accounted for settles one step at a time without blocking. */
  lemma SettleOneClears(d: Disk, p: Place, base: Option<Digest>, chain: seq<Id>, ph: Phase, id: Id) returns (ph': Phase)
    requires Represents(d, p, base, chain, ph) && !Doomed(d, p, base, chain, ph)
    ensures !Unsettled(d, p, id)
    ensures Represents(SettleOne(d, p, id), p, base, chain, ph') && !Doomed(SettleOne(d, p, id), p, base, chain, ph')
  {
    ph' := ph;
    StackStates(d, p, base, chain, ph);
    if Pending(d, p, id) {
      VerdictOnPhase(d, p, base, chain, ph, id);
      VerdictKeeps(d, p, base, chain, ph, id);
      var half := SetState(d, id, Reconciled(d, d.receipts[id]));
      if ph.Undid? {
        SecondTerminalKeeps(p, half, id, ph.src, base, chain);
      }
      ph' := Quiet;
    }
  }

  /** In a represented place only the phase's own receipt blocks. */
  lemma StackStates(d: Disk, p: Place, base: Option<Digest>, chain: seq<Id>, ph: Phase)
    requires Represents(d, p, base, chain, ph)
    ensures forall id :: Blocking(d, p, id) ==> ph == Blocked(id)
  {
    forall id | id in chain ensures id in d.receipts && d.receipts[id].state != RecoveryRequired {
      var i :| 0 <= i < |chain| && chain[i] == id;
    }
    assert forall id :: At(d, p, id) && id !in chain && ph == Quiet ==> Retired(d, p, id);
  }

  /**
   Leftovers that can be settled never stop a write: from every phase in which the file is accounted
   for, crashed or not, settling blocks nothing and reports nothing.
   */
  lemma {:induction false} AccountedClears(d: Disk, p: Place, base: Option<Digest>, chain: seq<Id>, ph: Phase,
                                           files: seq<Id>)
    returns (ph': Phase)
    requires Represents(d, p, base, chain, ph) && !Doomed(d, p, base, chain, ph)
    ensures Required(d, p, files) == [] && Now(SettleAll(d, p, files), p) == Now(d, p)
    ensures Represents(SettleAll(d, p, files), p, base, chain, ph')
    decreases |files|
  {
    ph' := ph;
    if files != [] {
      ph' := SettleOneClears(d, p, base, chain, ph, files[0]);
      SettleOneProgresses(d, p, files[0]);
      ph' := AccountedClears(SettleOne(d, p, files[0]), p, base, chain, ph', files[1..]);
    }
  }

  /** And a file that is not accounted for always does. */
  lemma DoomedBlocks(d: Disk, p: Place, base: Option<Digest>, chain: seq<Id>, ph: Phase, files: seq<Id>)
    requires Represents(d, p, base, chain, ph) && Doomed(d, p, base, chain, ph)
    requires forall id :: id in d.receipts ==> id in files
    ensures Required(d, p, files) != []
  {
    var id := if ph.Blocked? then ph.x else if ph.Writing? then ph.w else ph.rb;
    if !ph.Blocked? { VerdictOnPhase(d, p, base, chain, ph, id); }
    assert Unsettled(d, p, id);
    DoomedReported(d, p, base, chain, ph, files, id);
  }

  lemma {:induction false} DoomedReported(d: Disk, p: Place, base: Option<Digest>, chain: seq<Id>, ph: Phase,
                                          files: seq<Id>, id: Id)
    requires Represents(d, p, base, chain, ph) && Doomed(d, p, base, chain, ph) && id in files && Unsettled(d, p, id)
    ensures Required(d, p, files) != []
    decreases |files|
  {
    var first := files[0];
    if !Unsettled(d, p, first) {
      assert !Pending(d, p, first) by {
        if Pending(d, p, first) {
          VerdictOnPhase(d, p, base, chain, ph, first);
          PendingPhase(d, p, base, chain, ph, first);
        }
      }
      assert id in files[1..];
      DoomedReported(d, p, base, chain, ph, files[1..], id);
    }
  }
}
