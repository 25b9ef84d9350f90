/** What recovery makes of an operation that crashed at any point. */
module Crashes {
  import opened Wrappers
  import opened Journal
  import opened Protocol
  import opened Lineage
  import opened Safety
  import opened Trails
  import opened Recovery
  import Scanning

  /** No damaged file belongs to the place, and no other place's rollback names its writes. */
  ghost predicate Undisturbed(d: Disk, p: Place) {
    && WellNamed(d)
    && (forall id :: id in d.damaged && d.damaged[id].Some? ==>
          d.damaged[id].value.place != p && Foreign(d, p, d.damaged[id].value))
    && (forall id :: id in d.receipts && d.receipts[id].place != p ==> Foreign(d, p, d.receipts[id]))
  }

  ghost predicate Foreign(d: Disk, p: Place, r: Receipt) {
    r.Rollback? ==> !At(d, p, r.rollbackOf)
  }

  /** The receipt that blocks once recovery has judged a file its stack does not account for. */
  function Culprit(ph: Phase): Option<Id> {
    match ph
    case Writing(w) => Some(w)
    case Undoing(rb) => Some(rb)
    case Blocked(x) => Some(x)
    case _ => None
  }

  lemma JudgeKeepsPlace(p: Place, d: Disk, id: Id, base: Option<Digest>, chain: seq<Id>, ph: Phase) returns (ph': Phase)
    requires Represents(d, p, base, chain, ph) && At(d, p, id)
    ensures var d' := SetState(d, id, OwnState(d, d.receipts[id]));
      && Represents(d', p, base, chain, ph') && Now(d', p) == Now(d, p)
      && Doomed(d', p, base, chain, ph') == Doomed(d, p, base, chain, ph)
    ensures Doomed(d, p, base, chain, ph) ==> Culprit(ph') == Culprit(ph)
  {
    var r := d.receipts[id];
    var d' := SetState(d, id, OwnState(d, r));
    ph' := ph;
    if Incomplete(r.state) {
      var completes := r.Rollback? && Reconciled(d, r) == Verified;
      var pc' := if completes then Finish(RecoverTask(id), r.rollbackOf) else Protocol.Done(Checked);
      PendingPhase(d, p, base, chain, ph, id);
      ph' := ReconcileKeeps(d, p, base, chain, ph, id, RecoverTask(id), Protocol.Done(Checked), d', pc');
    } else {
      if r.FsWrite? { assert HasBackup(d, id); }
      assert d'.receipts == d.receipts;
      assert d' == d;
    }
  }

  lemma MarkKeepsPlace(p: Place, d: Disk, rb: Id, base: Option<Digest>, chain: seq<Id>, ph: Phase) returns (ph': Phase)
    requires Represents(d, p, base, chain, ph)
    requires At(d, p, rb) && d.receipts[rb].Rollback? && d.receipts[rb].state == Verified
    ensures var d' := MarkSource(d, d.receipts[rb].rollbackOf);
      && Represents(d', p, base, chain, ph') && Now(d', p) == Now(d, p)
      && Doomed(d', p, base, chain, ph') == Doomed(d, p, base, chain, ph)
    ensures Doomed(d, p, base, chain, ph) ==> Culprit(ph') == Culprit(ph)
  {
    var src := d.receipts[rb].rollbackOf;
    if ph.Half? && ph.rb == rb {
      SecondTerminalKeeps(p, d, rb, src, base, chain);
      ph' := Quiet;
    } else {
      OtherSourceUndone(p, d, rb, base, chain, ph);
      RemarkKeeps(p, d, src, base, chain, ph);
      ph' := ph;
    }
  }

  lemma OtherSourceUndone(p: Place, d: Disk, rb: Id, base: Option<Digest>, chain: seq<Id>, ph: Phase)
    requires Represents(d, p, base, chain, ph)
    requires At(d, p, rb) && d.receipts[rb].Rollback? && d.receipts[rb].state == Verified && !(ph.Half? && ph.rb == rb)
    ensures SourceUndone(d, p, d.receipts[rb].rollbackOf)
  {
    StackWrites(d, p, base, chain);
    assert Retired(d, p, rb);
  }

  lemma FixKeepsPlace(p: Place, d: Disk, fix: Fix, base: Option<Digest>, chain: seq<Id>, ph: Phase) returns (ph': Phase)
    requires Represents(d, p, base, chain, ph) && Applicable(d, fix) && Undisturbed(d, p)
    ensures Represents(Apply(d, fix), p, base, chain, ph') && Now(Apply(d, fix), p) == Now(d, p)
    ensures Doomed(Apply(d, fix), p, base, chain, ph') == Doomed(d, p, base, chain, ph)
    ensures Doomed(d, p, base, chain, ph) ==> Culprit(ph') == Culprit(ph)
    ensures Undisturbed(Apply(d, fix), p)
  {
    var d' := Apply(d, fix);
    FixKeepsUndisturbed(p, d, fix);
    if fix.Judge? && At(d, p, fix.id) {
      ph' := JudgeKeepsPlace(p, d, fix.id, base, chain, ph);
    } else if fix.MarkFor? && At(d, p, fix.rb) {
      ph' := MarkKeepsPlace(p, d, fix.rb, base, chain, ph);
    } else {
      FixStaysAway(p, d, fix);
      ElsewhereKeeps(d, d', p, base, chain, ph);
      StackWrites(d, p, base, chain);
      StackCarried(d, d', p, base, chain);
      ph' := ph;
    }
  }

  lemma FixStaysAway(p: Place, d: Disk, fix: Fix)
    requires Applicable(d, fix) && Undisturbed(d, p)
    requires !(fix.Judge? && At(d, p, fix.id)) && !(fix.MarkFor? && At(d, p, fix.rb))
    ensures Elsewhere(d, Apply(d, fix), p)
  {
    FixKeepsFiles(d, fix);
  }

  lemma FixAddsNothing(p: Place, d: Disk, fix: Fix)
    requires Applicable(d, fix) && Undisturbed(d, p)
    ensures forall id :: At(Apply(d, fix), p, id) ==> At(d, p, id)
  {
  }

  lemma FixKeepsUndisturbed(p: Place, d: Disk, fix: Fix)
    requires Applicable(d, fix) && Undisturbed(d, p)
    ensures Undisturbed(Apply(d, fix), p)
  {
    FixKeepsFinal(d, fix);
    FixAddsNothing(p, d, fix);
    var d' := Apply(d, fix);
    match fix
    case Restate(id) =>
    case Judge(id) =>
      forall j | j in d'.receipts && d'.receipts[j].place != p ensures Foreign(d', p, d'.receipts[j]) {
        assert Foreign(d, p, d.receipts[j]);
      }
    case MarkFor(rb) =>
      forall j | j in d'.receipts && d'.receipts[j].place != p ensures Foreign(d', p, d'.receipts[j]) {
        assert Foreign(d, p, d.receipts[j]);
      }
  }

  /**
   What the scan does for one receipt is what a recovering process does under the lock of its target:
   one trail of the protocol, from taking the lock to its last write.
   */
  lemma VisitIsTrail(p: Place, d: Disk, id: Id) returns (cs: seq<Config>)
    requires At(d, p, id) && id !in d.damaged
    ensures Trail(p, cs) && cs[0] == Config(d, Enter(RecoverTask(id)))
    ensures Last(cs) == Config(After(d, VisitDisks(d, id, {})), Protocol.Done(Checked))
  {
    var task, r := RecoverTask(id), d.receipts[id];
    var start := [Config(d, Enter(task)), Config(d, Settle(task))];
    assert Work(p, d, Enter(task), d, Settle(task));
    if MayWrite(d, r) {
      var x := Apply(d, Judge(id));
      DecideJudges(p, d, id);
      if r.Rollback? && OwnState(d, r) == Verified {
        var y := MarkSource(x, r.rollbackOf);
        assert Work(p, x, Finish(task, r.rollbackOf), y, Protocol.Done(Checked));
        cs := start + [Config(x, Finish(task, r.rollbackOf)), Config(y, Protocol.Done(Checked))];
      } else {
        cs := start + [Config(x, Protocol.Done(Checked))];
      }
    } else {
      assert Decide(p, d, id, d, Protocol.Done(Checked));
      cs := start + [Config(d, Protocol.Done(Checked))];
    }
  }

  lemma DecideJudges(p: Place, d: Disk, id: Id)
    requires At(d, p, id) && MayWrite(d, d.receipts[id])
    ensures var r := d.receipts[id];
      Work(p, d, Settle(RecoverTask(id)), Apply(d, Judge(id)),
           if r.Rollback? && OwnState(d, r) == Verified then Finish(RecoverTask(id), r.rollbackOf)
           else Protocol.Done(Checked))
  {
    var r := d.receipts[id];
    var x := Apply(d, Judge(id));
    if !Incomplete(r.state) && r.Rollback? {
      assert x.receipts == d.receipts && x == d;
    }
  }

  /** One step of the process that recovers the receipt `id` of the place `p`, inside its critical section. */
  ghost predicate UnderLock(p: Place, id: Id, d: Disk, d': Disk) {
    && At(d, p, id)
    && exists pc, pc' :: (pc == Settle(RecoverTask(id)) || (pc.Finish? && pc.task == RecoverTask(id)))
                         && Work(p, d, pc, d', pc')
  }

  /** A receipt file that fails validation is marked in place, without a lock. */
  predicate MarkedInPlace(d: Disk, d': Disk, id: Id) {
    && id in d.damaged && d.damaged[id].Some?
    && d' == d.(damaged := d.damaged - {id},
                receipts := d.receipts[id := WithState(d.damaged[id].value, RecoveryRequired)])
  }

  /** What a write of recovery may be: the marking of a damaged file, or a step under a lock it could take. */
  ghost predicate Guarded(busy: set<Place>, d: Disk, d': Disk) {
    (exists id :: MarkedInPlace(d, d', id)) || (exists p, id :: p !in busy && UnderLock(p, id, d, d'))
  }

  /** The disk a scan wrote its `k`-th disk on. */
  function Before(d: Disk, disks: seq<Disk>, k: nat): Disk
    requires k < |disks|
  {
    if k == 0 then d else disks[k - 1]
  }

  lemma VisitIsGuarded(d: Disk, id: Id, busy: set<Place>, k: nat)
    requires k < |VisitDisks(d, id, busy)|
    ensures Guarded(busy, Before(d, VisitDisks(d, id, busy), k), VisitDisks(d, id, busy)[k])
  {
    if id in d.damaged {
      assert MarkedInPlace(d, Revive(d, id), id);
    } else {
      var r, x := d.receipts[id], Apply(d, Judge(id));
      DecideJudges(r.place, d, id);
      assert k == 0 ==> UnderLock(r.place, id, d, x);
      if k == 1 {
        var y := MarkSource(x, r.rollbackOf);
        assert Work(r.place, x, Finish(RecoverTask(id), r.rollbackOf), y, Protocol.Done(Checked));
        assert UnderLock(r.place, id, x, y);
      }
    }
  }

  /**
   Every durable write of a scan is a step of the protocol inside the critical section of a place that
   nobody else has locked, or marks a file that is no valid receipt of any place.
   */
  lemma {:induction false} ScanIsGuarded(d: Disk, files: seq<Id>, busy: set<Place>, k: nat)
    requires k < |Scan(d, files, busy)|
    ensures Guarded(busy, Before(d, Scan(d, files, busy), k), Scan(d, files, busy)[k])
    decreases |files|
  {
    var disks := VisitDisks(d, files[0], busy);
    ScanAt(d, files, busy, k);
    if k < |disks| {
      VisitIsGuarded(d, files[0], busy, k);
    } else {
      ScanIsGuarded(After(d, disks), files[1..], busy, k - |disks|);
      if k > 0 { ScanAt(d, files, busy, k - 1); }
    }
  }

  lemma {:induction false} ScanKeepsPlace(p: Place, d: Disk, files: seq<Id>, busy: set<Place>,
                                          base: Option<Digest>, chain: seq<Id>, ph: Phase) returns (ph': Phase)
    requires Represents(d, p, base, chain, ph) && Undisturbed(d, p)
    ensures var x := After(d, Scan(d, files, busy));
      && Represents(x, p, base, chain, ph') && Now(x, p) == Now(d, p)
      && Doomed(x, p, base, chain, ph') == Doomed(d, p, base, chain, ph)
    ensures Doomed(d, p, base, chain, ph) ==> Culprit(ph') == Culprit(ph)
    decreases |files|
  {
    ph' := ph;
    if files != [] {
      var fixes := Visit(d, files[0], busy);
      var x := d;
      if fixes != [] {
        x := Apply(d, fixes[0]);
        ph' := FixKeepsPlace(p, d, fixes[0], base, chain, ph');
        if |fixes| == 2 {
          ph' := FixKeepsPlace(p, x, fixes[1], base, chain, ph');
          x := Apply(x, fixes[1]);
        }
      }
      assert x == After(d, VisitDisks(d, files[0], busy));
      ScanSplits(d, files, busy);
      ph' := ScanKeepsPlace(p, x, files[1..], busy, base, chain, ph');
    }
  }

  lemma FinalIsSettled(p: Place, d: Disk)
    ensures !AnyPending(Final(d), p) && !AnyHalfFinished(Final(d), p)
  {
  }

  /** What a full recovery leaves has nothing left to settle, and no rollback of it is half finished. */
  lemma RecoverySettles(p: Place, d: Disk, files: seq<Id>)
    requires WellNamed(d) && Listing(d, files)
    ensures var x := After(d, Scan(d, files, {})); !AnyPending(x, p) && !AnyHalfFinished(x, p)
  {
    RecoverReachesFinal(d, files);
    FinalIsSettled(p, d);
  }

  /**
   A completed recovery never changes the file. It leaves the same stack, quiet unless the file
   holds bytes no receipt accounts for, and then blocked.
   */
  lemma RecoverKeepsPlace(p: Place, d: Disk, files: seq<Id>, base: Option<Digest>, chain: seq<Id>, ph: Phase)
    returns (ph': Phase)
    requires Represents(d, p, base, chain, ph) && Undisturbed(d, p) && Listing(d, files)
    ensures Represents(Final(d), p, base, chain, ph') && Now(Final(d), p) == Now(d, p)
    ensures if Doomed(d, p, base, chain, ph) then ph'.Blocked? && Culprit(ph) == Some(ph'.x) else ph' == Quiet
  {
    ph' := ScanKeepsPlace(p, d, files, {}, base, chain, ph);
    RecoverReachesFinal(d, files);
    FinalIsSettled(p, d);
    SettledPhase(Final(d), p, base, chain, ph');
    PhaseShows(Final(d), p, base, chain, ph');
  }

  /** The name a writer has taken is a write's. */
  predicate Named(pc: Pc) {
    pc.BackedUp? ==> pc.id.RecoveryId?
  }

  /** New receipts are named for what they are, and nobody else's rollback names them. */
  lemma NewKeepsUndisturbed(p: Place, d: Disk, id: Id, r: Receipt)
    requires Undisturbed(d, p) && Fresh(d, id) && r.place == p && NamedFor(id, r)
    ensures Undisturbed(d.(receipts := d.receipts[id := r]), p)
  {
    var d' := d.(receipts := d.receipts[id := r]);
    forall j | j in d'.receipts && d'.receipts[j].place != p ensures Foreign(d', p, d'.receipts[j]) {
      assert Foreign(d, p, d.receipts[j]);
    }
  }

  /** A receipt rewritten as the same kind of receipt of the same place, whatever happens to the files. */
  lemma RewriteKeepsUndisturbed(p: Place, d: Disk, id: Id, r: Receipt, d': Disk)
    requires Undisturbed(d, p) && id in d.receipts && r.place == d.receipts[id].place
    requires r.FsWrite? == d.receipts[id].FsWrite? && (r.Rollback? ==> r.rollbackOf == d.receipts[id].rollbackOf)
    requires d' == d.(receipts := d.receipts[id := r], targets := d'.targets)
    ensures Undisturbed(d', p)
  {
    forall j | j in d'.receipts && d'.receipts[j].place != p ensures Foreign(d', p, d'.receipts[j]) {
      assert Foreign(d, p, d.receipts[j]);
    }
  }

  lemma StateKeepsUndisturbed(p: Place, d: Disk, id: Id, st: TxState)
    requires Undisturbed(d, p) && id in d.receipts
    ensures Undisturbed(SetState(d, id, st), p)
  {
    RewriteKeepsUndisturbed(p, d, id, WithState(d.receipts[id], st), SetState(d, id, st));
  }

  lemma SettleKeepsUndisturbed(p: Place, d: Disk, task: Task, d': Disk, pc': Pc)
    requires Undisturbed(d, p) && Work(p, d, Settle(task), d', pc')
    ensures Undisturbed(d', p) && Named(pc')
  {
    match task
    case RecoverTask(id) =>
      if At(d, p, id) && d' != d {
        DecideSetsState(p, d, id, d', pc');
        StateKeepsUndisturbed(p, d, id, d'.receipts[id].state);
      }
    case WriteTask(_, _) =>
      if AnyPending(d, p) {
        var id :| SettleForWrite(p, d, task, id, d', pc');
        StateKeepsUndisturbed(p, d, id, Reconciled(d, d.receipts[id]));
      }
    case RollbackTask(wanted) =>
      if AnyPending(d, p) {
        var id :| SettleForRollback(p, d, task, id, d', pc');
        SettleForRollbackSetsState(p, d, task, id, d', pc');
        StateKeepsUndisturbed(p, d, id, d'.receipts[id].state);
      } else if pc'.Intended? {
        assert pc'.src in Heads(d, p, wanted);
        NewKeepsUndisturbed(p, d, pc'.rb, d'.receipts[pc'.rb]);
      }
  }

  lemma RecordKeepsUndisturbed(p: Place, d: Disk, pc: Pc, d': Disk, pc': Pc)
    requires Undisturbed(d, p) && Work(p, d, pc, d', pc') && (pc.Replaced? || pc.Recorded? || pc.Logged?)
    ensures Undisturbed(d', p) && Named(pc')
  {
    var id := if pc.Logged? then pc.rb else pc.id;
    if d' != d { RewriteKeepsUndisturbed(p, d, id, d'.receipts[id], d'); }
  }

  lemma RestoreKeepsUndisturbed(p: Place, d: Disk, rb: Id, src: Id, d': Disk, pc': Pc)
    requires Undisturbed(d, p) && (RestoreTarget(p, d, rb, src, d', pc') || RecordRestored(p, d, rb, src, d', pc'))
    ensures Undisturbed(d', p) && Named(pc')
  {
    assert d'.receipts[rb := d'.receipts[rb]] == d'.receipts;
    RewriteKeepsUndisturbed(p, d, rb, d'.receipts[rb], d');
  }

  lemma WorkKeepsUndisturbed(p: Place, d: Disk, pc: Pc, d': Disk, pc': Pc)
    requires Undisturbed(d, p) && Named(pc) && Work(p, d, pc, d', pc')
    ensures Undisturbed(d', p) && Named(pc')
  {
    if pc.Settle? {
      SettleKeepsUndisturbed(p, d, pc.task, d', pc');
    } else if pc.BackedUp? {
      NewKeepsUndisturbed(p, d, pc.id, d'.receipts[pc.id]);
    } else if pc.Finish? || pc.HalfDone? {
      if pc.src in d.receipts { StateKeepsUndisturbed(p, d, pc.src, RolledBack); }
    } else if pc.Demote? {
      StateKeepsUndisturbed(p, d, pc.id, Superseded);
    } else if pc.Intended? || pc.Restored? {
      RestoreKeepsUndisturbed(p, d, pc.rb, pc.src, d', pc');
    } else if !pc.Enter? && !pc.Journaled? {
      RecordKeepsUndisturbed(p, d, pc, d', pc');
    }
  }

  /** An operation leaves the rest of the store out of it at every step. */
  lemma {:induction false} TrailKeepsUndisturbed(p: Place, cs: seq<Config>)
    requires Trail(p, cs) && cs[0].pc.Enter? && Undisturbed(cs[0].disk, p)
    ensures Undisturbed(Last(cs).disk, p) && Named(Last(cs).pc)
  {
    if |cs| > 1 {
      var init := cs[..|cs| - 1];
      assert forall k :: 0 < k < |init| ==> Work(p, init[k - 1].disk, init[k - 1].pc, init[k].disk, init[k].pc);
      TrailKeepsUndisturbed(p, init);
      WorkKeepsUndisturbed(p, Last(init).disk, Last(init).pc, Last(cs).disk, Last(cs).pc);
    }
  }

  /** Which is all a scan needs to spare the places others work at. */
  lemma UndisturbedAtHome(d: Disk)
    requires forall p :: Undisturbed(d, p)
    ensures Scanning.AtHome(d)
  {
    forall id, rb | id in d.receipts && rb in d.receipts && d.receipts[rb].Rollback? && d.receipts[rb].rollbackOf == id
      ensures d.receipts[rb].place == d.receipts[id].place
    {
      var p := d.receipts[id].place;
      assert Undisturbed(d, p);
      if d.receipts[rb].place != p { assert Foreign(d, p, d.receipts[rb]) && At(d, p, id); }
    }
  }

  /** The one window in which a write's crash cannot be settled. */
  predicate WriteLost(was: Option<Digest>, pc: Pc) {
    pc.Replaced? && pc.task.WriteTask? && was != Some(Sha256(pc.task.content))
  }

  /**
   Crash trichotomy of a write: from any phase that accounts for the file, earlier crashes included, crash
   it after any step and let recovery complete. Then it is as if the write never ran, or as if it finished,
   or the file holds the new bytes and is blocked by the write's own receipt; the last exactly when the
   crash fell between the replacement and its record and the bytes changed.
   */
  lemma WriteCrashTrichotomy(p: Place, cs: seq<Config>, files: seq<Id>, base: Option<Digest>, chain: seq<Id>, ph: Phase)
    requires Trail(p, cs) && cs[0].pc.Enter? && cs[0].pc.task.WriteTask?
    requires Represents(cs[0].disk, p, base, chain, ph) && !ph.Half? && !Doomed(cs[0].disk, p, base, chain, ph)
    requires Undisturbed(cs[0].disk, p) && Listing(Last(cs).disk, files)
    ensures var was, pc, x := Now(cs[0].disk, p), Last(cs).pc, Final(Last(cs).disk);
      if WriteLost(was, pc) then
        && Represents(x, p, base, chain, Blocked(pc.id)) && Now(x, p) == Some(Sha256(cs[0].pc.task.content)) != was
      else if pc.Recorded? then
        && Represents(x, p, base, chain + [pc.id], Quiet) && Now(x, p) == Some(Sha256(cs[0].pc.task.content))
      else if pc.Done? && pc.result.Committed? then
        && Represents(x, p, base, chain + [pc.result.id], Quiet) && Now(x, p) == Some(Sha256(cs[0].pc.task.content))
      else
        && Represents(x, p, base, chain, Quiet) && Now(x, p) == was
  {
    TrailKeepsUndisturbed(p, cs);
    var chain', ph' := WriteTrail(p, cs, base, chain, ph);
    var final := RecoverKeepsPlace(p, Last(cs).disk, files, base, chain', ph');
  }

  /** The one window in which a rollback's crash cannot be settled. */
  predicate RollbackLost(d: Disk, was: Option<Digest>, pc: Pc) {
    pc.Restored? && pc.src in d.receipts && d.receipts[pc.src].FsWrite? && d.receipts[pc.src].pre != was
  }

  /** Crash trichotomy of a rollback: not run, finished, or the restored file blocked by the rollback's own receipt. */
  lemma RollbackCrashTrichotomy(p: Place, cs: seq<Config>, files: seq<Id>, base: Option<Digest>, chain: seq<Id>,
                                ph: Phase)
    requires Trail(p, cs) && cs[0].pc.Enter? && cs[0].pc.task.RollbackTask?
    requires Represents(cs[0].disk, p, base, chain, ph) && !ph.Half? && !Doomed(cs[0].disk, p, base, chain, ph)
    requires Undisturbed(cs[0].disk, p) && Listing(Last(cs).disk, files)
    ensures var was, d, pc := Now(cs[0].disk, p), Last(cs).disk, Last(cs).pc;
      if RollbackLost(d, was, pc) then
        && Represents(Final(d), p, base, chain, Blocked(pc.rb))
        && chain != [] && chain[|chain| - 1] == pc.src && Now(Final(d), p) == d.receipts[pc.src].pre != was
      else if pc.Logged? || pc.HalfDone? || (pc.Done? && pc.result.Undone?) then
        && chain != [] && Represents(Final(d), p, base, chain[..|chain| - 1], Quiet)
        && WriteAt(d, p, chain[|chain| - 1]) && Now(Final(d), p) == d.receipts[chain[|chain| - 1]].pre
      else
        && Represents(Final(d), p, base, chain, Quiet) && Now(Final(d), p) == was
  {
    TrailKeepsUndisturbed(p, cs);
    var chain', ph' := RollbackTrail(p, cs, base, chain, ph);
    var c, was := Last(cs), Now(cs[0].disk, p);
    RollbackCrashFacts(p, c.disk, c.pc, cs[0].pc.task.wanted, was, base, chain, chain', ph');
    var final := RecoverKeepsPlace(p, Last(cs).disk, files, base, chain', ph');
  }

  lemma RollbackCrashFacts(p: Place, d: Disk, pc: Pc, wanted: Digest, was: Option<Digest>, base: Option<Digest>,
                           chain: seq<Id>, chain': seq<Id>, ph: Phase)
    requires Represents(d, p, base, chain', ph) && InControl(d, p, base, chain', ph, pc)
    requires RollbackProgress(d, pc, p, wanted, was, chain, chain')
    requires !pc.Restored? ==> !Doomed(d, p, base, chain', ph)
    ensures Doomed(d, p, base, chain', ph) ==> RollbackLost(d, was, pc)
    ensures RollbackLost(d, was, pc) ==> Doomed(d, p, base, chain', ph) && chain' == chain != []
                                         && chain[|chain| - 1] == pc.src && Now(d, p) == d.receipts[pc.src].pre
    ensures if pc.Logged? || pc.HalfDone? || (pc.Done? && pc.result.Undone?) then
              && chain != [] && chain' == chain[..|chain| - 1]
              && WriteAt(d, p, chain[|chain| - 1]) && Now(d, p) == d.receipts[chain[|chain| - 1]].pre
            else chain' == chain && (!RollbackLost(d, was, pc) ==> Now(d, p) == was)
  {
    if pc.Restored? { assert LinkAt(d, p, base, chain', |chain'| - 1); }
    if |chain| == |chain'| + 1 { assert chain[..|chain| - 1] == chain'; }
  }
}
