/**
 One operation on its own: the trail of disks it passes through from taking the lock to its result.
 A crash at any point of the operation leaves a prefix of its trail.
 */
module Trails {
  import opened Wrappers
  import opened Journal
  import opened Protocol
  import opened Lineage
  import opened Safety

  datatype Config = Config(disk: Disk, pc: Pc)

  ghost predicate Trail(p: Place, cs: seq<Config>) {
    && cs != []
    && forall k :: 0 < k < |cs| ==> Work(p, cs[k - 1].disk, cs[k - 1].pc, cs[k].disk, cs[k].pc)
  }

  function Last(cs: seq<Config>): Config
    requires cs != []
  {
    cs[|cs| - 1]
  }

  /** How far a write has come: before its record nothing is pushed, after it exactly its receipt. */
  ghost predicate WriteProgress(d: Disk, pc: Pc, p: Place, task: Task, was: Option<Digest>, chain0: seq<Id>,
                                chain: seq<Id>)
    requires task.WriteTask?
  {
    var written := Some(Sha256(task.content));
    match pc
    case Enter(t) => t == task && chain == chain0 && Now(d, p) == was
    case Settle(t) => t == task && chain == chain0 && Now(d, p) == was
    case Finish(t, _) => t == task && chain == chain0 && Now(d, p) == was
    case BackedUp(t, _) => t == task && chain == chain0 && Now(d, p) == was
    case Journaled(t, _) => t == task && chain == chain0 && Now(d, p) == was
    case Replaced(t, _) => t == task && chain == chain0 && Now(d, p) == written && was == task.expected
    case Recorded(id, post) => chain == chain0 + [id] && Now(d, p) == written && was == task.expected
    case Done(result) =>
      (match result
       case Committed(id, _) => chain == chain0 + [id] && Now(d, p) == written && was == task.expected
       case Undone(_) => false
       case _ => chain == chain0 && Now(d, p) == was)
    case _ => false
  }

  lemma {:induction false} WriteTrail(p: Place, cs: seq<Config>, base: Option<Digest>, chain: seq<Id>, ph: Phase)
    returns (chain': seq<Id>, ph': Phase)
    requires Trail(p, cs) && cs[0].pc.Enter? && cs[0].pc.task.WriteTask?
    requires Represents(cs[0].disk, p, base, chain, ph) && !ph.Half?
    ensures Represents(Last(cs).disk, p, base, chain', ph')
    ensures InControl(Last(cs).disk, p, base, chain', ph', Last(cs).pc)
    ensures WriteProgress(Last(cs).disk, Last(cs).pc, p, cs[0].pc.task, Now(cs[0].disk, p), chain, chain')
    ensures !Doomed(cs[0].disk, p, base, chain, ph) && !Last(cs).pc.Replaced? ==>
      !Doomed(Last(cs).disk, p, base, chain', ph')
  {
    chain', ph' := chain, ph;
    if |cs| > 1 {
      var init := cs[..|cs| - 1];
      assert forall k :: 0 < k < |init| ==> Work(p, init[k - 1].disk, init[k - 1].pc, init[k].disk, init[k].pc);
      chain', ph' := WriteTrail(p, init, base, chain, ph);
      var a, b := Last(init), Last(cs);
      assert Work(p, a.disk, a.pc, b.disk, b.pc);
      var chain1, ph1 := chain', ph';
      chain', ph' := WorkKeeps(p, a.disk, a.pc, b.disk, b.pc, base, chain1, ph1);
      WriteAdvances(p, a, b, cs[0].pc.task, Now(cs[0].disk, p), chain, chain1, chain');
    }
  }

  lemma WriteAdvances(p: Place, a: Config, b: Config, task: Task, was: Option<Digest>,
                      chain0: seq<Id>, chain: seq<Id>, chain': seq<Id>)
    requires Work(p, a.disk, a.pc, b.disk, b.pc) && Moves(a.pc, chain, chain') && Proceeds(a.pc, b.pc)
    requires task.WriteTask? && WriteProgress(a.disk, a.pc, p, task, was, chain0, chain)
    requires !a.pc.Journaled? && !a.pc.Intended? ==> Now(b.disk, p) == Now(a.disk, p)
    requires a.pc.Journaled? ==> was == task.expected
    ensures WriteProgress(b.disk, b.pc, p, task, was, chain0, chain')
  {
    if a.pc.Settle? && AnyPending(a.disk, p) {
      var id :| SettleForWrite(p, a.disk, a.pc.task, id, b.disk, b.pc);
    }
  }

  predicate Intends(d: Disk, rb: Id, wanted: Digest) {
    rb in d.receipts && d.receipts[rb].Rollback? && d.receipts[rb].expectedPost == wanted
  }

  /** How far a rollback has come: before its record nothing is popped, after it exactly the top. */
  ghost predicate RollbackProgress(d: Disk, pc: Pc, p: Place, wanted: Digest, was: Option<Digest>, chain0: seq<Id>,
                                   chain: seq<Id>)
  {
    match pc
    case Enter(t) => t == RollbackTask(wanted) && chain == chain0 && Now(d, p) == was
    case Settle(t) => t == RollbackTask(wanted) && chain == chain0 && Now(d, p) == was
    case Finish(t, _) => t == RollbackTask(wanted) && chain == chain0 && Now(d, p) == was
    case Demote(t, _) => t == RollbackTask(wanted) && chain == chain0 && Now(d, p) == was
    case Intended(rb, src) => chain == chain0 && Now(d, p) == was == Some(wanted) && Intends(d, rb, wanted)
    case Restored(rb, src) => chain == chain0 && was == Some(wanted) && Intends(d, rb, wanted)
    case Logged(_, src) => chain0 == chain + [src] && was == Some(wanted)
    case HalfDone(src) => chain0 == chain + [src] && was == Some(wanted)
    case Done(result) =>
      (match result
       case Undone(src) => chain0 == chain + [src] && was == Some(wanted)
       case Committed(_, _) => false
       case _ => chain == chain0 && Now(d, p) == was)
    case _ => false
  }

  lemma {:induction false} RollbackTrail(p: Place, cs: seq<Config>, base: Option<Digest>, chain: seq<Id>, ph: Phase)
    returns (chain': seq<Id>, ph': Phase)
    requires Trail(p, cs) && cs[0].pc.Enter? && cs[0].pc.task.RollbackTask?
    requires Represents(cs[0].disk, p, base, chain, ph) && !ph.Half?
    ensures Represents(Last(cs).disk, p, base, chain', ph')
    ensures InControl(Last(cs).disk, p, base, chain', ph', Last(cs).pc)
    ensures RollbackProgress(Last(cs).disk, Last(cs).pc, p, cs[0].pc.task.wanted, Now(cs[0].disk, p), chain, chain')
    ensures !Doomed(cs[0].disk, p, base, chain, ph) && !Last(cs).pc.Restored? ==>
      !Doomed(Last(cs).disk, p, base, chain', ph')
  {
    chain', ph' := chain, ph;
    if |cs| > 1 {
      var init := cs[..|cs| - 1];
      assert forall k :: 0 < k < |init| ==> Work(p, init[k - 1].disk, init[k - 1].pc, init[k].disk, init[k].pc);
      chain', ph' := RollbackTrail(p, init, base, chain, ph);
      var a, b := Last(init), Last(cs);
      assert Work(p, a.disk, a.pc, b.disk, b.pc);
      var chain1 := chain';
      chain', ph' := WorkKeeps(p, a.disk, a.pc, b.disk, b.pc, base, chain1, ph');
      RollbackAdvances(p, a, b, cs[0].pc.task.wanted, Now(cs[0].disk, p), chain, chain1, chain');
    }
  }

  lemma RollbackAdvances(p: Place, a: Config, b: Config, wanted: Digest, was: Option<Digest>,
                         chain0: seq<Id>, chain: seq<Id>, chain': seq<Id>)
    requires Work(p, a.disk, a.pc, b.disk, b.pc) && Moves(a.pc, chain, chain') && Proceeds(a.pc, b.pc)
    requires RollbackProgress(a.disk, a.pc, p, wanted, was, chain0, chain)
    requires !a.pc.Intended? ==> Now(b.disk, p) == Now(a.disk, p)
    requires a.pc.Settle? ==> Now(a.disk, p) == Some(wanted)
    ensures RollbackProgress(b.disk, b.pc, p, wanted, was, chain0, chain')
  {
    if a.pc.Settle? {
      var task := a.pc.task;
      if AnyPending(a.disk, p) {
        var id :| SettleForRollback(p, a.disk, task, id, b.disk, b.pc);
      }
    }
  }

  /** Once a write left PREPARED, its digests are final. */
  ghost predicate FactsKept(d: Disk, d': Disk, p: Place) {
    forall id :: WriteAt(d, p, id) && d.receipts[id].state != Prepared ==>
      && WriteAt(d', p, id) && d'.receipts[id].state != Prepared
      && d'.receipts[id].pre == d.receipts[id].pre && d'.receipts[id].post == d.receipts[id].post
  }

  lemma StateKeepsFacts(p: Place, d: Disk, id: Id, st: TxState)
    requires id in d.receipts && st != Prepared
    ensures FactsKept(d, SetState(d, id, st), p)
  {
  }

  lemma SettleKeepsFacts(p: Place, d: Disk, task: Task, d': Disk, pc': Pc)
    requires Work(p, d, Settle(task), d', pc')
    ensures FactsKept(d, d', p)
  {
    match task
    case RecoverTask(id) =>
      if At(d, p, id) && d' != d {
        DecideSetsState(p, d, id, d', pc');
        StateKeepsFacts(p, d, id, d'.receipts[id].state);
      }
    case WriteTask(_, _) =>
      if AnyPending(d, p) {
        var id :| SettleForWrite(p, d, task, id, d', pc');
        StateKeepsFacts(p, d, id, Reconciled(d, d.receipts[id]));
      }
    case RollbackTask(_) =>
      if AnyPending(d, p) {
        var id :| SettleForRollback(p, d, task, id, d', pc');
        SettleForRollbackSetsState(p, d, task, id, d', pc');
        StateKeepsFacts(p, d, id, d'.receipts[id].state);
      }
  }

  lemma DecideSetsState(p: Place, d: Disk, id: Id, d': Disk, pc': Pc)
    requires Decide(p, d, id, d', pc') && d' != d
    ensures id in d.receipts && id in d'.receipts && d'.receipts[id].state != Prepared
    ensures d' == SetState(d, id, d'.receipts[id].state)
  {
  }

  lemma SettleForRollbackSetsState(p: Place, d: Disk, task: Task, id: Id, d': Disk, pc': Pc)
    requires SettleForRollback(p, d, task, id, d', pc')
    ensures id in d.receipts && id in d'.receipts && d'.receipts[id].state != Prepared
    ensures d' == SetState(d, id, d'.receipts[id].state)
  {
  }

  lemma RollbackerKeepsFacts(p: Place, d: Disk, pc: Pc, d': Disk, pc': Pc)
    requires Work(p, d, pc, d', pc') && RollbackStage(pc)
    ensures FactsKept(d, d', p)
  {
  }

  lemma WorkKeepsFacts(p: Place, d: Disk, pc: Pc, d': Disk, pc': Pc)
    requires Work(p, d, pc, d', pc')
    ensures FactsKept(d, d', p)
  {
    if pc.Settle? {
      SettleKeepsFacts(p, d, pc.task, d', pc');
    } else if RollbackStage(pc) {
      RollbackerKeepsFacts(p, d, pc, d', pc');
    }
  }

  lemma {:induction false} TrailKeepsFacts(p: Place, cs: seq<Config>)
    requires Trail(p, cs)
    ensures FactsKept(cs[0].disk, Last(cs).disk, p)
  {
    if |cs| > 1 {
      var init := cs[..|cs| - 1];
      assert forall k :: 0 < k < |init| ==> Work(p, init[k - 1].disk, init[k - 1].pc, init[k].disk, init[k].pc);
      TrailKeepsFacts(p, init);
      WorkKeepsFacts(p, Last(init).disk, Last(init).pc, Last(cs).disk, Last(cs).pc);
    }
  }

  /** A governed write that ran to its end and succeeded. */
  ghost predicate Written(p: Place, cs: seq<Config>, id: Id, content: Bytes) {
    && Trail(p, cs) && cs[0].pc.Enter? && cs[0].pc.task.WriteTask? && cs[0].pc.task.content == content
    && Last(cs).pc == Done(Committed(id, Sha256(content)))
  }

  /** A governed rollback that ran to its end and succeeded. */
  ghost predicate RolledOff(p: Place, cs: seq<Config>, src: Id) {
    Trail(p, cs) && cs[0].pc.Enter? && cs[0].pc.task.RollbackTask? && Last(cs).pc == Done(Undone(src))
  }

  /** A successful write pushes its receipt, and the file holds its content. */
  lemma WritePushes(p: Place, cs: seq<Config>, id: Id, content: Bytes, base: Option<Digest>, chain: seq<Id>, ph: Phase)
    requires Written(p, cs, id, content) && Represents(cs[0].disk, p, base, chain, ph) && !ph.Half?
    ensures Represents(Last(cs).disk, p, base, chain + [id], Quiet)
    ensures Now(cs[0].disk, p) == cs[0].pc.task.expected
    ensures p in Last(cs).disk.targets && Last(cs).disk.targets[p] == content
  {
    var chain', ph' := WriteTrail(p, cs, base, chain, ph);
  }

  /**
   Rollback is exactly pop: it succeeds on the top of the stack and nothing else, and gives back
   the very bytes, or the absence, that the write had replaced.
   */
  lemma RollbackPops(p: Place, cs: seq<Config>, src: Id, base: Option<Digest>, chain: seq<Id>, ph: Phase)
    requires RolledOff(p, cs, src) && Represents(cs[0].disk, p, base, chain, ph) && !ph.Half?
    ensures chain != [] && src == chain[|chain| - 1]
    ensures Represents(Last(cs).disk, p, base, chain[..|chain| - 1], Quiet)
    ensures Now(cs[0].disk, p) == Some(cs[0].pc.task.wanted)
    ensures WriteAt(Last(cs).disk, p, src) && Last(cs).disk.receipts[src].pre == Now(Last(cs).disk, p)
  {
    var chain', ph' := RollbackTrail(p, cs, base, chain, ph);
    assert chain[..|chain| - 1] == chain';
  }

  /** Whether the checks of a rollback let it pass: the journal is undamaged and the digest is the file's. */
  ghost predicate Granted(d: Disk, p: Place, wanted: Digest) {
    d.damaged.Keys == {} && Now(d, p) == Some(wanted)
  }

  /** What a rollback comes to, told from the disk it started on; `doomed` says that the file is not accounted for. */
  ghost function RollbackResult(d: Disk, p: Place, wanted: Digest, chain: seq<Id>, doomed: bool): Result {
    if Granted(d, p, wanted) && !doomed && chain != [] then Undone(chain[|chain| - 1]) else Denied
  }

  /** Where a rollback stands on its way there. `chain` is the stack it started on, `chain'` the one it is at. */
  ghost predicate OnCourse(d0: Disk, d: Disk, pc: Pc, p: Place, wanted: Digest, chain: seq<Id>, chain': seq<Id>,
                           doomed0: bool, doomed: bool)
  {
    match pc
    case Enter(t) => t == RollbackTask(wanted) && d == d0 && chain' == chain && doomed == doomed0
    case Settle(t) => t == RollbackTask(wanted) && Granted(d0, p, wanted) && chain' == chain && doomed == doomed0
    case Finish(t, _) => t == RollbackTask(wanted) && Granted(d0, p, wanted) && chain' == chain && doomed == doomed0
    case Demote(t, _) => t == RollbackTask(wanted) && Granted(d0, p, wanted) && chain' == chain && doomed == doomed0
    case Done(result) => result == RollbackResult(d0, p, wanted, chain, doomed0)
    case _ => RollbackStage(pc) && Undone(pc.src) == RollbackResult(d0, p, wanted, chain, doomed0)
  }

  /** Settling denies the rollback exactly where the file is not accounted for, and selection takes the top. */
  lemma SettledAdvances(p: Place, a: Config, b: Config, wanted: Digest, base: Option<Digest>, chain: seq<Id>, ph: Phase)
    requires a.pc == Settle(RollbackTask(wanted)) && Work(p, a.disk, a.pc, b.disk, b.pc)
    requires Represents(a.disk, p, base, chain, ph) && InControl(a.disk, p, base, chain, ph, a.pc)
    ensures b.pc.Done? ==> b.pc == Done(Denied) && (Doomed(a.disk, p, base, chain, ph) || chain == [])
    ensures b.pc.Intended? ==>
      !Doomed(a.disk, p, base, chain, ph) && chain != [] && b.pc.src == chain[|chain| - 1]
    ensures b.pc.Done? || b.pc.Intended?
         || ((b.pc.Settle? || b.pc.Finish? || b.pc.Demote?) && b.pc.task == RollbackTask(wanted))
  {
    if AnyPending(a.disk, p) {
      var id :| SettleForRollback(p, a.disk, a.pc.task, id, b.disk, b.pc);
      SettlingDenies(p, a, b, wanted, base, chain, ph, id);
    } else {
      SettledPhase(a.disk, p, base, chain, ph);
      forall src ensures Selects(a.disk, p, wanted, Head(src)) <==>
        ph == Quiet && chain != [] && src == chain[|chain| - 1]
      {
        if ph.Blocked? { BlockedSelectsNothing(a.disk, p, base, chain, ph.x, wanted, src); }
        if ph == Quiet { SelectsTop(a.disk, p, base, chain, wanted, src); }
      }
      assert ph == Quiet && chain != [] ==> Selects(a.disk, p, wanted, Head(chain[|chain| - 1]));
    }
  }

  lemma SettlingDenies(p: Place, a: Config, b: Config, wanted: Digest, base: Option<Digest>, chain: seq<Id>, ph: Phase,
                       id: Id)
    requires SettleForRollback(p, a.disk, RollbackTask(wanted), id, b.disk, b.pc)
    requires Represents(a.disk, p, base, chain, ph)
    ensures b.pc.Done? ==> b.pc == Done(Denied) && Doomed(a.disk, p, base, chain, ph)
    ensures b.pc.Done? || ((b.pc.Settle? || b.pc.Finish? || b.pc.Demote?) && b.pc.task == RollbackTask(wanted))
  {
    PendingPhase(a.disk, p, base, chain, ph, id);
    VerdictOnPhase(a.disk, p, base, chain, ph, id);
  }

  /** The steps of it that are forced. */
  lemma ForcedAdvances(p: Place, d0: Disk, a: Config, b: Config, wanted: Digest, chain: seq<Id>, chain1: seq<Id>,
                       chain2: seq<Id>, doomed0: bool, doomed: bool, doomed': bool)
    requires Work(p, a.disk, a.pc, b.disk, b.pc) && !a.pc.Settle? && Proceeds(a.pc, b.pc)
    requires OnCourse(d0, a.disk, a.pc, p, wanted, chain, chain1, doomed0, doomed)
    requires !RollbackStage(a.pc) ==> chain2 == chain1 && doomed' == doomed
    ensures OnCourse(d0, b.disk, b.pc, p, wanted, chain, chain2, doomed0, doomed')
  {
  }

  /** And the one that is decided. */
  lemma DecidedAdvances(p: Place, d0: Disk, a: Config, b: Config, wanted: Digest, chain: seq<Id>, doomed0: bool)
    requires a.pc.Settle? && OnCourse(d0, a.disk, a.pc, p, wanted, chain, chain, doomed0, doomed0)
    requires b.pc.Done? ==> b.pc == Done(Denied) && (doomed0 || chain == [])
    requires b.pc.Intended? ==> !doomed0 && chain != [] && b.pc.src == chain[|chain| - 1]
    requires b.pc.Done? || b.pc.Intended?
          || ((b.pc.Settle? || b.pc.Finish? || b.pc.Demote?) && b.pc.task == RollbackTask(wanted))
    ensures OnCourse(d0, b.disk, b.pc, p, wanted, chain, chain, doomed0, doomed0)
  {
  }

  /** Where a rollback stands, its disk and its course together. */
  ghost predicate InCourse(p: Place, d0: Disk, c: Config, wanted: Digest, base: Option<Digest>, chain: seq<Id>,
                           chain': seq<Id>, ph': Phase, doomed0: bool)
  {
    && Represents(c.disk, p, base, chain', ph') && InControl(c.disk, p, base, chain', ph', c.pc)
    && OnCourse(d0, c.disk, c.pc, p, wanted, chain, chain', doomed0, Doomed(c.disk, p, base, chain', ph'))
  }

  lemma SettleInCourse(p: Place, d0: Disk, a: Config, b: Config, wanted: Digest, base: Option<Digest>, chain: seq<Id>,
                       ph1: Phase, doomed0: bool)
    returns (ph2: Phase)
    requires Work(p, a.disk, a.pc, b.disk, b.pc) && a.pc == Settle(RollbackTask(wanted))
    requires InCourse(p, d0, a, wanted, base, chain, chain, ph1, doomed0)
    ensures InCourse(p, d0, b, wanted, base, chain, chain, ph2, doomed0)
  {
    ph2 := SettleKeeps(p, a.disk, a.pc.task, b.disk, b.pc, base, chain, ph1);
    SettledAdvances(p, a, b, wanted, base, chain, ph1);
    DecidedAdvances(p, d0, a, b, wanted, chain, doomed0);
  }

  lemma CourseAdvances(p: Place, d0: Disk, a: Config, b: Config, wanted: Digest, base: Option<Digest>, chain: seq<Id>,
                       chain1: seq<Id>, ph1: Phase, doomed0: bool)
    returns (chain2: seq<Id>, ph2: Phase)
    requires Work(p, a.disk, a.pc, b.disk, b.pc) && InCourse(p, d0, a, wanted, base, chain, chain1, ph1, doomed0)
    ensures InCourse(p, d0, b, wanted, base, chain, chain2, ph2, doomed0)
  {
    if a.pc.Settle? {
      chain2 := chain1;
      ph2 := SettleInCourse(p, d0, a, b, wanted, base, chain, ph1, doomed0);
    } else {
      chain2, ph2 := WorkKeeps(p, a.disk, a.pc, b.disk, b.pc, base, chain1, ph1);
      ForcedAdvances(p, d0, a, b, wanted, chain, chain1, chain2, doomed0, Doomed(a.disk, p, base, chain1, ph1),
                     Doomed(b.disk, p, base, chain2, ph2));
    }
  }

  lemma {:induction false} RollbackCourse(p: Place, cs: seq<Config>, base: Option<Digest>, chain: seq<Id>, ph: Phase)
    returns (chain': seq<Id>, ph': Phase)
    requires Trail(p, cs) && cs[0].pc.Enter? && cs[0].pc.task.RollbackTask?
    requires Represents(cs[0].disk, p, base, chain, ph) && !ph.Half?
    ensures InCourse(p, cs[0].disk, Last(cs), cs[0].pc.task.wanted, base, chain, chain', ph',
                     Doomed(cs[0].disk, p, base, chain, ph))
  {
    chain', ph' := chain, ph;
    if |cs| > 1 {
      var init := cs[..|cs| - 1];
      assert forall k :: 0 < k < |init| ==> Work(p, init[k - 1].disk, init[k - 1].pc, init[k].disk, init[k].pc);
      chain', ph' := RollbackCourse(p, init, base, chain, ph);
      chain', ph' := CourseAdvances(p, cs[0].disk, Last(init), Last(cs), cs[0].pc.task.wanted, base, chain, chain', ph',
                                    Doomed(cs[0].disk, p, base, chain, ph));
    }
  }

  /**
   When a rollback succeeds, whatever crash it comes after: from every phase but a half finished rollback, it
   undoes the top exactly when the journal is undamaged, the caller presents the digest of the file, the file
   is accounted for, and there is a governed write to undo. No clock matters.
   */
  lemma RollbackVerdict(p: Place, cs: seq<Config>, base: Option<Digest>, chain: seq<Id>, ph: Phase)
    requires Trail(p, cs) && cs[0].pc.Enter? && cs[0].pc.task.RollbackTask? && Last(cs).pc.Done?
    requires Represents(cs[0].disk, p, base, chain, ph) && !ph.Half?
    ensures Last(cs).pc.result.Undone? <==>
      && cs[0].disk.damaged.Keys == {} && Now(cs[0].disk, p) == Some(cs[0].pc.task.wanted)
      && !Doomed(cs[0].disk, p, base, chain, ph) && chain != []
    ensures Last(cs).pc.result.Undone? ==> Last(cs).pc.result.src == chain[|chain| - 1]
    ensures !Last(cs).pc.result.Undone? ==> Last(cs).pc.result == Denied
  {
    var chain', ph' := RollbackCourse(p, cs, base, chain, ph);
  }

  /** Each operation of a session starts on the disk the one before left. */
  ghost predicate Session(runs: seq<seq<Config>>, from: Disk, to: Disk) {
    if runs == [] then to == from
    else
      var last := runs[|runs| - 1];
      last != [] && to == Last(last).disk && Session(runs[..|runs| - 1], from, last[0].disk)
  }

  lemma PushOne(p: Place, cs: seq<Config>, id: Id, content: Bytes, base: Option<Digest>, chain: seq<Id>)
    requires Written(p, cs, id, content) && Represents(cs[0].disk, p, base, chain, Quiet)
    ensures Represents(Last(cs).disk, p, base, chain + [id], Quiet) && FactsKept(cs[0].disk, Last(cs).disk, p)
  {
    WritePushes(p, cs, id, content, base, chain, Quiet);
    TrailKeepsFacts(p, cs);
  }

  lemma PopOne(p: Place, cs: seq<Config>, src: Id, base: Option<Digest>, chain: seq<Id>) returns (rest: seq<Id>)
    requires RolledOff(p, cs, src) && Represents(cs[0].disk, p, base, chain, Quiet)
    ensures chain == rest + [src]
    ensures Represents(Last(cs).disk, p, base, rest, Quiet) && FactsKept(cs[0].disk, Last(cs).disk, p)
  {
    RollbackPops(p, cs, src, base, chain, Quiet);
    rest := chain[..|chain| - 1];
    TrailKeepsFacts(p, cs);
  }

  /** Each run of the session is a successful write of its content. */
  ghost predicate AllWritten(p: Place, runs: seq<seq<Config>>, ids: seq<Id>, contents: seq<Bytes>) {
    |runs| == |ids| == |contents| && forall k :: 0 <= k < |runs| ==> Written(p, runs[k], ids[k], contents[k])
  }

  lemma AllButLastWritten(p: Place, runs: seq<seq<Config>>, ids: seq<Id>, contents: seq<Bytes>)
    requires AllWritten(p, runs, ids, contents) && runs != []
    ensures var n := |runs| - 1;
      AllWritten(p, runs[..n], ids[..n], contents[..n]) && Written(p, runs[n], ids[n], contents[n])
  {
  }

  lemma StackedOn(chain: seq<Id>, ids: seq<Id>)
    requires ids != []
    ensures var n := |ids| - 1; chain + ids[..n] + [ids[n]] == chain + ids
  {
  }

  lemma {:induction false} WritesStack(p: Place, runs: seq<seq<Config>>, ids: seq<Id>, contents: seq<Bytes>,
                                       from: Disk, to: Disk, base: Option<Digest>, chain: seq<Id>)
    requires AllWritten(p, runs, ids, contents) && Session(runs, from, to)
    requires Represents(from, p, base, chain, Quiet)
    ensures Represents(to, p, base, chain + ids, Quiet) && FactsKept(from, to, p)
  {
    if runs == [] {
      assert chain + ids == chain;
    } else {
      var n := |runs| - 1;
      var mid := runs[n][0].disk;
      AllButLastWritten(p, runs, ids, contents);
      WritesStack(p, runs[..n], ids[..n], contents[..n], from, mid, base, chain);
      PushOne(p, runs[n], ids[n], contents[n], base, chain + ids[..n]);
      FactsKeptOn(from, mid, to, p);
      StackedOn(chain, ids);
    }
  }

  function Reversed(ids: seq<Id>): (r: seq<Id>)
    ensures |r| == |ids|
  {
    if ids == [] then [] else [ids[|ids| - 1]] + Reversed(ids[..|ids| - 1])
  }

  lemma {:induction false} RollbacksUnstack(p: Place, runs: seq<seq<Config>>, srcs: seq<Id>,
                                            from: Disk, to: Disk, base: Option<Digest>, chain: seq<Id>)
    returns (rest: seq<Id>)
    requires |runs| == |srcs| && Session(runs, from, to)
    requires forall k :: 0 <= k < |runs| ==> RolledOff(p, runs[k], srcs[k])
    requires Represents(from, p, base, chain, Quiet)
    ensures chain == rest + Reversed(srcs)
    ensures Represents(to, p, base, rest, Quiet) && FactsKept(from, to, p)
  {
    rest := chain;
    if runs != [] {
      var n := |runs| - 1;
      var above := RollbacksUnstack(p, runs[..n], srcs[..n], from, runs[n][0].disk, base, chain);
      assert RolledOff(p, runs[n], srcs[n]);
      rest := PopOne(p, runs[n], srcs[n], base, above);
      FactsKeptOn(from, runs[n][0].disk, to, p);
    }
  }

  lemma FactsKeptOn(d: Disk, d1: Disk, d2: Disk, p: Place)
    requires FactsKept(d, d1, p) && FactsKept(d1, d2, p)
    ensures FactsKept(d, d2, p)
  {
  }

  lemma TopKept(d: Disk, d': Disk, p: Place, base: Option<Digest>, chain: seq<Id>)
    requires FactsKept(d, d', p)
    requires chain != [] ==> WriteAt(d, p, chain[|chain| - 1]) && d.receipts[chain[|chain| - 1]].state != Prepared
    ensures Top(d', base, chain) == Top(d, base, chain)
    ensures chain != [] ==> WriteAt(d', p, chain[|chain| - 1]) && d'.receipts[chain[|chain| - 1]].state != Prepared
  {
  }

  lemma SameStackSameFile(p: Place, from: Disk, mid: Disk, to: Disk, base: Option<Digest>, chain: seq<Id>)
    requires Represents(from, p, base, chain, Quiet) && Represents(to, p, base, chain, Quiet)
    requires FactsKept(from, mid, p) && FactsKept(mid, to, p)
    ensures p in from.targets <==> p in to.targets
    ensures p in from.targets ==> to.targets[p] == from.targets[p]
  {
    if chain != [] {
      assert LinkAt(from, p, base, chain, |chain| - 1);
      assert from.receipts[chain[|chain| - 1]].state == Verified;
    }
    TopKept(from, mid, p, base, chain);
    TopKept(mid, to, p, base, chain);
    assert Now(to, p) == Now(from, p);
  }

  /**
   As many rollbacks as writes give back the file as it was, whatever contents were written, even
   repeated ones, and undo the writes newest first.
   */
  lemma {:induction false} UndoAll(p: Place, writes: seq<seq<Config>>, ids: seq<Id>, contents: seq<Bytes>,
                rollbacks: seq<seq<Config>>, srcs: seq<Id>, from: Disk, mid: Disk, to: Disk,
                base: Option<Digest>, chain: seq<Id>)
    requires |writes| == |ids| == |contents| == |rollbacks| == |srcs|
    requires Session(writes, from, mid) && Session(rollbacks, mid, to)
    requires forall k :: 0 <= k < |writes| ==> Written(p, writes[k], ids[k], contents[k])
    requires forall k :: 0 <= k < |rollbacks| ==> RolledOff(p, rollbacks[k], srcs[k])
    requires Represents(from, p, base, chain, Quiet)
    ensures Represents(to, p, base, chain, Quiet)
    ensures ids == Reversed(srcs)
    ensures p in from.targets <==> p in to.targets
    ensures p in from.targets ==> to.targets[p] == from.targets[p]
  {
    WritesStack(p, writes, ids, contents, from, mid, base, chain);
    var rest := RollbacksUnstack(p, rollbacks, srcs, mid, to, base, chain + ids);
    assert rest == (chain + ids)[..|chain|] == chain;
    assert ids == (chain + ids)[|chain|..] == Reversed(srcs);
    SameStackSameFile(p, from, mid, to, base, chain);
  }
}
