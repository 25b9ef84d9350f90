/**
 A blocked place once the operator has put back by hand what the newest verified write left: what a
 rollback of it can still do, and what it cannot.
 */
module Unblocking {
  import opened Wrappers
  import opened Journal
  import opened Protocol
  import opened Lineage
  import opened Safety
  import opened Trails

  function Without(d: Disk, x: Id): Disk {
    d.(receipts := d.receipts - {x})
  }

  /** The file is as the stack has it, and only the blocking receipt `x` says otherwise. */
  ghost predicate PutBack(d: Disk, p: Place, base: Option<Digest>, chain: seq<Id>, x: Id) {
    && Blocking(d, p, x) && x !in chain && Represents(Without(d, x), p, base, chain, Quiet)
    && (chain != [] ==> !MadeOn(d, chain[0], x)) && !UndoneAlready(d, p, x)
  }

  ghost predicate UndoneAlready(d: Disk, p: Place, x: Id) {
    exists rb :: At(d, p, rb) && d.receipts[rb].Rollback?
                 && d.receipts[rb].state == Verified && d.receipts[rb].rollbackOf == x
  }

  /** An outside edit of a blocked file that restores the bytes of the top of its stack. */
  lemma OperatorPutsBack(d: Disk, d': Disk, p: Place, base: Option<Digest>, chain: seq<Id>, x: Id)
    requires Represents(d, p, base, chain, Blocked(x)) && d' == d.(targets := d'.targets)
    requires Now(d', p) == Top(d, base, chain)
    ensures PutBack(d', p, base, chain, x)
  {
    var q := Without(d', x);
    StackWrites(d, p, base, chain);
    if chain != [] { assert LinkAt(d, p, base, chain, 0); }
    StackWithout(d, q, p, base, chain, x);
    forall j | WriteAt(q, p, j) ensures HasBackup(q, j) { assert HasBackup(d, j); }
    forall j | At(q, p, j) && j !in chain ensures Retired(q, p, j) { assert Retired(d, p, j); }
    assert forall i :: 0 <= i < |chain| ==> chain[i] in chain;
    assert forall rb :: At(d, p, rb) && d.receipts[rb].Rollback? && d.receipts[rb].state == Verified ==>
      rb !in chain && Retired(d, p, rb);
  }

  lemma StackWithout(d: Disk, q: Disk, p: Place, base: Option<Digest>, chain: seq<Id>, x: Id)
    requires Stack(d, p, base, chain) && x !in chain && q.receipts == d.receipts - {x}
    ensures Stack(q, p, base, chain) && Top(q, base, chain) == Top(d, base, chain)
  {
    StackWrites(d, p, base, chain);
    forall i | 0 <= i < |chain| ensures LinkAt(q, p, base, chain, i) {
      assert LinkAt(d, p, base, chain, i) && chain[i] in chain;
      if i > 0 { assert chain[..i][|chain[..i]| - 1] == chain[i - 1] && chain[i - 1] in chain; }
    }
    if chain != [] { assert chain[|chain| - 1] in chain; }
  }

  lemma StackWith(d: Disk, p: Place, base: Option<Digest>, chain: seq<Id>, x: Id)
    requires PutBack(d, p, base, chain, x)
    ensures Stack(d, p, base, chain) && AllVerified(d, chain) && Accounted(d, p, chain, {x})
    ensures Top(d, base, chain) == Now(d, p) && !AnyPending(d, p)
  {
    var q := Without(d, x);
    StackWrites(q, p, base, chain);
    forall i | 0 <= i < |chain| ensures LinkAt(d, p, base, chain, i) {
      assert LinkAt(q, p, base, chain, i);
      if i > 0 { assert chain[..i][|chain[..i]| - 1] == chain[i - 1]; } else { assert chain[..i] == []; }
    }
    forall j | At(d, p, j) && j !in chain && j != x ensures Retired(d, p, j) {
      assert Retired(q, p, j);
      assert d.receipts[j].Rollback? && d.receipts[j].state == Verified ==>
        SourceUndone(d, p, d.receipts[j].rollbackOf);
    }
    if j :| Pending(d, p, j) { PendingPhase(q, p, base, chain, Quiet, j); }
  }

  /** The receipts of `d0` are all there, only `src` in another state, and new ones undo `src`. */
  ghost predicate Facts(d0: Disk, d: Disk, src: Id) {
    && (forall id :: id in d0.receipts && id != src ==> id in d.receipts && d.receipts[id] == d0.receipts[id])
    && src in d0.receipts && src in d.receipts && d.receipts[src] == WithState(d0.receipts[src], d.receipts[src].state)
    && forall id :: id in d.receipts && id !in d0.receipts ==>
         d.receipts[id].Rollback? && d.receipts[id].rollbackOf == src
  }

  /** A rollback of such a place can begin. */
  ghost predicate Granted(d: Disk, p: Place, wanted: Digest, chain: seq<Id>, x: Id) {
    d.damaged.Keys == {} && Now(d, p) == Some(wanted) && chain != [] && !MadeOn(d, x, chain[|chain| - 1])
  }

  /** Where the rollback stands, told from the disk it started on. */
  ghost predicate Underway(d0: Disk, d: Disk, pc: Pc, p: Place, wanted: Digest, chain: seq<Id>, x: Id) {
    match pc
    case Enter(t) => t == RollbackTask(wanted) && d == d0
    case Settle(t) => t == RollbackTask(wanted) && d == d0 && d0.damaged.Keys == {} && Now(d0, p) == Some(wanted)
    case Intended(rb, src) => OnItsWay(d0, d, p, wanted, chain, x, src) && rb !in d0.receipts
    case Restored(rb, src) => OnItsWay(d0, d, p, wanted, chain, x, src) && rb !in d0.receipts
    case Logged(rb, src) => OnItsWay(d0, d, p, wanted, chain, x, src) && rb !in d0.receipts
    case HalfDone(src) => OnItsWay(d0, d, p, wanted, chain, x, src)
    case Done(Undone(src)) => OnItsWay(d0, d, p, wanted, chain, x, src)
    case Done(Denied) => d == d0 && !Granted(d0, p, wanted, chain, x)
    case Done(Failed) => OnItsWay(d0, d, p, wanted, chain, x, if chain == [] then x else chain[|chain| - 1])
    case _ => false
  }

  ghost predicate OnItsWay(d0: Disk, d: Disk, p: Place, wanted: Digest, chain: seq<Id>, x: Id, src: Id) {
    Granted(d0, p, wanted, chain, x) && src == chain[|chain| - 1] && Facts(d0, d, src)
  }

  lemma PutBackSelects(d: Disk, p: Place, base: Option<Digest>, chain: seq<Id>, x: Id, h: Digest, src: Id)
    requires PutBack(d, p, base, chain, x) && Now(d, p) == Some(h)
    ensures Selects(d, p, h, Head(src)) <==> chain != [] && src == chain[|chain| - 1] && !MadeOn(d, x, src)
    ensures Selects(Without(d, x), p, h, Head(src)) <==> chain != [] && src == chain[|chain| - 1]
  {
    StackWith(d, p, base, chain, x);
    BlockedSelectsIff(d, p, base, chain, x, h, src);
    SelectsTop(Without(d, x), p, base, chain, h, src);
  }

  lemma SettleUnderway(d0: Disk, p: Place, base: Option<Digest>, chain: seq<Id>, x: Id, wanted: Digest, d': Disk,
                       pc': Pc)
    requires PutBack(d0, p, base, chain, x) && Now(d0, p) == Some(wanted) && d0.damaged.Keys == {}
    requires BeginRollback(p, d0, wanted, d', pc')
    ensures Underway(d0, d', pc', p, wanted, chain, x)
    ensures pc'.Intended? ==> BeginRollback(p, Without(d0, x), wanted, Without(d', x), pc')
  {
    if pc'.Intended? {
      PutBackSelects(d0, p, base, chain, x, wanted, pc'.src);
      TopStands(d0, p, base, chain, x);
      assert Without(d', x).receipts == Without(d0, x).receipts[pc'.rb := d'.receipts[pc'.rb]];
    } else if chain != [] {
      PutBackSelects(d0, p, base, chain, x, wanted, chain[|chain| - 1]);
    }
  }

  lemma NothingPending(d: Disk, p: Place, base: Option<Digest>, chain: seq<Id>, x: Id)
    requires PutBack(d, p, base, chain, x)
    ensures !AnyPending(d, p) && !AnyPending(Without(d, x), p)
  {
    StackWith(d, p, base, chain, x);
    assert forall j :: Pending(Without(d, x), p, j) ==> Pending(d, p, j);
  }

  lemma TopStands(d: Disk, p: Place, base: Option<Digest>, chain: seq<Id>, x: Id)
    requires PutBack(d, p, base, chain, x) && chain != []
    ensures WriteAt(d, p, chain[|chain| - 1]) && chain[|chain| - 1] != x
  {
    StackWrites(Without(d, x), p, base, chain);
    assert chain[|chain| - 1] in chain;
  }

  lemma RestoreShadow(d: Disk, p: Place, rb: Id, src: Id, x: Id, d': Disk, pc': Pc)
    requires RestoreTarget(p, d, rb, src, d', pc') && x != rb && x != src
    ensures RestoreTarget(p, Without(d, x), rb, src, Without(d', x), pc')
    ensures pc' == Done(Failed) || pc' == Restored(rb, src)
    ensures forall id :: id != rb && id in d.receipts ==> id in d'.receipts && d'.receipts[id] == d.receipts[id]
    ensures d'.receipts.Keys == d.receipts.Keys
    ensures d.receipts[rb].Rollback? ==>
      d'.receipts[rb].Rollback? && d'.receipts[rb].rollbackOf == d.receipts[rb].rollbackOf
  {
    assert SetState(Without(d, x), rb, RecoveryRequired).receipts ==
      Without(SetState(d, rb, RecoveryRequired), x).receipts;
  }

  lemma RecordShadow(d: Disk, p: Place, rb: Id, src: Id, x: Id, d': Disk, pc': Pc)
    requires RecordRestored(p, d, rb, src, d', pc') && x != rb && x != src
    ensures RecordRestored(p, Without(d, x), rb, src, Without(d', x), pc')
    ensures pc' == Done(Failed) || pc' == Logged(rb, src)
    ensures forall id :: id != rb && id in d.receipts ==> id in d'.receipts && d'.receipts[id] == d.receipts[id]
    ensures d'.receipts.Keys == d.receipts.Keys
    ensures d'.receipts[rb].Rollback? && d'.receipts[rb].rollbackOf == d.receipts[rb].rollbackOf
  {
    assert Without(d', x).receipts == Without(d, x).receipts[rb := d'.receipts[rb]];
  }

  lemma StateShadow(d: Disk, id: Id, st: TxState, x: Id)
    requires id in d.receipts && x != id
    ensures SetState(Without(d, x), id, st) == Without(SetState(d, id, st), x)
  {
    assert SetState(Without(d, x), id, st).receipts == Without(SetState(d, id, st), x).receipts;
  }

  // The later steps leave the blocking receipt alone and do not read it.

  lemma IntendedUnderway(d0: Disk, p: Place, base: Option<Digest>, chain: seq<Id>, x: Id, wanted: Digest,
                         d: Disk, rb: Id, src: Id, d': Disk, pc': Pc)
    requires PutBack(d0, p, base, chain, x) && Underway(d0, d, Intended(rb, src), p, wanted, chain, x)
    requires RestoreTarget(p, d, rb, src, d', pc')
    ensures Underway(d0, d', pc', p, wanted, chain, x) && RestoreTarget(p, Without(d, x), rb, src, Without(d', x), pc')
  {
    TopStands(d0, p, base, chain, x);
    RestoreShadow(d, p, rb, src, x, d', pc');
  }

  lemma RestoredUnderway(d0: Disk, p: Place, base: Option<Digest>, chain: seq<Id>, x: Id, wanted: Digest,
                         d: Disk, rb: Id, src: Id, d': Disk, pc': Pc)
    requires PutBack(d0, p, base, chain, x) && Underway(d0, d, Restored(rb, src), p, wanted, chain, x)
    requires RecordRestored(p, d, rb, src, d', pc')
    ensures Underway(d0, d', pc', p, wanted, chain, x) && RecordRestored(p, Without(d, x), rb, src, Without(d', x), pc')
  {
    TopStands(d0, p, base, chain, x);
    RecordShadow(d, p, rb, src, x, d', pc');
  }

  lemma LoggedUnderway(d0: Disk, p: Place, base: Option<Digest>, chain: seq<Id>, x: Id, wanted: Digest,
                       d: Disk, pc: Pc, d': Disk, pc': Pc)
    requires PutBack(d0, p, base, chain, x) && Underway(d0, d, pc, p, wanted, chain, x) && Work(p, d, pc, d', pc')
    requires pc.Logged?
    ensures Underway(d0, d', pc', p, wanted, chain, x) && Work(p, Without(d, x), pc, Without(d', x), pc')
  {
    TopStands(d0, p, base, chain, x);
    StateShadow(d, pc.rb, Verified, x);
  }

  lemma HalfDoneUnderway(d0: Disk, p: Place, base: Option<Digest>, chain: seq<Id>, x: Id, wanted: Digest,
                         d: Disk, pc: Pc, d': Disk, pc': Pc)
    requires PutBack(d0, p, base, chain, x) && Underway(d0, d, pc, p, wanted, chain, x) && Work(p, d, pc, d', pc')
    requires pc.HalfDone?
    ensures Underway(d0, d', pc', p, wanted, chain, x) && Work(p, Without(d, x), pc, Without(d', x), pc')
  {
    TopStands(d0, p, base, chain, x);
    StateShadow(d, pc.src, RolledBack, x);
  }

  lemma StepUnderway(d0: Disk, p: Place, base: Option<Digest>, chain: seq<Id>, x: Id, wanted: Digest,
                     d: Disk, pc: Pc, d': Disk, pc': Pc)
    requires PutBack(d0, p, base, chain, x) && Underway(d0, d, pc, p, wanted, chain, x) && Work(p, d, pc, d', pc')
    ensures Underway(d0, d', pc', p, wanted, chain, x)
    ensures pc' == Done(Denied) || Work(p, Without(d, x), pc, Without(d', x), pc')
  {
    if pc.Intended? {
      IntendedUnderway(d0, p, base, chain, x, wanted, d, pc.rb, pc.src, d', pc');
    } else if pc.Restored? {
      RestoredUnderway(d0, p, base, chain, x, wanted, d, pc.rb, pc.src, d', pc');
    } else if pc.Logged? {
      LoggedUnderway(d0, p, base, chain, x, wanted, d, pc, d', pc');
    } else if pc.HalfDone? {
      HalfDoneUnderway(d0, p, base, chain, x, wanted, d, pc, d', pc');
    } else if pc.Settle? {
      NothingPending(d0, p, base, chain, x);
      SettleUnderway(d0, p, base, chain, x, wanted, d', pc');
    }
  }

  function Shadow(cs: seq<Config>, x: Id): seq<Config> {
    seq(|cs|, k requires 0 <= k < |cs| => Config(Without(cs[k].disk, x), cs[k].pc))
  }

  lemma ShadowGrows(p: Place, cs: seq<Config>, x: Id)
    requires |cs| > 1 && Trail(p, Shadow(cs[..|cs| - 1], x))
    requires var a, b := cs[|cs| - 2], cs[|cs| - 1]; Work(p, Without(a.disk, x), a.pc, Without(b.disk, x), b.pc)
    ensures Trail(p, Shadow(cs, x))
  {
    var s, s0 := Shadow(cs, x), Shadow(cs[..|cs| - 1], x);
    forall k | 0 < k < |s| ensures Work(p, s[k - 1].disk, s[k - 1].pc, s[k].disk, s[k].pc) {
      if k < |s0| { assert s[k] == s0[k] && s[k - 1] == s0[k - 1]; }
    }
  }

  lemma {:induction false} Follows(p: Place, cs: seq<Config>, base: Option<Digest>, chain: seq<Id>, x: Id)
    requires Trail(p, cs) && cs[0].pc.Enter? && cs[0].pc.task.RollbackTask? && PutBack(cs[0].disk, p, base, chain, x)
    ensures Underway(cs[0].disk, Last(cs).disk, Last(cs).pc, p, cs[0].pc.task.wanted, chain, x)
    ensures Last(cs).pc == Done(Denied) || Trail(p, Shadow(cs, x))
  {
    if |cs| > 1 {
      var init, a, b := cs[..|cs| - 1], cs[|cs| - 2], cs[|cs| - 1];
      assert forall k :: 0 < k < |init| ==> Work(p, init[k - 1].disk, init[k - 1].pc, init[k].disk, init[k].pc);
      Follows(p, init, base, chain, x);
      assert Last(init) == a && Work(p, a.disk, a.pc, b.disk, b.pc);
      StepUnderway(cs[0].disk, p, base, chain, x, cs[0].pc.task.wanted, a.disk, a.pc, b.disk, b.pc);
      if b.pc != Done(Denied) { ShadowGrows(p, cs, x); }
    }
  }

  /**
   A rollback of a blocked place whose file was put back: it succeeds if and only if the journal is
   undamaged, the presented digest is the file's, there is a write to undo, and the blocking receipt is
   not a write made on that very one. It undoes the top, the place stays blocked, and the next rollback
   finds the same situation one write further down.
   */
  lemma PutBackVerdict(p: Place, cs: seq<Config>, base: Option<Digest>, chain: seq<Id>, x: Id)
    requires Trail(p, cs) && cs[0].pc.Enter? && cs[0].pc.task.RollbackTask? && Last(cs).pc.Done?
    requires PutBack(cs[0].disk, p, base, chain, x)
    ensures Last(cs).pc.result.Undone? <==> Granted(cs[0].disk, p, cs[0].pc.task.wanted, chain, x)
    ensures !Last(cs).pc.result.Undone? ==> Last(cs).pc.result == Denied && Last(cs).disk == cs[0].disk
    ensures Last(cs).pc.result.Undone? ==>
      var d, n := Last(cs).disk, |chain| - 1;
      && Last(cs).pc.result.src == chain[n] && PutBack(d, p, base, chain[..n], x)
      && WriteAt(d, p, chain[n]) && Now(d, p) == d.receipts[chain[n]].pre
  {
    Follows(p, cs, base, chain, x);
    if Last(cs).pc != Done(Denied) {
      var s, n := Shadow(cs, x), |chain| - 1;
      assert s[0].disk == Without(cs[0].disk, x) && Last(s).pc == Last(cs).pc;
      RollbackVerdict(p, s, base, chain, Quiet);
      RollbackPops(p, s, chain[n], base, chain, Quiet);
      StaysPutBack(p, cs[0].disk, Last(cs).disk, base, chain, x);
    }
  }

  lemma StaysPutBack(p: Place, d0: Disk, d: Disk, base: Option<Digest>, chain: seq<Id>, x: Id)
    requires PutBack(d0, p, base, chain, x) && chain != [] && Facts(d0, d, chain[|chain| - 1])
    requires Represents(Without(d, x), p, base, chain[..|chain| - 1], Quiet)
    ensures PutBack(d, p, base, chain[..|chain| - 1], x)
  {
    var n := |chain| - 1;
    TopStands(d0, p, base, chain, x);
    StackWith(d0, p, base, chain, x);
    StackWrites(d0, p, base, chain);
    if n > 0 {
      assert chain[..n][0] == chain[0] && chain[0] in chain && chain[0] != chain[n];
    }
    assert forall rb :: At(d, p, rb) && d.receipts[rb].Rollback? && rb in d0.receipts ==>
      d.receipts[rb] == d0.receipts[rb];
  }

  /** No write of the place succeeds, put back or not: the blocking receipt outlives every rollback. */
  lemma WritesStayDenied(p: Place, cs: seq<Config>, base: Option<Digest>, chain: seq<Id>, x: Id)
    requires Trail(p, cs) && cs[0].pc.Enter? && cs[0].pc.task.WriteTask? && PutBack(cs[0].disk, p, base, chain, x)
    ensures Last(cs).disk == cs[0].disk && (Last(cs).pc.Done? ==> Last(cs).pc.result == Denied)
  {
    StackWith(cs[0].disk, p, base, chain, x);
    WriteHalts(p, cs, x);
  }

  lemma {:induction false} WriteHalts(p: Place, cs: seq<Config>, x: Id)
    requires Trail(p, cs) && cs[0].pc.Enter? && cs[0].pc.task.WriteTask?
    requires Blocking(cs[0].disk, p, x) && !AnyPending(cs[0].disk, p)
    ensures Last(cs).disk == cs[0].disk
    ensures Last(cs).pc == cs[0].pc || Last(cs).pc == Settle(cs[0].pc.task) || Last(cs).pc == Done(Denied)
  {
    if |cs| > 1 {
      var init, a, b := cs[..|cs| - 1], cs[|cs| - 2], cs[|cs| - 1];
      assert forall k :: 0 < k < |init| ==> Work(p, init[k - 1].disk, init[k - 1].pc, init[k].disk, init[k].pc);
      WriteHalts(p, init, x);
      assert Work(p, a.disk, a.pc, b.disk, b.pc);
    }
  }
}
