/**
 What can happen: runs from an empty store into each of the states the failures start from. Every prefix
 of an operation's trail, cut short by a crash, is the end of some run.
 */
module Witnesses {
  import opened Wrappers
  import opened Journal
  import opened Protocol
  import opened Lineage
  import opened Safety
  import opened UndoStack
  import opened Trails
  import opened Scripts
  import Recovery
  import Crashes
  import HalfRollback
  import PruningRuns
  import Unlinking

  /** A run in progress: orderly, from an empty store, and nobody at work now. */
  ghost predicate Resting(p: Place, states: seq<State>, events: seq<Event>) {
    OrderlyRun(p, states, events) && Init(p, states[0]) && states[|events|].holder == None
  }

  /** Resting, settled and undamaged over the stack `chain`. */
  ghost predicate Settled(p: Place, states: seq<State>, events: seq<Event>, chain: seq<Id>) {
    && Resting(p, states, events)
    && Represents(states[|events|].disk, p, Now(states[0].disk, p), chain, Quiet)
    && states[|events|].disk.damaged.Keys == {}
  }

  lemma RunsOn(p: Place, states: seq<State>, events: seq<Event>, e: Event, s': State)
    requires OrderlyRun(p, states, events) && Step(p, states[|events|], e, s') && Orderly(p, states[|events|], e)
    ensures OrderlyRun(p, states + [s'], events + [e])
  {
    var all, es := states + [s'], events + [e];
    forall k | 0 <= k < |es| ensures Step(p, all[k], es[k], all[k + 1]) && Orderly(p, all[k], es[k]) {
      if k < |events| { assert Step(p, states[k], events[k], states[k + 1]) && Orderly(p, states[k], events[k]); }
    }
  }

  /** A process at step `k` of its trail. */
  function Standing(s: State, pid: Pid, c: Config): State {
    State(c.disk, if c.pc.Done? then None else Some(pid), s.pcs[pid := c.pc])
  }

  /** A new process that takes the lock and follows `cs` up to its step `k`. */
  lemma {:induction false} Follow(p: Place, states: seq<State>, events: seq<Event>, pid: Pid, cs: seq<Config>, k: nat)
    returns (states': seq<State>, events': seq<Event>)
    requires Resting(p, states, events) && pid !in states[|events|].pcs
    requires Trail(p, cs) && k < |cs| && cs[0].pc.Enter? && cs[0].disk == states[|events|].disk
    requires !cs[0].pc.task.RecoverTask? ==> !AnyHalfFinished(cs[0].disk, p)
    ensures OrderlyRun(p, states', events') && states <= states'
    ensures states'[|events'|] == Standing(states[|events|], pid, cs[k])
  {
    var s := states[|events|];
    if k == 0 {
      var s1 := s.(pcs := s.pcs[pid := Start(cs[0].pc.task)]);
      RunsOn(p, states, events, Arrive(pid, cs[0].pc.task), s1);
      states', events' := states + [s1], events + [Arrive(pid, cs[0].pc.task)];
      assert Standing(s, pid, cs[0]).pcs == s1.pcs[pid := cs[0].pc];
      RunsOn(p, states', events', Acquire(pid), Standing(s, pid, cs[0]));
      states', events' := states' + [Standing(s, pid, cs[0])], events' + [Acquire(pid)];
    } else {
      var states0, events0 := Follow(p, states, events, pid, cs, k - 1);
      var x, y := Standing(s, pid, cs[k - 1]), Standing(s, pid, cs[k]);
      assert Work(p, cs[k - 1].disk, cs[k - 1].pc, cs[k].disk, cs[k].pc);
      WorkLeaves(p, cs[k - 1].disk, cs[k - 1].pc, cs[k].disk, cs[k].pc);
      assert y.pcs == x.pcs[pid := y.pcs[pid]];
      RunsOn(p, states0, events0, Act(pid), y);
      states', events' := states0 + [y], events0 + [Act(pid)];
    }
  }

  /** The same, and then it crashes. */
  lemma FollowAndCrash(p: Place, states: seq<State>, events: seq<Event>, pid: Pid, cs: seq<Config>, k: nat)
    returns (states': seq<State>, events': seq<Event>)
    requires Resting(p, states, events) && pid !in states[|events|].pcs
    requires Trail(p, cs) && k < |cs| && cs[0].pc.Enter? && cs[0].disk == states[|events|].disk
    requires !cs[0].pc.task.RecoverTask? ==> !AnyHalfFinished(cs[0].disk, p)
    ensures Resting(p, states', events') && states <= states'
    ensures states'[|events'|].disk == cs[k].disk && states'[|events'|].pcs.Keys == states[|events|].pcs.Keys
  {
    states', events' := Follow(p, states, events, pid, cs, k);
    var x := states'[|events'|];
    var y := x.(pcs := x.pcs - {pid}, holder := None);
    RunsOn(p, states', events', Crash(pid), y);
    states', events' := states' + [y], events' + [Crash(pid)];
  }

  lemma TrailPrefix(p: Place, cs: seq<Config>, k: nat)
    requires Trail(p, cs) && k < |cs|
    ensures Trail(p, cs[..k + 1]) && Last(cs[..k + 1]) == cs[k]
  {
    assert forall i :: 0 < i < k + 1 ==> Work(p, cs[i - 1].disk, cs[i - 1].pc, cs[i].disk, cs[i].pc);
  }

  lemma SettledWritable(p: Place, states: seq<State>, events: seq<Event>, chain: seq<Id>, id: Id)
    requires Settled(p, states, events, chain) && chain != []
    requires var d := states[|events|].disk;
      && (p in d.targets ==> |d.targets[p]| <= MAX_BACKUP_BYTES) && id.RecoveryId? && Fresh(d, id) && id !in d.backups
    ensures var d := states[|events|].disk;
      && Writable(d, p, id) && !AnyHalfFinished(d, p) && LinkFor(d, p, Now(d, p), Some(chain[|chain| - 1]))
  {
    var d, base := states[|events|].disk, Now(states[0].disk, p);
    HalfRollback.HalfIsVisible(d, p, base, chain, Quiet);
    LinkToTop(d, p, base, chain);
    if j :| Pending(d, p, j) { PendingPhase(d, p, base, chain, Quiet, j); }
    if j :| Blocking(d, p, j) { BlockingPhase(d, p, base, chain, Quiet, j); }
  }

  /** Over a settled stack any further write can run to its end. */
  lemma WriteRuns(p: Place, states: seq<State>, events: seq<Event>, chain: seq<Id>, pid: Pid, id: Id, content: Bytes,
                  link: Option<Id>)
    returns (states': seq<State>, events': seq<Event>)
    requires Settled(p, states, events, chain) && pid !in states[|events|].pcs
    requires var d := states[|events|].disk;
      Writable(d, p, id) && !AnyHalfFinished(d, p) && LinkFor(d, p, Now(d, p), link)
    ensures Settled(p, states', events', chain + [id]) && states <= states'
    ensures states'[|events'|].disk == Scripts.Written(states[|events|].disk, p, content, id, link, Verified)
    ensures states'[|events'|].pcs.Keys == states[|events|].pcs.Keys + {pid}
  {
    var d := states[|events|].disk;
    var cs := WriteScript(d, p, content, id, link);
    WriteScriptIsTrail(d, p, content, id, link);
    states', events' := Follow(p, states, events, pid, cs, 6);
    WritePushes(p, cs, id, content, Now(states[0].disk, p), chain, Quiet);
  }

  /** Over a settled stack any rollback can be cut short between its two terminal writes. */
  lemma RollbackStops(p: Place, states: seq<State>, events: seq<Event>, chain: seq<Id>, pid: Pid, rb: Id)
    returns (states': seq<State>, events': seq<Event>)
    requires Settled(p, states, events, chain) && chain != [] && pid !in states[|events|].pcs
    requires rb.RollbackId? && Fresh(states[|events|].disk, rb)
    ensures Resting(p, states', events') && states <= states'
    ensures var n := |chain| - 1;
      Represents(states'[|events'|].disk, p, Now(states[0].disk, p), chain[..n], Half(rb, chain[n]))
    ensures var d, x := states[|events|].disk, states'[|events'|].disk;
      && x.receipts.Keys == d.receipts.Keys + {rb} && x.damaged == d.damaged && x.backups == d.backups
      && (forall j :: j in d.receipts && j != rb ==> x.receipts[j] == d.receipts[j])
      && x.receipts[rb].Rollback? && x.receipts[rb].rollbackOf == chain[|chain| - 1]
  {
    var d, base, top := states[|events|].disk, Now(states[0].disk, p), chain[|chain| - 1];
    HalfRollback.HalfIsVisible(d, p, base, chain, Quiet);
    TopUndoable(d, p, base, chain, rb);
    var h := Now(d, p).value;
    var cs := RollbackScript(d, p, h, rb, top);
    RollbackScriptIsTrail(d, p, h, rb, top);
    states', events' := FollowAndCrash(p, states, events, pid, cs, 5);
    TrailPrefix(p, cs, 5);
    var chain', ph' := RollbackTrail(p, cs[..6], base, chain, Quiet);
    assert cs[5].pc == HalfDone(top);
    OnlyHalf(cs[5].disk, p, base, chain', ph', rb);
    assert chain == chain' + [top] && chain' == chain[..|chain| - 1];
  }

  lemma OnlyHalf(d: Disk, p: Place, base: Option<Digest>, chain: seq<Id>, ph: Phase, rb: Id)
    requires Represents(d, p, base, chain, ph) && ph.Half?
    requires Journal.At(d, p, rb) && d.receipts[rb].Rollback? && d.receipts[rb].rollbackOf == ph.src
    requires d.receipts[rb].state == Verified
    ensures ph.rb == rb
  {
    StackWrites(d, p, base, chain);
    assert rb !in chain && !Retired(d, p, rb);
  }

  /** An empty store and one file of it. */
  function Empty(): State {
    State(Disk(map[], map[], map[], map[]), None, map[])
  }

  lemma EmptySettled(p: Place)
    ensures Settled(p, [Empty()], [], []) && Writable(Empty().disk, p, RecoveryId(0))
    ensures !AnyHalfFinished(Empty().disk, p) && LinkFor(Empty().disk, p, None, None)
  {
  }

  lemma WrittenNames(d: Disk, p: Place, content: Bytes, id: Id, link: Option<Id>, other: Id)
    requires Fresh(d, other) && other != id && link != Some(other)
    ensures var x := Scripts.Written(d, p, content, id, link, Verified);
      x.receipts.Keys == d.receipts.Keys + {id} && x.damaged == d.damaged && Fresh(x, other)
  {
  }

  /** The file created with `a`. */
  lemma WriteOnce(p: Place, a: Bytes) returns (states: seq<State>, events: seq<Event>)
    ensures Settled(p, states, events, [RecoveryId(0)]) && Now(states[0].disk, p) == None
    ensures var s := states[|events|];
      && s.pcs.Keys == {0} && Fresh(s.disk, RollbackId(0)) && Fresh(s.disk, RecoveryId(1))
      && Fresh(s.disk, RecoveryId(2))
      && s.disk.backups == map[] && p in s.disk.targets && s.disk.targets[p] == a
      && s.disk.receipts.Keys == {RecoveryId(0)}
  {
    EmptySettled(p);
    states, events := WriteRuns(p, [Empty()], [], [], 0, RecoveryId(0), a, None);
    WrittenNames(Empty().disk, p, a, RecoveryId(0), None, RecoveryId(1));
    WrittenNames(Empty().disk, p, a, RecoveryId(0), None, RecoveryId(2));
    WrittenNames(Empty().disk, p, a, RecoveryId(0), None, RollbackId(0));
    assert [] + [RecoveryId(0)] == [RecoveryId(0)];
    assert states[0] == Empty();
  }

  /** The file created with `a` and overwritten with `b`. */
  lemma WriteTwice(p: Place, a: Bytes, b: Bytes) returns (states: seq<State>, events: seq<Event>)
    requires |a| <= MAX_BACKUP_BYTES
    ensures Settled(p, states, events, [RecoveryId(0), RecoveryId(1)]) && Now(states[0].disk, p) == None
    ensures var s := states[|events|];
      && s.pcs.Keys == {0, 1} && Fresh(s.disk, RollbackId(0)) && Fresh(s.disk, RecoveryId(2))
      && RecoveryId(2) !in s.disk.backups && Post(s.disk, RecoveryId(1)) == Some(Sha256(b))
      && Post(s.disk, RecoveryId(0)) == Some(Sha256(a)) && p in s.disk.targets && s.disk.targets[p] == b
  {
    states, events := WriteOnce(p, a);
    var d := states[|events|].disk;
    SettledWritable(p, states, events, [RecoveryId(0)], RecoveryId(1));
    WrittenNames(d, p, b, RecoveryId(1), Some(RecoveryId(0)), RollbackId(0));
    WrittenNames(d, p, b, RecoveryId(1), Some(RecoveryId(0)), RecoveryId(2));
    assert Post(d, RecoveryId(0)) == Some(Sha256(a));
    states, events := WriteRuns(p, states, events, [RecoveryId(0)], 1, RecoveryId(1), b, Some(RecoveryId(0)));
    assert [RecoveryId(0)] + [RecoveryId(1)] == [RecoveryId(0), RecoveryId(1)];
  }

  /** There is a run from an empty store to a half finished rollback with a write below it. */
  lemma HalfFinishedHappens(p: Place, a: Bytes, b: Bytes) returns (states: seq<State>, events: seq<Event>)
    requires |a| <= MAX_BACKUP_BYTES
    ensures Resting(p, states, events) && AnyHalfFinished(states[|events|].disk, p)
    ensures var d := states[|events|].disk;
      && Represents(d, p, None, [RecoveryId(0)], Half(RollbackId(0), RecoveryId(1))) && d.damaged.Keys == {}
      && p in d.targets && d.targets[p] == a && Post(d, RecoveryId(1)) == Some(Sha256(b))
      && Fresh(d, RecoveryId(2)) && RecoveryId(2) !in d.backups
  {
    var chain := [RecoveryId(0), RecoveryId(1)];
    states, events := WriteTwice(p, a, b);
    var d := states[|events|].disk;
    states, events := RollbackStops(p, states, events, chain, 2, RollbackId(0));
    assert chain[..1] == [RecoveryId(0)];
    UndoneFile(p, d, states[|events|].disk, a, b);
  }

  lemma UndoneFile(p: Place, d: Disk, x: Disk, a: Bytes, b: Bytes)
    requires {RecoveryId(0), RecoveryId(1)} <= d.receipts.Keys && Fresh(d, RecoveryId(2))
    requires Post(d, RecoveryId(0)) == Some(Sha256(a)) && Post(d, RecoveryId(1)) == Some(Sha256(b))
    requires x.receipts.Keys == d.receipts.Keys + {RollbackId(0)} && x.damaged == d.damaged
    requires forall j :: j in d.receipts && j != RollbackId(0) ==> x.receipts[j] == d.receipts[j]
    requires x.receipts[RollbackId(0)].Rollback? && x.receipts[RollbackId(0)].rollbackOf == RecoveryId(1)
    requires Represents(x, p, None, [RecoveryId(0)], Half(RollbackId(0), RecoveryId(1)))
    ensures p in x.targets && x.targets[p] == a && AnyHalfFinished(x, p)
    ensures Post(x, RecoveryId(1)) == Some(Sha256(b)) && Fresh(x, RecoveryId(2))
  {
    HalfRollback.HalfIsVisible(x, p, None, [RecoveryId(0)], Half(RollbackId(0), RecoveryId(1)));
  }

  /** And from there, without a recovery in between, a write to a place with two heads and no way to roll back. */
  lemma ForkHappens(p: Place, a: Bytes, b: Bytes)
    returns (states: seq<State>, events: seq<Event>, cs: seq<Config>, x: Disk)
    requires |a| <= MAX_BACKUP_BYTES && a != b
    ensures Resting(p, states, events)
    ensures Trails.Written(p, cs, RecoveryId(2), a) && cs[0].disk == states[|events|].disk
    ensures x == MarkSource(Last(cs).disk, RecoveryId(1)) && Clear(x, p)
    ensures {RecoveryId(0), RecoveryId(2)} <= Heads(x, p, Sha256(a)) && forall s :: !Selects(x, p, Sha256(a), Head(s))
  {
    states, events := HalfFinishedHappens(p, a, b);
    var d := states[|events|].disk;
    cs := WriteScript(d, p, a, RecoveryId(2), None);
    HalfRollback.ForkedLineage(d, p, None, [RecoveryId(0)], RollbackId(0), RecoveryId(1), RecoveryId(2));
    x := MarkSource(Last(cs).disk, RecoveryId(1));
  }

  /** The last disk of a write cut short between its replacement and its record, after recovery judged it. */
  function LostWrite(d: Disk, p: Place, content: Bytes, id: Id, link: Option<Id>): Disk {
    Recovery.After(Scripts.Written(d, p, content, id, link, Prepared),
                   Recovery.VisitDisks(Scripts.Written(d, p, content, id, link, Prepared), id, {}))
  }

  lemma LostWriteBlocks(d: Disk, p: Place, content: Bytes, id: Id, link: Option<Id>)
    requires Now(d, p) != Some(Sha256(content)) && id !in d.damaged
    ensures Blocking(LostWrite(d, p, content, id, link), p, id)
    ensures Now(LostWrite(d, p, content, id, link), p) == Some(Sha256(content))
  {
    var x := Scripts.Written(d, p, content, id, link, Prepared);
    assert Reconciled(x, x.receipts[id]) == RecoveryRequired;
  }

  /** Over a settled stack any write that changes the file can be cut short so that recovery has to block. */
  lemma WriteLost(p: Place, states: seq<State>, events: seq<Event>, chain: seq<Id>, pids: (Pid, Pid), id: Id,
                  content: Bytes, link: Option<Id>)
    returns (states': seq<State>, events': seq<Event>)
    requires Settled(p, states, events, chain) && pids.0 != pids.1
    requires pids.0 !in states[|events|].pcs && pids.1 !in states[|events|].pcs
    requires var d := states[|events|].disk;
      && Writable(d, p, id) && !AnyHalfFinished(d, p) && LinkFor(d, p, Now(d, p), link)
      && Now(d, p) != Some(Sha256(content))
    ensures Resting(p, states', events') && states <= states' && Blocking(states'[|events'|].disk, p, id)
    ensures Now(states'[|events'|].disk, p) == Some(Sha256(content))
    ensures states'[|events'|].disk == LostWrite(states[|events|].disk, p, content, id, link)
    ensures Represents(states'[|events'|].disk, p, Now(states[0].disk, p), chain, Blocked(id))
  {
    var d := states[|events|].disk;
    var cs := WriteScript(d, p, content, id, link);
    WriteScriptIsTrail(d, p, content, id, link);
    states', events' := FollowAndCrash(p, states, events, pids.0, cs, 4);
    var visit := Crashes.VisitIsTrail(p, cs[4].disk, id);
    states', events' := Follow(p, states', events', pids.1, visit, |visit| - 1);
    LostWriteBlocks(d, p, content, id, link);
    LostWriteStack(p, d, content, id, link, Now(states[0].disk, p), chain);
  }

  lemma LostWriteStack(p: Place, d: Disk, content: Bytes, id: Id, link: Option<Id>, base: Option<Digest>,
                       chain: seq<Id>)
    requires Represents(d, p, base, chain, Quiet) && Now(d, p) != Some(Sha256(content))
    requires Writable(d, p, id) && LinkFor(d, p, Now(d, p), link)
    ensures Represents(LostWrite(d, p, content, id, link), p, base, chain, Blocked(id))
  {
    var ph := UnrecordedStack(p, d, content, id, link, base, chain);
    var x := Scripts.Written(d, p, content, id, link, Prepared);
    var ph' := Crashes.JudgeKeepsPlace(p, x, id, base, chain, ph);
    LostWriteBlocks(d, p, content, id, link);
    BlockingPhase(LostWrite(d, p, content, id, link), p, base, chain, ph', id);
  }

  lemma UnrecordedStack(p: Place, d: Disk, content: Bytes, id: Id, link: Option<Id>, base: Option<Digest>,
                        chain: seq<Id>)
    returns (ph: Phase)
    requires Represents(d, p, base, chain, Quiet) && Now(d, p) != Some(Sha256(content))
    requires Writable(d, p, id) && LinkFor(d, p, Now(d, p), link)
    ensures Represents(Scripts.Written(d, p, content, id, link, Prepared), p, base, chain, ph)
  {
    var cs := WriteScript(d, p, content, id, link);
    WriteScriptIsTrail(d, p, content, id, link);
    TrailPrefix(p, cs, 4);
    var chain';
    chain', ph := WriteTrail(p, cs[..5], base, chain, Quiet);
    assert Last(cs[..5]) == Config(Scripts.Written(d, p, content, id, link, Prepared),
                                   Replaced(WriteTask(content, Now(d, p)), id));
  }

  /** There is a run from an empty store to a blocked place, which `FrozenForever` then freezes. */
  lemma BlockedHappens(p: Place, a: Bytes) returns (states: seq<State>, events: seq<Event>)
    ensures Resting(p, states, events) && Blocking(states[|events|].disk, p, RecoveryId(0))
    ensures Now(states[0].disk, p) == None && Now(states[|events|].disk, p) == Some(Sha256(a))
  {
    EmptySettled(p);
    states, events := WriteLost(p, [Empty()], [], [], (0, 1), RecoveryId(0), a, None);
    assert states[0] == Empty();
  }

  /**
   There is a run from an empty store to a blocked place that a prune out of order unfreezes: created with
   `a`, overwritten with `b`, and blocked by a lost write of `a` again. With the second receipt unlinked
   before the first a rollback selects the first, and would delete the file.
   */
  lemma PruneUnfreezes(p: Place, a: Bytes, b: Bytes) returns (states: seq<State>, events: seq<Event>)
    requires |a| <= MAX_BACKUP_BYTES && |b| <= MAX_BACKUP_BYTES && a != b
    ensures Resting(p, states, events)
    ensures var d := states[|events|].disk;
      && Represents(d, p, None, [RecoveryId(0), RecoveryId(1)], Blocked(RecoveryId(2))) && Now(d, p) == Some(Sha256(a))
      && (forall s :: !Selects(d, p, Sha256(a), Head(s)))
      && Selects(PruningRuns.Unlinked(d, RecoveryId(1)), p, Sha256(a), Head(RecoveryId(0)))
  {
    var chain := [RecoveryId(0), RecoveryId(1)];
    states, events := WriteTwice(p, a, b);
    var d := states[|events|].disk;
    SettledWritable(p, states, events, chain, RecoveryId(2));
    states, events := WriteLost(p, states, events, chain, (2, 3), RecoveryId(2), a, Some(RecoveryId(1)));
    OutOfOrderUnfreezes(p, states[|events|].disk, a);
  }

  lemma OutOfOrderUnfreezes(p: Place, x: Disk, a: Bytes)
    requires Represents(x, p, None, [RecoveryId(0), RecoveryId(1)], Blocked(RecoveryId(2)))
    requires Now(x, p) == Some(Sha256(a)) && Post(x, RecoveryId(0)) == Some(Sha256(a))
    requires !MadeOn(x, RecoveryId(2), RecoveryId(0))
    ensures forall s :: !Selects(x, p, Sha256(a), Head(s))
    ensures Selects(PruningRuns.Unlinked(x, RecoveryId(1)), p, Sha256(a), Head(RecoveryId(0)))
  {
    var chain := [RecoveryId(0), RecoveryId(1)];
    forall s ensures !Selects(x, p, Sha256(a), Head(s)) {
      BlockedSelectsNothing(x, p, None, chain, RecoveryId(2), Sha256(a), s);
    }
    assert chain[0] == RecoveryId(0) && chain[0 + 1] == RecoveryId(1);
    assert Unlinking.Bares(x, p, chain, RecoveryId(1), RecoveryId(0));
    Unlinking.UnlinkUnfreezesIff(x, p, None, chain, RecoveryId(2), RecoveryId(1), Sha256(a), RecoveryId(0));
  }
}
