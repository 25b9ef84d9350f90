/** The governed file as a compare-and-swap register that concurrent writers and rollbackers share. */
module Register {
  import opened Wrappers
  import opened Journal
  import opened Protocol
  import opened Lineage
  import opened Safety
  import opened Trails
  import opened UndoStack

  /** One successful operation: its process, the digest its caller presented and the one it left. */
  datatype Change = Change(pid: Pid, presented: Option<Digest>, left: Option<Digest>)

  /** The operation, if any, that a step makes effective by recording it in the journal. */
  ghost function Effect(p: Place, s: State, e: Event, s': State): seq<Change> {
    if !e.Act? || e.pid !in s.pcs then []
    else
      var pc := s.pcs[e.pid];
      if pc.Replaced? && pc.task.WriteTask? then [Change(e.pid, pc.task.expected, Now(s'.disk, p))]
      else if pc.Restored? && pc.rb in s.disk.receipts && s.disk.receipts[pc.rb].Rollback? then
        [Change(e.pid, Some(s.disk.receipts[pc.rb].expectedPost), Now(s'.disk, p))]
      else []
  }

  /** All effective operations of a run's first `n` events, in order. */
  ghost function Log(p: Place, states: seq<State>, events: seq<Event>, n: nat): seq<Change>
    requires n <= |events| < |states|
  {
    if n == 0 then [] else Log(p, states, events, n - 1) + Effect(p, states[n - 1], events[n - 1], states[n])
  }

  predicate Consecutive(base: Option<Digest>, log: seq<Change>, k: nat)
    requires k < |log|
  {
    log[k].presented == if k == 0 then base else log[k - 1].left
  }

  ghost predicate Serial(base: Option<Digest>, log: seq<Change>) {
    forall k :: 0 <= k < |log| ==> Consecutive(base, log, k)
  }

  function Value(base: Option<Digest>, log: seq<Change>): Option<Digest> {
    if log == [] then base else log[|log| - 1].left
  }

  lemma PushTops(p: Place, s: State, pid: Pid, s': State, base: Option<Digest>, chain: seq<Id>, ph: Phase)
    requires Inv(p, s, base, chain, ph) && Step(p, s, Act(pid), s') && s.pcs[pid].Replaced?
    ensures var chain' := chain + [s.pcs[pid].id];
      Effect(p, s, Act(pid), s') == [Change(pid, Top(s.disk, base, chain), Top(s'.disk, base, chain'))]
  {
    var chain', ph' := WorkKeeps(p, s.disk, s.pcs[pid], s'.disk, s'.pcs[pid], base, chain, ph);
  }

  lemma PopTops(p: Place, s: State, pid: Pid, s': State, base: Option<Digest>, chain: seq<Id>, chain': seq<Id>,
                ph: Phase,
                ph': Phase)
    requires Inv(p, s, base, chain, ph) && Step(p, s, Act(pid), s') && s.pcs[pid].Restored?
    requires Represents(s'.disk, p, base, chain', ph') && InControl(s'.disk, p, base, chain', ph', s'.pcs[pid])
    requires Proceeds(s.pcs[pid], s'.pcs[pid])
    ensures Effect(p, s, Act(pid), s') == [Change(pid, Top(s.disk, base, chain), Top(s'.disk, base, chain'))]
  {
  }

  /** Steps that record nothing leave the top of the stack; steps that do compare and swap it. */
  lemma EffectOnTop(p: Place, s: State, e: Event, s': State, base: Option<Digest>, chain: seq<Id>, ph: Phase)
    returns (chain': seq<Id>, ph': Phase)
    requires Inv(p, s, base, chain, ph) && Step(p, s, e, s') && Orderly(p, s, e)
    ensures Inv(p, s', base, chain', ph')
    ensures var effect := Effect(p, s, e, s');
      if effect == [] then Top(s'.disk, base, chain') == Top(s.disk, base, chain)
      else e.Act? && effect == [Change(e.pid, Top(s.disk, base, chain), Top(s'.disk, base, chain'))]
  {
    chain', ph' := StepKeeps(p, s, e, s', base, chain, ph);
    if e.Act? && s.pcs[e.pid].Replaced? {
      PushTops(p, s, e.pid, s', base, chain, ph);
    } else if e.Act? && s.pcs[e.pid].Restored? {
      PopTops(p, s, e.pid, s', base, chain, chain', ph, ph');
    } else {
      StackStands(s.disk, p, base, chain, ph);
      if e.Act? { WorkKeepsFacts(p, s.disk, s.pcs[e.pid], s'.disk, s'.pcs[e.pid]); }
      TopStays(p, s.disk, s'.disk, base, chain);
    }
  }

  lemma TopStays(p: Place, d: Disk, d': Disk, base: Option<Digest>, chain: seq<Id>)
    requires forall id :: id in chain ==> WriteAt(d, p, id) && d.receipts[id].state != Prepared
    requires FactsKept(d, d', p) || Elsewhere(d, d', p)
    ensures Top(d', base, chain) == Top(d, base, chain)
  {
    if chain != [] { assert chain[|chain| - 1] in chain; }
  }

  lemma SerialGrows(base: Option<Digest>, log: seq<Change>, effect: seq<Change>)
    requires Serial(base, log)
    requires effect == [] || (|effect| == 1 && effect[0].presented == Value(base, log))
    ensures Serial(base, log + effect)
    ensures Value(base, log + effect) == if effect == [] then Value(base, log) else effect[0].left
  {
    var all := log + effect;
    if effect == [] { assert all == log; }
    forall k | 0 <= k < |all| ensures Consecutive(base, all, k) {
      if k < |log| { assert Consecutive(base, log, k); }
    }
  }

  lemma {:induction false} LogIsSerial(p: Place, states: seq<State>, events: seq<Event>, n: nat)
    returns (chain: seq<Id>, ph: Phase)
    requires OrderlyRun(p, states, events) && Init(p, states[0]) && n <= |events|
    ensures Inv(p, states[n], Now(states[0].disk, p), chain, ph)
    ensures var base, log := Now(states[0].disk, p), Log(p, states, events, n);
      Serial(base, log) && Value(base, log) == Top(states[n].disk, base, chain)
  {
    var base := Now(states[0].disk, p);
    if n == 0 {
      InitInv(p, states[0]);
      chain, ph := [], Quiet;
    } else {
      var chain0, ph0 := LogIsSerial(p, states, events, n - 1);
      assert Step(p, states[n - 1], events[n - 1], states[n]) && Orderly(p, states[n - 1], events[n - 1]);
      chain, ph := EffectOnTop(p, states[n - 1], events[n - 1], states[n], base, chain0, ph0);
      SerialGrows(base, Log(p, states, events, n - 1), Effect(p, states[n - 1], events[n - 1], states[n]));
    }
  }

  /**
   Linearizable: in every orderly run the effective writes and rollbacks form one sequence in which
   each presented exactly the digest the one before left, and wherever the place is clear the file
   holds what the last one left.
   */
  lemma {:induction false} Linearizable(p: Place, states: seq<State>, events: seq<Event>, n: nat)
    requires OrderlyRun(p, states, events) && Init(p, states[0]) && n <= |events|
    ensures Serial(Now(states[0].disk, p), Log(p, states, events, n))
    ensures Clear(states[n].disk, p) ==>
      Now(states[n].disk, p) == Value(Now(states[0].disk, p), Log(p, states, events, n))
  {
    var chain, ph := LogIsSerial(p, states, events, n);
    if Clear(states[n].disk, p) {
      ClearHistory(states[n].disk, p, Now(states[0].disk, p), chain, ph);
    }
  }

  /**
   Of two effective operations presenting the same digest, the first of which changed the content,
   the second comes only after the file has returned to that digest in between.
   */
  lemma AtMostOneWinner(base: Option<Digest>, log: seq<Change>, i: nat, j: nat)
    requires Serial(base, log) && i < j < |log|
    requires log[i].presented == log[j].presented && log[i].left != log[i].presented
    ensures exists k :: i < k < j && log[k].left == log[i].presented
  {
    assert Consecutive(base, log, j) && log[j - 1].left == log[i].presented;
    assert i < j - 1 < j;
  }

  /** The entries of one process. */
  function Own(log: seq<Change>, pid: Pid): seq<Change> {
    if log == [] then []
    else Own(log[..|log| - 1], pid) + if log[|log| - 1].pid == pid then [log[|log| - 1]] else []
  }

  lemma OwnGrows(log: seq<Change>, effect: seq<Change>, pid: Pid)
    requires |effect| <= 1
    ensures Own(log + effect, pid) == Own(log, pid) + if effect != [] && effect[0].pid == pid then effect else []
  {
    if effect == [] {
      assert log + effect == log;
    } else {
      assert (log + effect)[..|log + effect| - 1] == log;
    }
  }

  /** The operation of the process has been recorded. */
  predicate InEffect(pc: Pc) {
    || pc.Recorded? || pc.Logged? || pc.HalfDone?
    || (pc.Done? && (pc.result.Committed? || pc.result.Undone?))
  }

  /** Process `pid` takes the lock at step `i` to do `task` and keeps it at least up to step `j`. */
  ghost predicate Tenure(states: seq<State>, events: seq<Event>, pid: Pid, task: Task, i: nat, j: nat) {
    && i < j < |states| == |events| + 1 && events[i] == Acquire(pid)
    && (forall k :: i < k < j ==> pid in states[k].pcs && Critical(states[k].pcs[pid]))
    && pid in states[i].pcs && states[i].pcs[pid] == Start(task) && pid in states[j].pcs
  }

  /** The stages of the operation a process was started for. */
  ghost predicate Serves(d: Disk, pc: Pc, task: Task) {
    match pc
    case Enter(t) => t == task
    case Settle(t) => t == task
    case Finish(t, _) => t == task
    case Demote(t, _) => t == task
    case BackedUp(t, _) => t == task && task.WriteTask?
    case Journaled(t, _) => t == task && task.WriteTask?
    case Replaced(t, _) => t == task && task.WriteTask?
    case Recorded(_, post) => task.WriteTask? && post == Sha256(task.content)
    case Intended(rb, _) => task.RollbackTask? && Intends(d, rb, task.wanted)
    case Restored(rb, _) => task.RollbackTask? && Intends(d, rb, task.wanted)
    case Logged(_, _) => task.RollbackTask?
    case HalfDone(_) => task.RollbackTask?
    case Done(result) =>
      && (result.Committed? ==> task.WriteTask? && result.post == Sha256(task.content))
      && (result.Undone? ==> task.RollbackTask?)
    case Start(_) => false
  }

  /** What the operation's entry says: the digest its caller named, and the one its result leaves. */
  ghost predicate Tells(d: Disk, p: Place, pc: Pc, task: Task, entry: Change) {
    match task
    case WriteTask(content, expected) => entry.presented == expected && entry.left == Some(Sha256(content))
    case RollbackTask(wanted) =>
      && entry.presented == Some(wanted)
      && (pc.Logged? ==> LeavesPre(d, p, pc.src, entry.left))
      && (pc.HalfDone? ==> LeavesPre(d, p, pc.src, entry.left))
      && (pc.Done? && pc.result.Undone? ==> LeavesPre(d, p, pc.result.src, entry.left))
    case RecoverTask(_) => false
  }

  ghost predicate LeavesPre(d: Disk, p: Place, src: Id, left: Option<Digest>) {
    WriteAt(d, p, src) && d.receipts[src].state != Prepared && d.receipts[src].pre == left
  }

  /** The entries of a process since it took the lock: one once its operation is in effect, none before. */
  ghost predicate Entered(d: Disk, p: Place, pid: Pid, pc: Pc, task: Task, entries: seq<Change>) {
    if InEffect(pc) then |entries| == 1 && entries[0].pid == pid && Tells(d, p, pc, task, entries[0]) else entries == []
  }

  /** A write records its replacement. */
  lemma ReplacedStep(p: Place, s: State, pid: Pid, s': State, base: Option<Digest>, chain: seq<Id>, ph: Phase,
                     task: Task)
    requires Inv(p, s, base, chain, ph) && Step(p, s, Act(pid), s') && Serves(s.disk, s.pcs[pid], task)
    requires s.pcs[pid].Replaced?
    ensures Serves(s'.disk, s'.pcs[pid], task)
    ensures Entered(s'.disk, p, pid, s'.pcs[pid], task, Effect(p, s, Act(pid), s'))
  {
    var chain', ph' := WorkKeeps(p, s.disk, s.pcs[pid], s'.disk, s'.pcs[pid], base, chain, ph);
  }

  /** A rollback records its restoration. */
  lemma RestoredStep(p: Place, s: State, pid: Pid, s': State, base: Option<Digest>, chain: seq<Id>, ph: Phase,
                     task: Task)
    requires Inv(p, s, base, chain, ph) && Step(p, s, Act(pid), s') && Serves(s.disk, s.pcs[pid], task)
    requires s.pcs[pid].Restored?
    ensures Serves(s'.disk, s'.pcs[pid], task)
    ensures Entered(s'.disk, p, pid, s'.pcs[pid], task, Effect(p, s, Act(pid), s'))
  {
    var pc := s.pcs[pid];
    var chain', ph' := WorkKeeps(p, s.disk, pc, s'.disk, s'.pcs[pid], base, chain, ph);
    WorkKeepsFacts(p, s.disk, pc, s'.disk, s'.pcs[pid]);
    assert LinkAt(s.disk, p, base, chain, |chain| - 1);
    StackStands(s.disk, p, base, chain, ph);
    assert chain[|chain| - 1] in chain && LeavesPre(s.disk, p, pc.src, Now(s.disk, p));
  }

  /** Once in effect the operation only goes on to its result. */
  lemma EffectiveStep(p: Place, s: State, pid: Pid, s': State, base: Option<Digest>, chain: seq<Id>, ph: Phase,
                      task: Task,
                      entry: Change)
    requires Inv(p, s, base, chain, ph) && Step(p, s, Act(pid), s') && Serves(s.disk, s.pcs[pid], task)
    requires InEffect(s.pcs[pid]) && entry.pid == pid && Tells(s.disk, p, s.pcs[pid], task, entry)
    ensures Serves(s'.disk, s'.pcs[pid], task) && InEffect(s'.pcs[pid]) && Tells(s'.disk, p, s'.pcs[pid], task, entry)
    ensures Effect(p, s, Act(pid), s') == []
  {
    var chain', ph' := WorkKeeps(p, s.disk, s.pcs[pid], s'.disk, s'.pcs[pid], base, chain, ph);
    WorkKeepsFacts(p, s.disk, s.pcs[pid], s'.disk, s'.pcs[pid]);
  }

  /** The steps before. */
  lemma EarlyStep(p: Place, s: State, pid: Pid, s': State, base: Option<Digest>, chain: seq<Id>, ph: Phase, task: Task)
    requires Inv(p, s, base, chain, ph) && Step(p, s, Act(pid), s') && Serves(s.disk, s.pcs[pid], task)
    requires !InEffect(s.pcs[pid]) && !s.pcs[pid].Replaced? && !s.pcs[pid].Restored?
    ensures Serves(s'.disk, s'.pcs[pid], task) && !InEffect(s'.pcs[pid]) && Effect(p, s, Act(pid), s') == []
  {
    var pc, pc' := s.pcs[pid], s'.pcs[pid];
    if pc.Settle? {
      SettleServes(p, s.disk, task, s'.disk, pc');
    } else if pc.Intended? {
      var chain', ph' := WorkKeeps(p, s.disk, pc, s'.disk, pc', base, chain, ph);
    }
  }

  /** One step of the process itself. */
  lemma OwnStep(p: Place, s: State, pid: Pid, s': State, base: Option<Digest>, chain: seq<Id>, ph: Phase, task: Task,
                entries: seq<Change>)
    requires Inv(p, s, base, chain, ph) && Step(p, s, Act(pid), s') && Serves(s.disk, s.pcs[pid], task)
    requires Entered(s.disk, p, pid, s.pcs[pid], task, entries)
    ensures Serves(s'.disk, s'.pcs[pid], task)
    ensures Entered(s'.disk, p, pid, s'.pcs[pid], task, entries + Effect(p, s, Act(pid), s'))
  {
    var effect := Effect(p, s, Act(pid), s');
    if InEffect(s.pcs[pid]) {
      EffectiveStep(p, s, pid, s', base, chain, ph, task, entries[0]);
      assert entries + effect == entries;
    } else {
      assert entries + effect == effect;
      if s.pcs[pid].Replaced? {
        ReplacedStep(p, s, pid, s', base, chain, ph, task);
      } else if s.pcs[pid].Restored? {
        RestoredStep(p, s, pid, s', base, chain, ph, task);
      } else {
        EarlyStep(p, s, pid, s', base, chain, ph, task);
      }
    }
  }

  lemma SettleServes(p: Place, d: Disk, task: Task, d': Disk, pc': Pc)
    requires Work(p, d, Settle(task), d', pc')
    ensures Serves(d', pc', task) && !InEffect(pc')
  {
    match task
    case WriteTask(_, _) =>
      if AnyPending(d, p) { var id :| SettleForWrite(p, d, task, id, d', pc'); }
    case RollbackTask(wanted) =>
      if AnyPending(d, p) { var id :| SettleForRollback(p, d, task, id, d', pc'); }
    case RecoverTask(id) =>
  }

  /** A step of anybody else while the process holds the lock. */
  lemma OthersStep(p: Place, s: State, e: Event, s': State, pid: Pid, base: Option<Digest>, chain: seq<Id>, ph: Phase,
                   task: Task, entries: seq<Change>)
    requires Inv(p, s, base, chain, ph) && Step(p, s, e, s') && e != Act(pid)
    requires pid in s.pcs && Critical(s.pcs[pid]) && pid in s'.pcs
    requires Serves(s.disk, s.pcs[pid], task) && Entered(s.disk, p, pid, s.pcs[pid], task, entries)
    ensures Effect(p, s, e, s') == [] && s'.pcs[pid] == s.pcs[pid]
    ensures Serves(s'.disk, s'.pcs[pid], task) && Entered(s'.disk, p, pid, s'.pcs[pid], task, entries)
  {
    if e.Other? {
      var pc := s.pcs[pid];
      assert pc.Intended? || pc.Restored? ==> At(s.disk, p, pc.rb);
    }
  }

  /** Any step of a run while the process holds the lock. */
  lemma AnyonesStep(p: Place, s: State, e: Event, s': State, pid: Pid, base: Option<Digest>, chain: seq<Id>, ph: Phase,
                    task: Task, before: seq<Change>, log: seq<Change>)
    returns (more: seq<Change>)
    requires Inv(p, s, base, chain, ph) && Step(p, s, e, s') && pid in s.pcs && Critical(s.pcs[pid]) && pid in s'.pcs
    requires Serves(s.disk, s.pcs[pid], task) && Entered(s.disk, p, pid, s.pcs[pid], task, before)
    ensures Serves(s'.disk, s'.pcs[pid], task) && Entered(s'.disk, p, pid, s'.pcs[pid], task, before + more)
    ensures Own(log + Effect(p, s, e, s'), pid) == Own(log, pid) + more
  {
    var effect := Effect(p, s, e, s');
    OwnGrows(log, effect, pid);
    if e == Act(pid) {
      OwnStep(p, s, pid, s', base, chain, ph, task, before);
      more := effect;
    } else {
      OthersStep(p, s, e, s', pid, base, chain, ph, task, before);
      more := [];
      assert before + more == before;
    }
  }

  /** Between the steps `i` and `j` the process added `entries` to the log. */
  ghost predicate Adds(p: Place, states: seq<State>, events: seq<Event>, pid: Pid, i: nat, j: nat, entries: seq<Change>)
    requires i <= |events| < |states| && j <= |events|
  {
    Own(Log(p, states, events, j), pid) == Own(Log(p, states, events, i), pid) + entries
  }

  lemma AddsMore(p: Place, states: seq<State>, events: seq<Event>, pid: Pid, i: nat, j: nat, entries: seq<Change>,
                 more: seq<Change>)
    requires i <= |events| < |states| && 0 < j <= |events| && Adds(p, states, events, pid, i, j - 1, entries)
    requires var log := Log(p, states, events, j - 1);
      Own(log + Effect(p, states[j - 1], events[j - 1], states[j]), pid) == Own(log, pid) + more
    ensures Adds(p, states, events, pid, i, j, entries + more)
  {
  }

  /** Those entries are what the process, as it stands at step `j`, accounts for. */
  ghost predicate Accounts(p: Place, states: seq<State>, events: seq<Event>, pid: Pid, task: Task, i: nat, j: nat,
                           entries: seq<Change>)
    requires i <= |events| < |states| && j <= |events|
  {
    && pid in states[j].pcs && Adds(p, states, events, pid, i, j, entries)
    && Serves(states[j].disk, states[j].pcs[pid], task)
    && Entered(states[j].disk, p, pid, states[j].pcs[pid], task, entries)
  }

  lemma TakesLock(p: Place, states: seq<State>, events: seq<Event>, pid: Pid, task: Task, i: nat, j: nat)
    requires OrderlyRun(p, states, events) && j == i + 1 && i < |events| && events[i] == Acquire(pid)
    requires pid in states[i].pcs && states[i].pcs[pid] == Start(task)
    ensures Accounts(p, states, events, pid, task, i, j, [])
  {
    assert Step(p, states[i], events[i], states[j]);
    assert Log(p, states, events, j) == Log(p, states, events, i);
  }

  lemma AccountsOn(p: Place, states: seq<State>, events: seq<Event>, pid: Pid, task: Task, i: nat, j: nat,
                   before: seq<Change>) returns (entries: seq<Change>)
    requires OrderlyRun(p, states, events) && Init(p, states[0]) && i + 1 < j <= |events|
    requires Accounts(p, states, events, pid, task, i, j - 1, before)
    requires Critical(states[j - 1].pcs[pid]) && pid in states[j].pcs
    ensures Accounts(p, states, events, pid, task, i, j, entries)
  {
    var s, e, s' := states[j - 1], events[j - 1], states[j];
    assert Step(p, s, e, s');
    var base, chain, ph := InvAt(p, states, events, j - 1);
    var more := AnyonesStep(p, s, e, s', pid, base, chain, ph, task, before, Log(p, states, events, j - 1));
    AddsMore(p, states, events, pid, i, j, before, more);
    entries := before + more;
  }

  ghost predicate HasEntry(p: Place, states: seq<State>, events: seq<Event>, pid: Pid, task: Task, i: nat, j: nat)
    requires i <= |events| < |states| && j <= |events|
  {
    exists entries :: Accounts(p, states, events, pid, task, i, j, entries)
  }

  lemma HasEntryOn(p: Place, states: seq<State>, events: seq<Event>, pid: Pid, task: Task, i: nat, j: nat, end: nat)
    requires OrderlyRun(p, states, events) && Init(p, states[0]) && Tenure(states, events, pid, task, i, end)
    requires i + 1 < j <= end && HasEntry(p, states, events, pid, task, i, j - 1)
    ensures HasEntry(p, states, events, pid, task, i, j)
  {
    var before :| Accounts(p, states, events, pid, task, i, j - 1, before);
    HeldAt(states, events, pid, task, i, end, j);
    var entries := AccountsOn(p, states, events, pid, task, i, j, before);
  }

  lemma {:induction false} HasEntryUpTo(p: Place, states: seq<State>, events: seq<Event>, pid: Pid, task: Task, i: nat,
                                         j: nat, end: nat)
    requires OrderlyRun(p, states, events) && Init(p, states[0]) && Tenure(states, events, pid, task, i, end)
    requires i < j <= end
    ensures HasEntry(p, states, events, pid, task, i, j)
    decreases j
  {
    if j == i + 1 {
      TakesLock(p, states, events, pid, task, i, j);
    } else {
      HasEntryUpTo(p, states, events, pid, task, i, j - 1, end);
      HasEntryOn(p, states, events, pid, task, i, j, end);
    }
  }

  lemma HeldAt(states: seq<State>, events: seq<Event>, pid: Pid, task: Task, i: nat, end: nat, j: nat)
    requires Tenure(states, events, pid, task, i, end) && i + 1 < j <= end
    ensures pid in states[j - 1].pcs && Critical(states[j - 1].pcs[pid]) && pid in states[j].pcs
  {
  }

  /**
   Every operation is its entry: from the moment a process takes the lock to the end of its operation it
   adds exactly one entry to the log if it comes back committed or undone, and none otherwise. The entry
   names the digest its caller presented and the one its result left.
   */
  lemma {:induction false} OneEntryEach(p: Place, states: seq<State>, events: seq<Event>, pid: Pid, task: Task, i: nat,
                                        j: nat)
    requires OrderlyRun(p, states, events) && Init(p, states[0]) && Tenure(states, events, pid, task, i, j)
    ensures HasEntry(p, states, events, pid, task, i, j)
  {
    HasEntryUpTo(p, states, events, pid, task, i, j, j);
  }

  lemma InvAt(p: Place, states: seq<State>, events: seq<Event>, k: nat)
    returns (base: Option<Digest>, chain: seq<Id>, ph: Phase)
    requires OrderlyRun(p, states, events) && Init(p, states[0]) && k < |states|
    ensures Inv(p, states[k], base, chain, ph)
  {
    var chains, phases := RunKeeps(p, states, events);
    base, chain, ph := Now(states[0].disk, p), chains[k], phases[k];
  }
}
