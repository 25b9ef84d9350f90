/**
 Continuity state: a revision counter advanced by compare-and-swap, with artifact files written
 before the counter moves. Processes interleave step by step, any of them may crash, and the handoff
 file may be edited from outside at any moment.
 */
module Continuity {
  import opened Wrappers
  import opened Journal

  type Pid = nat

  datatype Tracked = Tracked(revision: nat, handoff: Option<Digest>)

  datatype Artifact = CheckpointFile(name: string) | DecisionFile(name: string)

  /** The state file, the handoff file, and the revision each artifact carries. */
  datatype Files = Files(state: Option<Tracked>, handoff: Option<Digest>, artifacts: map<Artifact, nat>)

  datatype Mutation =
    | Initialize
    | Checkpoint(handoff: Digest, revision: Option<nat>)
    | Reconcile(recorded: Digest, observed: Digest, revision: Option<nat>)
    | Decision(name: string, at: nat)

  datatype Refusal =
    | AlreadyInitialized | NotInitialized | RevisionConflict | HandoffMissing | HandoffConflict
    | RecordedConflict | DecisionExists | InvalidName

  predicate Letter(c: char) {
    'A' <= c <= 'Z' || 'a' <= c <= 'z' || '0' <= c <= '9'
  }

  predicate ValidName(name: string) {
    0 < |name| <= 128 && Letter(name[0]) && forall i :: 0 < i < |name| ==> Letter(name[i]) || name[i] in "_.-"
  }

  function NamedRevision(m: Mutation): Option<nat> {
    match m
    case Initialize => None
    case Decision(_, at) => Some(at)
    case _ => m.revision
  }

  /** Why a mutation is refused, if it is: the checks in the order they are made. */
  function Check(f: Files, m: Mutation): Option<Refusal> {
    if m.Initialize? then (if f.state.Some? then Some(AlreadyInitialized) else None)
    else if m.Decision? && !ValidName(m.name) then Some(InvalidName)
    else if f.state.None? then Some(NotInitialized)
    else if NamedRevision(m).Some? && NamedRevision(m).value != f.state.value.revision then Some(RevisionConflict)
    else
      match m
      case Decision(name, _) => if DecisionFile(name) in f.artifacts then Some(DecisionExists) else None
      case Checkpoint(handoff, _) =>
        if f.handoff.None? then Some(HandoffMissing)
        else if f.handoff.value != handoff then Some(HandoffConflict) else None
      case Reconcile(recorded, observed, _) =>
        if f.handoff.None? then Some(HandoffMissing)
        else if f.handoff.value != observed then Some(HandoffConflict)
        else if f.state.value.handoff.Some? && f.state.value.handoff.value != recorded then Some(RecordedConflict)
        else None
  }

  function Revision(was: Option<Tracked>): nat {
    if was.Some? then was.value.revision else 0
  }

  /** The state a mutation leaves, from the state and the handoff digest it read. */
  function Next(was: Option<Tracked>, m: Mutation, seen: Option<Digest>): Tracked {
    Tracked(Revision(was) + 1, if m.Decision? && was.Some? then was.value.handoff else seen)
  }

  predicate LeavesArtifact(m: Mutation) {
    m.Checkpoint? || m.Decision?
  }

  /** The new artifact: a decision's own file, or a checkpoint under a name never used. */
  predicate ArtifactFor(f: Files, m: Mutation, a: Artifact) {
    a !in f.artifacts && (m.Decision? ==> a == DecisionFile(m.name)) && (m.Checkpoint? ==> a.CheckpointFile?)
  }

  datatype Pc =
    | Waiting(m: Mutation)
    | Inside(m: Mutation)
    | Checked(m: Mutation, was: Option<Tracked>, seen: Option<Digest>)
    | Filed(m: Mutation, was: Option<Tracked>, seen: Option<Digest>, artifact: Artifact)
    | Refused(why: Refusal)
    | Committed(revision: nat)

  predicate Critical(pc: Pc) {
    pc.Inside? || pc.Checked? || pc.Filed?
  }

  datatype Commit = Commit(m: Mutation, revision: nat, artifact: Option<Artifact>)

  /** `log` lists the committed mutations in order; no step reads it. */
  datatype State = State(files: Files, holder: Option<Pid>, pcs: map<Pid, Pc>, log: seq<Commit>)

  ghost predicate Work(f: Files, pc: Pc, f': Files, pc': Pc, commits: seq<Commit>) {
    match pc
    case Inside(m) =>
      && f' == f && commits == []
      && pc' == (if Check(f, m).Some? then Refused(Check(f, m).value) else Checked(m, f.state, f.handoff))
    case Checked(m, was, seen) =>
      if LeavesArtifact(m) then
        && pc'.Filed? && pc' == Filed(m, was, seen, pc'.artifact) && ArtifactFor(f, m, pc'.artifact)
        && f' == f.(artifacts := f.artifacts[pc'.artifact := Revision(was) + 1]) && commits == []
      else
        && pc' == Committed(Revision(was) + 1) && f' == f.(state := Some(Next(was, m, seen)))
        && commits == [Commit(m, Revision(was) + 1, None)]
    case Filed(m, was, seen, a) =>
      && pc' == Committed(Revision(was) + 1) && f' == f.(state := Some(Next(was, m, seen)))
      && commits == [Commit(m, Revision(was) + 1, Some(a))]
    case _ => false
  }

  datatype Event = Arrive(pid: Pid, m: Mutation) | Acquire(pid: Pid) | Act(pid: Pid) | Crash(pid: Pid) | Edit

  ghost predicate Step(s: State, e: Event, s': State) {
    match e
    case Arrive(pid, m) => pid !in s.pcs && s' == s.(pcs := s.pcs[pid := Waiting(m)])
    case Acquire(pid) =>
      && pid in s.pcs && s.pcs[pid].Waiting? && s.holder == None
      && s' == s.(holder := Some(pid), pcs := s.pcs[pid := Inside(s.pcs[pid].m)])
    case Act(pid) =>
      && s.holder == Some(pid) && pid in s.pcs && pid in s'.pcs && |s.log| <= |s'.log|
      && s'.log == s.log + s'.log[|s.log|..]
      && Work(s.files, s.pcs[pid], s'.files, s'.pcs[pid], s'.log[|s.log|..])
      && s'.pcs == s.pcs[pid := s'.pcs[pid]] && s'.holder == if Critical(s'.pcs[pid]) then s.holder else None
    case Crash(pid) =>
      pid in s.pcs && s' == s.(pcs := s.pcs - {pid}, holder := if s.holder == Some(pid) then None else s.holder)
    case Edit => s' == s.(files := s.files.(handoff := s'.files.handoff))
  }

  ghost predicate Run(states: seq<State>, events: seq<Event>) {
    && |states| == |events| + 1
    && states[0] == State(Files(None, states[0].files.handoff, map[]), None, map[], [])
    && forall k :: 0 <= k < |events| ==> Step(states[k], events[k], states[k + 1])
  }

  predicate CommitAt(s: State, i: nat)
    requires i < |s.log|
  {
    var c := s.log[i];
    && c.revision == i + 1
    && (c.m.Initialize? <==> i == 0)
    && (NamedRevision(c.m).Some? ==> NamedRevision(c.m).value == i)
    && (c.artifact.Some? <==> LeavesArtifact(c.m))
    && (c.artifact.Some? ==> c.artifact.value in s.files.artifacts && s.files.artifacts[c.artifact.value] == i + 1)
    && (c.m.Decision? ==> c.artifact == Some(DecisionFile(c.m.name)))
  }

  /** What the process holding the lock has read is still so. */
  predicate InControl(s: State, pc: Pc) {
    && (pc.Checked? || pc.Filed? ==>
          && pc.was == s.files.state && (pc.m.Initialize? <==> pc.was.None?)
          && (NamedRevision(pc.m).Some? ==> NamedRevision(pc.m).value == Revision(pc.was)))
    && (pc.Checked? && pc.m.Decision? ==> DecisionFile(pc.m.name) !in s.files.artifacts)
    && (pc.Filed? ==>
          && LeavesArtifact(pc.m) && pc.artifact in s.files.artifacts && s.files.artifacts[pc.artifact] == |s.log| + 1
          && (pc.m.Decision? ==> pc.artifact == DecisionFile(pc.m.name)))
  }

  ghost predicate Inv(s: State) {
    && (s.files.state.None? <==> s.log == []) && Revision(s.files.state) == |s.log|
    && (forall i :: 0 <= i < |s.log| ==> CommitAt(s, i))
    && (forall a :: a in s.files.artifacts ==> 1 < s.files.artifacts[a] <= |s.log| + 1)
    && (forall pid :: pid in s.pcs && Critical(s.pcs[pid]) ==> s.holder == Some(pid))
    && (s.holder.Some? ==> s.holder.value in s.pcs && InControl(s, s.pcs[s.holder.value]))
  }

  lemma WorkKeeps(s: State, pid: Pid, s': State)
    requires Inv(s) && Step(s, Act(pid), s')
    ensures Inv(s')
  {
    forall i | 0 <= i < |s'.log| ensures CommitAt(s', i) {
      if i < |s.log| { assert CommitAt(s, i); }
    }
  }

  lemma StepKeeps(s: State, e: Event, s': State)
    requires Inv(s) && Step(s, e, s')
    ensures Inv(s')
  {
    if e.Act? {
      WorkKeeps(s, e.pid, s');
    } else {
      forall i | 0 <= i < |s'.log| ensures CommitAt(s', i) { assert CommitAt(s, i); }
    }
  }

  lemma {:induction false} RunKeeps(states: seq<State>, events: seq<Event>, k: nat)
    requires Run(states, events) && k < |states|
    ensures Inv(states[k])
  {
    if k > 0 {
      RunKeeps(states, events, k - 1);
      assert Step(states[k - 1], events[k - 1], states[k]);
      StepKeeps(states[k - 1], events[k - 1], states[k]);
    }
  }

  /**
   Gap-free: whatever the interleaving and the crashes, the committed mutations carry the revisions
   1 (the initialization), 2, 3, ... once each, and the state file carries the last of them.
   */
  lemma GapFree(states: seq<State>, events: seq<Event>, k: nat)
    requires Run(states, events) && k < |states|
    ensures var s := states[k];
      && Revision(s.files.state) == |s.log|
      && (forall i :: 0 <= i < |s.log| ==> s.log[i].revision == i + 1 && (s.log[i].m.Initialize? <==> i == 0))
  {
    RunKeeps(states, events, k);
    forall i | 0 <= i < |states[k].log|
      ensures states[k].log[i].revision == i + 1 && (states[k].log[i].m.Initialize? <==> i == 0)
    {
      assert CommitAt(states[k], i);
    }
  }

  /** Of the callers that named the same expected revision at most one commits. */
  lemma OneWinner(states: seq<State>, events: seq<Event>, k: nat, i: nat, j: nat)
    requires Run(states, events) && k < |states| && i < |states[k].log| && j < |states[k].log|
    requires NamedRevision(states[k].log[i].m).Some?
    requires NamedRevision(states[k].log[i].m) == NamedRevision(states[k].log[j].m)
    ensures i == j
  {
    RunKeeps(states, events, k);
    assert CommitAt(states[k], i) && CommitAt(states[k], j);
  }

  /** No artifact is ahead of the state by more than one, and every committed one is on disk as committed. */
  lemma ArtifactsInStep(states: seq<State>, events: seq<Event>, k: nat)
    requires Run(states, events) && k < |states|
    ensures var f := states[k].files;
      && (forall a :: a in f.artifacts ==> f.artifacts[a] <= Revision(f.state) + 1)
      && (forall c :: c in states[k].log && LeavesArtifact(c.m) ==>
            c.artifact.Some? && c.artifact.value in f.artifacts && f.artifacts[c.artifact.value] == c.revision)
  {
    RunKeeps(states, events, k);
    forall c | c in states[k].log && LeavesArtifact(c.m)
      ensures c.artifact.Some? && c.artifact.value in states[k].files.artifacts
              && states[k].files.artifacts[c.artifact.value] == c.revision
    {
      var i :| 0 <= i < |states[k].log| && states[k].log[i] == c;
      assert CommitAt(states[k], i);
    }
  }

  predicate Recording(s: State, name: string) {
    exists pid :: pid in s.pcs && s.pcs[pid].Filed? && s.pcs[pid].artifact == DecisionFile(name)
  }

  predicate Recorded(s: State, name: string) {
    exists i :: 0 <= i < |s.log| && s.log[i].m.Decision? && s.log[i].m.name == name
  }

  /** A decision file on disk that nobody is recording: never rewritten, and recorded only if it already is. */
  lemma StrandedStep(s: State, e: Event, s': State, name: string)
    requires Inv(s) && Step(s, e, s') && DecisionFile(name) in s.files.artifacts && !Recording(s, name)
    ensures DecisionFile(name) in s'.files.artifacts && !Recording(s', name)
    ensures s'.files.artifacts[DecisionFile(name)] == s.files.artifacts[DecisionFile(name)]
    ensures Recorded(s', name) <==> Recorded(s, name)
  {
    assert s.log <= s'.log;
    if Recorded(s, name) {
      var i :| 0 <= i < |s.log| && s.log[i].m.Decision? && s.log[i].m.name == name;
      assert s'.log[i] == s.log[i];
    }
    if Recorded(s', name) {
      var i :| 0 <= i < |s'.log| && s'.log[i].m.Decision? && s'.log[i].m.name == name;
      if i < |s.log| { assert s.log[i] == s'.log[i]; }
    }
  }

  /**
   The crash window that is never closed: a decision whose writer died between its artifact and the
   state stays unrecorded for good, whatever runs afterwards.
   */
  lemma {:induction false} StrandedForever(states: seq<State>, events: seq<Event>, i: nat, j: nat, name: string)
    requires Run(states, events) && i <= j < |states|
    requires DecisionFile(name) in states[i].files.artifacts && !Recording(states[i], name)
    ensures Recorded(states[j], name) <==> Recorded(states[i], name)
    ensures DecisionFile(name) in states[j].files.artifacts
    decreases j - i
  {
    if i < j {
      assert Step(states[i], events[i], states[i + 1]);
      RunKeeps(states, events, i);
      StrandedStep(states[i], events[i], states[i + 1], name);
      StrandedForever(states, events, i + 1, j, name);
    }
  }

  ghost predicate Leads(states: seq<State>, events: seq<Event>) {
    |states| == |events| + 1 && forall k :: 0 <= k < |events| ==> Step(states[k], events[k], states[k + 1])
  }

  lemma LeadsOn(states: seq<State>, events: seq<Event>, e: Event, s': State)
    requires Leads(states, events) && Step(states[|events|], e, s')
    ensures Leads(states + [s'], events + [e])
  {
    var all, es := states + [s'], events + [e];
    forall k | 0 <= k < |es| ensures Step(all[k], es[k], all[k + 1]) {
      if k < |events| { assert Step(states[k], events[k], states[k + 1]); }
    }
  }

  /** One process from its arrival to just after its checks. */
  lemma Admit(states: seq<State>, events: seq<Event>, pid: Pid, m: Mutation)
    returns (states': seq<State>, events': seq<Event>)
    requires Leads(states, events)
    requires var s := states[|events|]; s.holder == None && pid !in s.pcs && Check(s.files, m).None?
    ensures Leads(states', events') && states <= states'
    ensures var s := states[|events|];
      states'[|events'|] == State(s.files, Some(pid), s.pcs[pid := Checked(m, s.files.state, s.files.handoff)], s.log)
  {
    var s := states[|events|];
    var s1 := s.(pcs := s.pcs[pid := Waiting(m)]);
    LeadsOn(states, events, Arrive(pid, m), s1);
    states', events' := states + [s1], events + [Arrive(pid, m)];
    var s2 := s.(holder := Some(pid), pcs := s.pcs[pid := Inside(m)]);
    assert s1.pcs[pid := Inside(m)] == s2.pcs;
    LeadsOn(states', events', Acquire(pid), s2);
    states', events' := states' + [s2], events' + [Acquire(pid)];
    var s3 := s2.(pcs := s.pcs[pid := Checked(m, s.files.state, s.files.handoff)]);
    assert s2.pcs[pid := s3.pcs[pid]] == s3.pcs && s3.log[|s2.log|..] == [];
    LeadsOn(states', events', Act(pid), s3);
    states', events' := states' + [s3], events' + [Act(pid)];
  }

  /** Process 0 initializes the state. */
  lemma InitializeRuns(handoff: Option<Digest>) returns (states: seq<State>, events: seq<Event>)
    ensures Leads(states, events) && states[0] == State(Files(None, handoff, map[]), None, map[], [])
    ensures states[|events|] == State(Files(Some(Tracked(1, handoff)), handoff, map[]), None, map[0 := Committed(1)],
                                      [Commit(Initialize, 1, None)])
  {
    var start := State(Files(None, handoff, map[]), None, map[], []);
    states, events := Admit([start], [], 0, Initialize);
    var x, init := states[|events|], Commit(Initialize, 1, None);
    var y := State(Files(Some(Tracked(1, handoff)), handoff, map[]), None, map[0 := Committed(1)], [init]);
    assert y.log[|x.log|..] == [init] && y.log == x.log + [init] && x.pcs[0 := Committed(1)] == y.pcs;
    LeadsOn(states, events, Act(0), y);
    states, events := states + [y], events + [Act(0)];
  }

  /** Every decision can be stranded: initialize, file it, and crash before the state is written. */
  lemma StrandingHappens(handoff: Option<Digest>, name: string) returns (states: seq<State>, events: seq<Event>)
    requires ValidName(name)
    ensures Run(states, events)
    ensures var s := states[|events|];
      DecisionFile(name) in s.files.artifacts && !Recording(s, name) && !Recorded(s, name) && s.holder == None
  {
    states, events := InitializeRuns(handoff);
    var m, a := Decision(name, 1), DecisionFile(name);
    states, events := Admit(states, events, 1, m);
    var x := states[|events|];
    var y := State(x.files.(artifacts := map[a := 2]), Some(1), x.pcs[1 := Filed(m, x.files.state, handoff, a)], x.log);
    assert x.files.artifacts[a := 2] == map[a := 2] && y.log[|x.log|..] == [];
    LeadsOn(states, events, Act(1), y);
    states, events := states + [y], events + [Act(1)];
    var z := y.(pcs := y.pcs - {1}, holder := None);
    LeadsOn(states, events, Crash(1), z);
    states, events := states + [z], events + [Crash(1)];
    assert z.pcs.Keys == {0} && z.pcs[0] == Committed(1);
  }

  /** An undisturbed critical section; `filed` is the disk between its artifact and its state. */
  ghost predicate Ran(f: Files, m: Mutation, filed: Files, f': Files, res: Pc) {
    if Check(f, m).Some? then filed == f' == f && res == Refused(Check(f, m).value)
    else
      var was, rev := f.state, Revision(f.state) + 1;
      && res == Committed(rev)
      && if LeavesArtifact(m) then
           exists a: Artifact ::
             && Work(f, Checked(m, was, f.handoff), filed, Filed(m, was, f.handoff, a), [])
             && Work(filed, Filed(m, was, f.handoff, a), f', res, [Commit(m, rev, Some(a))])
         else filed == f && Work(f, Checked(m, was, f.handoff), f', res, [Commit(m, rev, None)])
  }

  lemma RanWithFile(f: Files, m: Mutation, a: Artifact, filed: Files, f': Files)
    requires Check(f, m).None? && LeavesArtifact(m) && ArtifactFor(f, m, a)
    requires filed == f.(artifacts := f.artifacts[a := Revision(f.state) + 1])
    requires f' == filed.(state := Some(Next(f.state, m, f.handoff)))
    ensures Ran(f, m, filed, f', Committed(Revision(f.state) + 1))
  {
    assert Work(f, Checked(m, f.state, f.handoff), filed, Filed(m, f.state, f.handoff, a), []);
  }

  datatype Status =
    | Uninitialized
    | Fail
    | Drift(recorded: Digest, current: Digest)
    | Pass(revision: nat, handoff: Digest)

  /** The caller names a revision, and another than the recorded one. */
  predicate Outdated(was: Tracked, revision: Option<nat>) {
    revision.Some? && revision.value != was.revision
  }

  /** A name of 1 to 128 letters, digits, underscores, dots and hyphens that begins with a letter or a digit. */
  predicate Plain(name: string) {
    && 1 <= |name| <= 128 && name[0] !in "_.-"
    && forall c :: c in name ==>
         'a' <= c <= 'z' || 'A' <= c <= 'Z' || '0' <= c <= '9' || c == '_' || c == '.' || c == '-'
  }

  lemma PlainIsValid(name: string)
    ensures Plain(name) <==> ValidName(name)
  {
    assert forall i :: 0 <= i < |name| ==> name[i] in name;
    assert forall c :: c in name ==> exists i :: 0 <= i < |name| && name[i] == c;
  }

  class ContinuityManager {
    var state: Option<Tracked>
    var handoff: Option<Digest>
    var artifacts: map<Artifact, nat>

    constructor (files: Files)
      ensures Disk() == files
    {
      state, handoff, artifacts := files.state, files.handoff, files.artifacts;
    }

    function Disk(): Files
      reads this
    {
      Files(state, handoff, artifacts)
    }

    method Init() returns (res: Pc)
      modifies this`state
      ensures Ran(old(Disk()), Initialize, old(Disk()), Disk(), res)
      ensures res == if old(state).Some? then Refused(AlreadyInitialized) else Committed(1)
      ensures state == if old(state).Some? then old(state) else Some(Tracked(1, handoff))
    {
      if state.Some? {
        return Refused(AlreadyInitialized);
      }
      state := Some(Tracked(1, handoff));
      res := Committed(1);
    }

    /** `name` is the file name built from the new revision, the time and a random token. */
    method TakeCheckpoint(expected: Digest, revision: Option<nat>, name: string) returns (res: Pc, ghost filed: Files)
      requires CheckpointFile(name) !in artifacts
      modifies this`state, this`artifacts
      ensures Ran(old(Disk()), Checkpoint(expected, revision), filed, Disk(), res)
      ensures res.Committed? <==>
        && old(state).Some? && (revision.Some? ==> revision.value == old(state).value.revision)
        && handoff == Some(expected)
      ensures res.Committed? ==>
        && res.revision == old(state).value.revision + 1 && state == Some(Tracked(res.revision, Some(expected)))
        && artifacts == old(artifacts)[CheckpointFile(name) := res.revision]
      ensures !res.Committed? ==> Disk() == old(Disk())
      ensures res == Refused(NotInitialized) <==> old(state).None?
      ensures res == Refused(RevisionConflict) <==> old(state).Some? && Outdated(old(state).value, revision)
      ensures res == Refused(HandoffMissing) <==>
        old(state).Some? && !Outdated(old(state).value, revision) && handoff.None?
    {
      filed := Disk();
      if state.None? {
        return Refused(NotInitialized), filed;
      }
      var current := state.value.revision;
      if revision.Some? && current != revision.value {
        return Refused(RevisionConflict), filed;
      }
      if handoff.None? {
        return Refused(HandoffMissing), filed;
      }
      if handoff.value != expected {
        return Refused(HandoffConflict), filed;
      }
      artifacts := artifacts[CheckpointFile(name) := current + 1];
      filed := Disk();
      state := Some(state.value.(revision := current + 1, handoff := handoff));
      RanWithFile(old(Disk()), Checkpoint(expected, revision), CheckpointFile(name), filed, Disk());
      res := Committed(current + 1);
    }

    method ReconcileHandoff(recorded: Digest, observed: Digest, revision: Option<nat>) returns (res: Pc)
      modifies this`state
      ensures Ran(old(Disk()), Reconcile(recorded, observed, revision), old(Disk()), Disk(), res)
      ensures res.Committed? <==>
        && old(state).Some? && (revision.Some? ==> revision.value == old(state).value.revision)
        && handoff == Some(observed)
        && (old(state).value.handoff.Some? ==> old(state).value.handoff == Some(recorded))
      ensures res.Committed? ==>
        res.revision == old(state).value.revision + 1 && state == Some(Tracked(res.revision, Some(observed)))
      ensures !res.Committed? ==> state == old(state)
      ensures res == Refused(NotInitialized) <==> old(state).None?
      ensures res == Refused(RevisionConflict) <==> old(state).Some? && Outdated(old(state).value, revision)
      ensures res == Refused(HandoffMissing) <==>
        old(state).Some? && !Outdated(old(state).value, revision) && handoff.None?
      ensures res == Refused(RecordedConflict) <==>
        && old(state).Some? && !Outdated(old(state).value, revision) && handoff == Some(observed)
        && old(state).value.handoff.Some? && old(state).value.handoff != Some(recorded)
    {
      if state.None? {
        return Refused(NotInitialized);
      }
      var current := state.value.revision;
      if revision.Some? && current != revision.value {
        return Refused(RevisionConflict);
      }
      if handoff.None? {
        return Refused(HandoffMissing);
      }
      if handoff.value != observed {
        return Refused(HandoffConflict);
      }
      if state.value.handoff.Some? && state.value.handoff.value != recorded {
        return Refused(RecordedConflict);
      }
      state := Some(state.value.(revision := current + 1, handoff := handoff));
      res := Committed(current + 1);
    }

    method RecordDecision(name: string, revision: nat) returns (res: Pc, ghost filed: Files)
      modifies this`state, this`artifacts
      ensures Ran(old(Disk()), Decision(name, revision), filed, Disk(), res)
      ensures res.Committed? <==>
        && Plain(name) && old(state).Some? && old(state).value.revision == revision
        && DecisionFile(name) !in old(artifacts)
      ensures res.Committed? ==>
        && res.revision == revision + 1 && state == Some(Tracked(revision + 1, old(state).value.handoff))
        && artifacts == old(artifacts)[DecisionFile(name) := revision + 1]
      ensures !res.Committed? ==> Disk() == old(Disk())
      ensures res == Refused(InvalidName) <==> !Plain(name)
      ensures res == Refused(NotInitialized) <==> Plain(name) && old(state).None?
      ensures res == Refused(RevisionConflict) <==>
        Plain(name) && old(state).Some? && old(state).value.revision != revision
    {
      filed := Disk();
      var valid := MatchesName(name);
      if !valid {
        return Refused(InvalidName), filed;
      }
      if state.None? {
        return Refused(NotInitialized), filed;
      }
      var current := state.value.revision;
      if current != revision {
        return Refused(RevisionConflict), filed;
      }
      if DecisionFile(name) in artifacts {
        return Refused(DecisionExists), filed;
      }
      artifacts := artifacts[DecisionFile(name) := current + 1];
      filed := Disk();
      state := Some(state.value.(revision := current + 1));
      RanWithFile(old(Disk()), Decision(name, revision), DecisionFile(name), filed, Disk());
      res := Committed(current + 1);
    }

    method MatchesName(name: string) returns (valid: bool)
      ensures valid == ValidName(name) == Plain(name)
    {
      PlainIsValid(name);
      if |name| == 0 || |name| > 128 || !Letter(name[0]) {
        return false;
      }
      for i := 1 to |name|
        invariant forall k :: 0 < k < i ==> Letter(name[k]) || name[k] in "_.-"
      {
        if !(Letter(name[i]) || name[i] in "_.-") {
          return false;
        }
      }
      valid := true;
    }

    /** Passes exactly when the handoff file is there and is not other than the recorded one. */
    method Verify() returns (status: Status)
      ensures status.Pass? <==>
        state.Some? && handoff.Some? && (state.value.handoff.Some? ==> state.value.handoff == handoff)
      ensures status.Pass? ==> status == Pass(state.value.revision, handoff.value)
      ensures status.Drift? <==>
        state.Some? && handoff.Some? && state.value.handoff.Some? && state.value.handoff != handoff
      ensures status.Uninitialized? <==> state.None?
    {
      if state.None? {
        return Uninitialized;
      }
      if handoff.None? {
        return Fail;
      }
      if state.value.handoff.Some? && state.value.handoff.value != handoff.value {
        return Drift(state.value.handoff.value, handoff.value);
      }
      status := Pass(state.value.revision, handoff.value);
    }
  }
}
