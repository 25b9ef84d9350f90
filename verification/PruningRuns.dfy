/**
 Runs in which receipts are pruned under the feet of live processes, one unlink at a time and without any
 lock. What a prune may take at each moment, so that the undo stack of what is left survives.
 */
module PruningRuns {
  import opened Wrappers
  import opened Journal
  import opened Protocol
  import opened Lineage
  import opened Safety
  import opened UndoStack
  import Recovery
  import Retention

  /** A step of the protocol, or one unlink of a prune: a receipt file, or a backup no receipt names any more. */
  datatype Move = Proceed(event: Event) | Unlink(id: Id) | Discard(backup: Id)

  function Unlinked(d: Disk, id: Id): Disk {
    d.(receipts := d.receipts - {id})
  }

  /**
   A receipt that may go: terminal, with no standing write right below it, neither the source of a rollback
   that is pending or half finished nor such a rollback itself, and not the one being superseded.
   */
  ghost predicate Prunable(p: Place, s: State, id: Id) {
    var d := s.disk;
    && At(d, p, id) && Terminal(d.receipts[id].state) && !HalfFinished(d, p, id)
    && (d.receipts[id].state == Verified ==>
          forall j :: WriteAt(d, p, j) && d.receipts[j].state == Verified ==> !MadeOn(d, id, j))
    && (forall rb :: At(d, p, rb) && d.receipts[rb].Rollback? && d.receipts[rb].rollbackOf == id ==>
          !Pending(d, p, rb) && !HalfFinished(d, p, rb))
    && forall pid :: pid in s.pcs && s.pcs[pid].Demote? ==> s.pcs[pid].id != id
  }

  ghost predicate Discardable(p: Place, s: State, b: Id) {
    && (forall j :: WriteAt(s.disk, p, j) ==> s.disk.receipts[j].backup != Some(b))
    && forall pid :: pid in s.pcs && s.pcs[pid].BackedUp? ==> s.pcs[pid].id != b
  }

  ghost predicate MoveStep(p: Place, s: State, m: Move, s': State) {
    match m
    case Proceed(e) => Step(p, s, e, s') && Orderly(p, s, e)
    case Unlink(id) => Prunable(p, s, id) && s' == s.(disk := Unlinked(s.disk, id))
    case Discard(b) => Discardable(p, s, b) && s' == s.(disk := s.disk.(backups := s.disk.backups - {b}))
  }

  ghost predicate PruningRun(p: Place, states: seq<State>, moves: seq<Move>) {
    && |states| == |moves| + 1
    && forall k :: 0 <= k < |moves| ==> MoveStep(p, states[k], moves[k], states[k + 1])
  }

  /** On the stack only the bottom may go. */
  lemma OnlyBottomGoes(p: Place, s: State, id: Id, base: Option<Digest>, chain: seq<Id>, ph: Phase)
    requires Represents(s.disk, p, base, chain, ph) && Prunable(p, s, id)
    ensures Retention.CutAt(chain, {id}, if id in chain then 1 else 0)
  {
    var d := s.disk;
    if id in chain {
      var i :| 0 <= i < |chain| && chain[i] == id;
      assert LinkAt(d, p, base, chain, i);
      if i > 0 {
        assert LinkAt(d, p, base, chain, i - 1);
        assert chain[..i][|chain[..i]| - 1] == chain[i - 1];
        assert d.receipts[chain[i - 1]].state == Verified;
      }
    }
  }

  function Base(d: Disk, base: Option<Digest>, chain: seq<Id>, id: Id): Option<Digest> {
    if id in chain then Top(d, base, chain[..1]) else base
  }

  function Rest(chain: seq<Id>, id: Id): seq<Id> {
    if id in chain then chain[1..] else chain
  }

  lemma UnlinkStack(p: Place, s: State, id: Id, base: Option<Digest>, chain: seq<Id>, ph: Phase)
    requires Represents(s.disk, p, base, chain, ph) && Prunable(p, s, id)
    ensures var d, d' := s.disk, Unlinked(s.disk, id);
      && Stack(d', p, Base(d, base, chain, id), Rest(chain, id)) && BackupsKept(d', p)
      && Top(d', Base(d, base, chain, id), Rest(chain, id)) == Top(d, base, chain)
      && (id in chain ==> id == chain[0])
  {
    var d, d', n := s.disk, Unlinked(s.disk, id), if id in chain then 1 else 0;
    OnlyBottomGoes(p, s, id, base, chain, ph);
    Retention.CutStack(d, d', p, base, chain, {id}, n);
    Retention.CutTop(d, d', p, base, chain, {id}, n);
    assert chain[..0] == [] && chain[0..] == chain;
    forall j | WriteAt(d', p, j) ensures HasBackup(d', j) { assert HasBackup(d, j); }
  }

  lemma UnlinkAccounts(p: Place, s: State, id: Id, base: Option<Digest>, chain: seq<Id>, ph: Phase, busy: set<Id>)
    requires Represents(s.disk, p, base, chain, ph) && Prunable(p, s, id) && Accounted(s.disk, p, chain, busy)
    ensures Accounted(Unlinked(s.disk, id), p, Rest(chain, id), busy)
    ensures VerifiedBelow(s.disk, chain, |chain|) ==> AllVerified(Unlinked(s.disk, id), Rest(chain, id))
    ensures |chain| > 0 && chain[|chain| - 1] != id && VerifiedBelow(s.disk, chain, |chain| - 1) ==>
      |Rest(chain, id)| > 0 && VerifiedBelow(Unlinked(s.disk, id), Rest(chain, id), |Rest(chain, id)| - 1)
  {
    var d, d', rest := s.disk, Unlinked(s.disk, id), Rest(chain, id);
    OnlyBottomGoes(p, s, id, base, chain, ph);
    forall j | j in chain && j != id ensures j in rest {
      var i :| 0 <= i < |chain| && chain[i] == j;
      if id in chain { assert rest[i - 1] == j; }
    }
    forall j | At(d', p, j) && j !in rest && j !in busy ensures Retired(d', p, j) {
      assert Retired(d, p, j);
    }
    forall i | 0 <= i < |rest| ensures rest[i] != id && rest[i] == chain[i + |chain| - |rest|] {
    }
  }

  /** What the phase itself relies on is not touched. */
  lemma UnlinkPhase(p: Place, s: State, id: Id, base: Option<Digest>, chain: seq<Id>, ph: Phase)
    requires Represents(s.disk, p, base, chain, ph) && Prunable(p, s, id)
    ensures match ph
      case Writing(w) => id != w
      case Landed => chain[|chain| - 1] != id
      case Undoing(rb) => id != rb && chain[|chain| - 1] != id
      case Undid(rb, src) => id != rb && id != src
      case Half(rb, src) => id != rb && id != src
      case Blocked(x) => id != x
      case Quiet => true
  {
    var d := s.disk;
    match ph
    case Undoing(rb) => assert Pending(d, p, rb);
    case Undid(rb, src) => assert Pending(d, p, rb);
    case Half(rb, src) => assert HalfFinished(d, p, rb);
    case Landed => assert LinkAt(d, p, base, chain, |chain| - 1);
    case _ =>
  }

  /** A write on top of the stack, or just off it, is still on top of what is left. */
  lemma UnlinkOnTop(p: Place, s: State, id: Id, base: Option<Digest>, chain: seq<Id>, ph: Phase, w: Id)
    requires Represents(s.disk, p, base, chain, ph) && Prunable(p, s, id) && OnTop(s.disk, p, base, chain, w) && w != id
    ensures OnTop(Unlinked(s.disk, id), p, Base(s.disk, base, chain, id), Rest(chain, id), w)
  {
    UnlinkStack(p, s, id, base, chain, ph);
    if id in chain && |chain| > 1 { assert Rest(chain, id)[|chain| - 2] == chain[|chain| - 1]; }
  }

  lemma UnlinkBelowTop(p: Place, s: State, id: Id, base: Option<Digest>, chain: seq<Id>, ph: Phase)
    requires Represents(s.disk, p, base, chain, ph) && Prunable(p, s, id) && chain != [] && chain[|chain| - 1] != id
    ensures var rest := Rest(chain, id);
      && rest != [] && rest[|rest| - 1] == chain[|chain| - 1]
      && Top(Unlinked(s.disk, id), Base(s.disk, base, chain, id), rest[..|rest| - 1]) ==
           Top(s.disk, base, chain[..|chain| - 1])
  {
    var d, rest := s.disk, Rest(chain, id);
    UnlinkStack(p, s, id, base, chain, ph);
    OnlyBottomGoes(p, s, id, base, chain, ph);
    var below, left := chain[..|chain| - 1], rest[..|rest| - 1];
    if id in chain {
      if |chain| == 2 {
        assert left == [] && below == chain[..1];
      } else {
        assert left[|left| - 1] == below[|below| - 1] == chain[|chain| - 2];
      }
    } else {
      assert left == below;
      if below != [] { assert below[|below| - 1] == chain[|chain| - 2]; }
    }
  }

  lemma UnlinkKeeps(p: Place, s: State, id: Id, base: Option<Digest>, chain: seq<Id>, ph: Phase)
    requires Represents(s.disk, p, base, chain, ph) && Prunable(p, s, id)
    ensures Represents(Unlinked(s.disk, id), p, Base(s.disk, base, chain, id), Rest(chain, id), ph)
  {
    UnlinkStack(p, s, id, base, chain, ph);
    UnlinkPhase(p, s, id, base, chain, ph);
    if ph.Landed? || ph.Undoing? {
      UnlinkOnStack(p, s, id, base, chain, ph);
    } else {
      UnlinkOffStack(p, s, id, base, chain, ph);
    }
  }

  lemma UnlinkOnStack(p: Place, s: State, id: Id, base: Option<Digest>, chain: seq<Id>, ph: Phase)
    requires Represents(s.disk, p, base, chain, ph) && Prunable(p, s, id) && (ph.Landed? || ph.Undoing?)
    ensures InPhase(Unlinked(s.disk, id), p, Base(s.disk, base, chain, id), Rest(chain, id), ph)
  {
    UnlinkStack(p, s, id, base, chain, ph);
    UnlinkPhase(p, s, id, base, chain, ph);
    UnlinkBelowTop(p, s, id, base, chain, ph);
    UnlinkAccounts(p, s, id, base, chain, ph, if ph.Undoing? then {ph.rb} else {});
  }

  lemma UnlinkOffStack(p: Place, s: State, id: Id, base: Option<Digest>, chain: seq<Id>, ph: Phase)
    requires Represents(s.disk, p, base, chain, ph) && Prunable(p, s, id) && !ph.Landed? && !ph.Undoing?
    ensures InPhase(Unlinked(s.disk, id), p, Base(s.disk, base, chain, id), Rest(chain, id), ph)
  {
    UnlinkStack(p, s, id, base, chain, ph);
    UnlinkPhase(p, s, id, base, chain, ph);
    match ph
    case Quiet => UnlinkAccounts(p, s, id, base, chain, ph, {});
    case Blocked(x) => UnlinkAccounts(p, s, id, base, chain, ph, {x});
    case Writing(w) =>
      UnlinkAccounts(p, s, id, base, chain, ph, {w});
      UnlinkOnTop(p, s, id, base, chain, ph, w);
    case Undid(rb, src) =>
      UnlinkAccounts(p, s, id, base, chain, ph, {rb, src});
      UnlinkOnTop(p, s, id, base, chain, ph, src);
    case Half(rb, src) =>
      UnlinkAccounts(p, s, id, base, chain, ph, {rb, src});
      UnlinkOnTop(p, s, id, base, chain, ph, src);
  }

  lemma UnlinkControl(p: Place, s: State, id: Id, base: Option<Digest>, chain: seq<Id>, ph: Phase, pid: Pid)
    requires Represents(s.disk, p, base, chain, ph) && Prunable(p, s, id) && pid in s.pcs && Critical(s.pcs[pid])
    requires InControl(s.disk, p, base, chain, ph, s.pcs[pid])
    ensures InControl(Unlinked(s.disk, id), p, Base(s.disk, base, chain, id), Rest(chain, id), ph, s.pcs[pid])
  {
    UnlinkStack(p, s, id, base, chain, ph);
    UnlinkPhase(p, s, id, base, chain, ph);
    if (ph.Undoing? || ph.Landed?) && chain != [] { UnlinkBelowTop(p, s, id, base, chain, ph); }
  }

  /** Every move keeps the invariant; an unlink may take the bottom of the stack with it. */
  lemma MoveKeeps(p: Place, s: State, m: Move, s': State, base: Option<Digest>, chain: seq<Id>, ph: Phase)
    returns (base': Option<Digest>, chain': seq<Id>, ph': Phase)
    requires Inv(p, s, base, chain, ph) && MoveStep(p, s, m, s')
    ensures Inv(p, s', base', chain', ph')
    ensures m.Proceed? ==> base' == base && StepMoves(s, m.event, chain, chain')
    ensures !m.Proceed? ==>
      Now(s'.disk, p) == Now(s.disk, p) && ph' == ph && (chain' == chain || (chain != [] && chain' == chain[1..]))
  {
    base', chain', ph' := base, chain, ph;
    match m
    case Proceed(e) => chain', ph' := StepKeeps(p, s, e, s', base, chain, ph);
    case Unlink(id) =>
      UnlinkKeeps(p, s, id, base, chain, ph);
      if s.holder.Some? { UnlinkControl(p, s, id, base, chain, ph, s.holder.value); }
      base', chain' := Base(s.disk, base, chain, id), Rest(chain, id);
    case Discard(b) => DiscardKeeps(p, s, b, base, chain, ph);
  }

  lemma DiscardKeeps(p: Place, s: State, b: Id, base: Option<Digest>, chain: seq<Id>, ph: Phase)
    requires Inv(p, s, base, chain, ph) && Discardable(p, s, b)
    ensures Inv(p, s.(disk := s.disk.(backups := s.disk.backups - {b})), base, chain, ph)
  {
    var d, d' := s.disk, s.disk.(backups := s.disk.backups - {b});
    StackCarried(d, d', p, base, chain);
    forall id | WriteAt(d', p, id) ensures HasBackup(d', id) { assert HasBackup(d, id); }
    SameReceiptsPhase(d, d', p, base, chain, ph);
    if s.holder.Some? { DiscardControl(p, s, b, base, chain, ph, s.holder.value); }
  }

  lemma DiscardControl(p: Place, s: State, b: Id, base: Option<Digest>, chain: seq<Id>, ph: Phase, pid: Pid)
    requires Discardable(p, s, b) && pid in s.pcs && Critical(s.pcs[pid])
    requires InControl(s.disk, p, base, chain, ph, s.pcs[pid])
    ensures InControl(s.disk.(backups := s.disk.backups - {b}), p, base, chain, ph, s.pcs[pid])
  {
    var d' := s.disk.(backups := s.disk.backups - {b});
    assert Top(d', base, chain) == Top(s.disk, base, chain);
    assert chain != [] ==> Top(d', base, chain[..|chain| - 1]) == Top(s.disk, base, chain[..|chain| - 1]);
  }

  /**
   The undo stack under pruning: in every run in which prunes take only what they may, whatever runs
   beside them, the verified writes left at a clear place are one linear history ending in its file.
   */
  lemma {:induction false} StackUnderPruning(p: Place, states: seq<State>, moves: seq<Move>, k: nat)
    returns (base: Option<Digest>, chain: seq<Id>, ph: Phase)
    requires PruningRun(p, states, moves) && Init(p, states[0]) && k < |states|
    ensures Inv(p, states[k], base, chain, ph)
    ensures Clear(states[k].disk, p) ==> StandingHistory(states[k].disk, p, base, chain)
  {
    if k == 0 {
      InitInv(p, states[0]);
      base, chain, ph := Now(states[0].disk, p), [], Quiet;
    } else {
      base, chain, ph := StackUnderPruning(p, states, moves, k - 1);
      assert MoveStep(p, states[k - 1], moves[k - 1], states[k]);
      base, chain, ph := MoveKeeps(p, states[k - 1], moves[k - 1], states[k], base, chain, ph);
    }
    if Clear(states[k].disk, p) { ClearHistory(states[k].disk, p, base, chain, ph); }
  }

  /** And a blocked file stays as it is. */
  lemma {:induction false} FrozenUnderPruning(p: Place, states: seq<State>, moves: seq<Move>, i: nat, j: nat, x: Id)
    requires PruningRun(p, states, moves) && Init(p, states[0]) && i <= j < |states| && Blocking(states[i].disk, p, x)
    ensures Now(states[j].disk, p) == Now(states[i].disk, p) && Blocking(states[j].disk, p, x)
    decreases j
  {
    if i < j {
      FrozenUnderPruning(p, states, moves, i, j - 1, x);
      var base, chain, ph := StackUnderPruning(p, states, moves, j - 1);
      BlockingPhase(states[j - 1].disk, p, base, chain, ph, x);
      assert MoveStep(p, states[j - 1], moves[j - 1], states[j]);
      FrozenMove(p, states[j - 1], moves[j - 1], states[j], base, chain, x);
    }
  }

  lemma FrozenMove(p: Place, s: State, m: Move, s': State, base: Option<Digest>, chain: seq<Id>, x: Id)
    requires Inv(p, s, base, chain, Blocked(x)) && MoveStep(p, s, m, s')
    ensures Now(s'.disk, p) == Now(s.disk, p) && Blocking(s'.disk, p, x)
  {
    if m.Proceed? {
      var chain', ph' := StepKeeps(p, s, m.event, s', base, chain, Blocked(x));
    }
  }

  /** No rollback of the place is under way or half finished. */
  predicate NoRollback(ph: Phase) {
    ph.Quiet? || ph.Writing? || ph.Landed? || ph.Blocked?
  }

  /** The processes of the place: none is about to supersede an intent. */
  ghost predicate NoneDemotes(s: State) {
    forall pid :: pid in s.pcs ==> !s.pcs[pid].Demote?
  }

  lemma PrunableNow(p: Place, s: State, id: Id, base: Option<Digest>, chain: seq<Id>, ph: Phase)
    requires Represents(s.disk, p, base, chain, ph) && NoRollback(ph) && NoneDemotes(s)
    requires At(s.disk, p, id) && Terminal(s.disk.receipts[id].state) && (id in chain ==> id == chain[0])
    ensures Prunable(p, s, id)
  {
    var d := s.disk;
    StackStands(d, p, base, chain, ph);
    forall rb | At(d, p, rb) && d.receipts[rb].Rollback?
      ensures !Pending(d, p, rb) && !HalfFinished(d, p, rb)
    {
      assert Retired(d, p, rb) || ph == Blocked(rb);
    }
    if d.receipts[id].state == Verified && d.receipts[id].FsWrite? {
      assert id in chain;
      assert LinkAt(d, p, base, chain, 0) && chain[..0] == [];
    }
  }

  lemma OwnUnlink(p: Place, s: State, id: Id, base: Option<Digest>, chain: seq<Id>, ph: Phase)
    requires Inv(p, s, base, chain, ph) && NoRollback(ph) && NoneDemotes(s) && At(s.disk, p, id)
    requires Terminal(s.disk.receipts[id].state) && (id in chain ==> id == chain[0])
    ensures Prunable(p, s, id)
    ensures Inv(p, s.(disk := Unlinked(s.disk, id)), Base(s.disk, base, chain, id), Rest(chain, id), ph)
  {
    PrunableNow(p, s, id, base, chain, ph);
    UnlinkKeeps(p, s, id, base, chain, ph);
    if s.holder.Some? { UnlinkControl(p, s, id, base, chain, ph, s.holder.value); }
  }

  lemma OthersUnlink(p: Place, s: State, id: Id, base: Option<Digest>, chain: seq<Id>, ph: Phase)
    requires Inv(p, s, base, chain, ph) && id in s.disk.receipts && !At(s.disk, p, id)
    ensures id !in chain && MoveStep(p, s, Proceed(Other), s.(disk := Unlinked(s.disk, id)))
    ensures Inv(p, s.(disk := Unlinked(s.disk, id)), base, chain, ph)
  {
    var s' := s.(disk := Unlinked(s.disk, id));
    StackStands(s.disk, p, base, chain, ph);
    assert Elsewhere(s.disk, s'.disk, p) && Step(p, s, Other, s');
    OtherKeepsPhase(p, s, s', base, chain, ph);
  }

  /** One unlink of a receipt of whatever place, as a move of this one. */
  lemma UnlinkMove(p: Place, s: State, id: Id, base: Option<Digest>, chain: seq<Id>, ph: Phase)
    returns (m: Move, base': Option<Digest>, n: nat)
    requires Inv(p, s, base, chain, ph) && NoRollback(ph) && NoneDemotes(s)
    requires id in s.disk.receipts && Terminal(s.disk.receipts[id].state) && (id in chain ==> id == chain[0])
    ensures MoveStep(p, s, m, s.(disk := Unlinked(s.disk, id)))
    ensures n <= |chain| && Inv(p, s.(disk := Unlinked(s.disk, id)), base', chain[n..], ph)
    ensures n == if id in chain then 1 else 0
  {
    n := if id in chain then 1 else 0;
    assert chain[n..] == Rest(chain, id);
    if At(s.disk, p, id) {
      OwnUnlink(p, s, id, base, chain, ph);
      m, base' := Unlink(id), Base(s.disk, base, chain, id);
    } else {
      OthersUnlink(p, s, id, base, chain, ph);
      m, base' := Proceed(Other), base;
    }
  }

  lemma OtherKeepsPhase(p: Place, s: State, s': State, base: Option<Digest>, chain: seq<Id>, ph: Phase)
    requires Inv(p, s, base, chain, ph) && Step(p, s, Other, s')
    ensures Inv(p, s', base, chain, ph)
  {
    ElsewhereKeeps(s.disk, s'.disk, p, base, chain, ph);
    if s.holder.Some? {
      ElsewhereControl(s.disk, s'.disk, p, base, chain, ph, s.pcs[s.holder.value], s'.pcs[s.holder.value]);
    }
  }

  /** Then the unlink of its backup. */
  lemma DiscardMove(p: Place, s: State, id: Id, base: Option<Digest>, chain: seq<Id>, ph: Phase)
    requires Inv(p, s, base, chain, ph) && Retention.OwnBackups(s.disk) && id !in s.disk.receipts
    requires forall pid :: pid in s.pcs && s.pcs[pid].BackedUp? ==> s.pcs[pid].id != id
    ensures MoveStep(p, s, Discard(id), s.(disk := s.disk.(backups := s.disk.backups - {id})))
    ensures Inv(p, s.(disk := s.disk.(backups := s.disk.backups - {id})), base, chain, ph)
  {
    assert Discardable(p, s, id);
    DiscardKeeps(p, s, id, base, chain, ph);
  }

  /** The disks follow one another from `s.disk` by the moves, the processes standing still. */
  ghost predicate Moved(p: Place, s: State, disks: seq<Disk>, moves: seq<Move>) {
    |moves| == |disks| && forall k :: 0 <= k < |disks| ==>
      MoveStep(p, Stage(s, disks, k), moves[k], Stage(s, disks, k + 1))
  }

  function Stage(s: State, disks: seq<Disk>, k: nat): State
    requires k <= |disks|
  {
    s.(disk := if k == 0 then s.disk else disks[k - 1])
  }

  lemma MovedOn(p: Place, s: State, disks: seq<Disk>, moves: seq<Move>, more: seq<Disk>, moves': seq<Move>)
    requires Moved(p, s, disks, moves) && Moved(p, s.(disk := Recovery.After(s.disk, disks)), more, moves')
    ensures Moved(p, s, disks + more, moves + moves')
  {
    var all, ms, x := disks + more, moves + moves', s.(disk := Recovery.After(s.disk, disks));
    forall k | 0 <= k < |all| ensures MoveStep(p, Stage(s, all, k), ms[k], Stage(s, all, k + 1)) {
      if k < |disks| {
        assert Stage(s, all, k) == Stage(s, disks, k) && Stage(s, all, k + 1) == Stage(s, disks, k + 1);
      } else {
        var i := k - |disks|;
        assert Stage(s, all, k) == Stage(x, more, i) && Stage(s, all, k + 1) == Stage(x, more, i + 1);
      }
    }
  }

  /** What is left at the disk `x` is a stack: the upper part of `chain`, in the same phase. */
  ghost predicate Standing(p: Place, s: State, x: Disk, chain: seq<Id>, ph: Phase) {
    exists base, n :: 0 <= n <= |chain| && Inv(p, s.(disk := x), base, chain[n..], ph)
  }

  ghost predicate Precedes(files: seq<Id>, x: Id, y: Id) {
    forall a, b :: 0 <= a < |files| && 0 <= b < |files| && files[a] == x && files[b] == y ==> a < b
  }

  /** Receipts due go from the bottom of the stack, and the listing has them in that order. */
  ghost predicate OldestFirst(d: Disk, chain: seq<Id>, files: seq<Id>, due: set<Id>) {
    && (forall i, j :: 0 <= i < j < |chain| && chain[j] in due ==> chain[i] in due)
    && (forall i, j :: 0 <= i < j < |chain| ==> Precedes(files, chain[i], chain[j]))
    && forall i :: 0 <= i < |chain| && chain[i] in Retention.Gone(d, due) ==> chain[i] in files
  }

  lemma FirstIsBottom(d: Disk, p: Place, base: Option<Digest>, chain: seq<Id>, ph: Phase, files: seq<Id>, due: set<Id>)
    requires Represents(d, p, base, chain, ph) && NoRollback(ph) && files != []
    requires OldestFirst(d, chain, files, due) && files[0] in Retention.Gone(d, due) && files[0] in chain
    ensures files[0] == chain[0]
  {
    var k :| 0 <= k < |chain| && chain[k] == files[0];
    assert LinkAt(d, p, base, chain, 0);
  }

  lemma OldestFirstStill(d: Disk, chain: seq<Id>, files: seq<Id>, due: set<Id>, n: nat, x: Disk)
    requires OldestFirst(d, chain, files, due) && files != [] && n <= |chain|
    requires x.receipts == (if files[0] in Retention.Gone(d, due) then d.receipts - {files[0]} else d.receipts)
    ensures OldestFirst(x, chain[n..], files[1..], due)
  {
    var rest, left := chain[n..], files[1..];
    forall i, j | 0 <= i < j < |rest| ensures Precedes(left, rest[i], rest[j]) {
      assert Precedes(files, chain[n + i], chain[n + j]);
      assert forall a :: 0 <= a < |left| ==> left[a] == files[a + 1];
    }
    forall i | 0 <= i < |rest| && rest[i] in Retention.Gone(x, due) ensures rest[i] in left {
      assert chain[n + i] in Retention.Gone(d, due) && chain[n + i] in files;
    }
  }

  /** The unlinks of one receipt that is due. */
  lemma DueMoves(p: Place, s: State, id: Id, due: set<Id>, held: set<Id>, base: Option<Digest>, chain: seq<Id>,
                 ph: Phase)
    returns (moves: seq<Move>, base': Option<Digest>, n: nat)
    requires Inv(p, s, base, chain, ph) && NoRollback(ph) && NoneDemotes(s) && Retention.OwnBackups(s.disk)
    requires id in Retention.Gone(s.disk, due) && (id in chain ==> id == chain[0])
    ensures var disks := Retention.SweepFile(s.disk, id, due, held);
      && Moved(p, s, disks, moves) && n <= |chain|
      && Inv(p, s.(disk := Recovery.After(s.disk, disks)), base', chain[n..], ph)
      && (forall k :: 0 <= k < |disks| ==> Standing(p, s, disks[k], chain, ph))
      && n == if id in chain then 1 else 0
  {
    var m;
    m, base', n := UnlinkMove(p, s, id, base, chain, ph);
    moves := [m];
    var s' := s.(disk := Unlinked(s.disk, id));
    assert Standing(p, s, s'.disk, chain, ph);
    if |Retention.SweepFile(s.disk, id, due, held)| == 2 {
      NotTaken(p, s, id, base, chain, ph);
      DiscardMove(p, s', id, base', chain[n..], ph);
      moves := moves + [Discard(id)];
      assert Standing(p, s, s'.disk.(backups := s'.disk.backups - {id}), chain, ph);
    }
  }

  /** The name a writer has taken is no other receipt's. */
  lemma NotTaken(p: Place, s: State, id: Id, base: Option<Digest>, chain: seq<Id>, ph: Phase)
    requires Inv(p, s, base, chain, ph) && id in s.disk.receipts
    ensures forall pid :: pid in s.pcs && s.pcs[pid].BackedUp? ==> s.pcs[pid].id != id
  {
  }

  /** One file of a prune. */
  lemma FileMoves(p: Place, s: State, files: seq<Id>, due: set<Id>, held: set<Id>,
                  base: Option<Digest>, chain: seq<Id>, ph: Phase)
    returns (moves: seq<Move>, base': Option<Digest>, n: nat)
    requires Inv(p, s, base, chain, ph) && NoRollback(ph) && NoneDemotes(s) && Retention.OwnBackups(s.disk)
    requires files != [] && OldestFirst(s.disk, chain, files, due)
    ensures var disks := Retention.SweepFile(s.disk, files[0], due, held);
      var x := Recovery.After(s.disk, disks);
      && Moved(p, s, disks, moves) && n <= |chain| && Inv(p, s.(disk := x), base', chain[n..], ph)
      && (forall k :: 0 <= k < |disks| ==> Standing(p, s, disks[k], chain, ph))
      && OldestFirst(x, chain[n..], files[1..], due) && Retention.OwnBackups(x)
  {
    var id := files[0];
    var x := Recovery.After(s.disk, Retention.SweepFile(s.disk, id, due, held));
    if id !in Retention.Gone(s.disk, due) {
      moves, base', n := [], base, 0;
      assert chain[0..] == chain;
    } else {
      if id in chain { FirstIsBottom(s.disk, p, base, chain, ph, files, due); }
      moves, base', n := DueMoves(p, s, id, due, held, base, chain, ph);
    }
    OldestFirstStill(s.disk, chain, files, due, n, x);
  }

  /**
   A prune is such moves: over a listing in which what is due of the stack comes from the bottom up, with
   no rollback of the place unfinished, each of its unlinks is one the runs allow, and wherever it is
   stopped the upper part of the stack is left standing, in the same phase.
   */
  lemma {:induction false} PruneMoves(p: Place, s: State, files: seq<Id>, due: set<Id>, held: set<Id>,
                                      base: Option<Digest>, chain: seq<Id>, ph: Phase)
    returns (moves: seq<Move>)
    requires Inv(p, s, base, chain, ph) && NoRollback(ph) && NoneDemotes(s) && Retention.OwnBackups(s.disk)
    requires OldestFirst(s.disk, chain, files, due)
    ensures Moved(p, s, Retention.Sweep(s.disk, files, due, held), moves)
    ensures forall x :: x in Retention.Sweep(s.disk, files, due, held) ==> Standing(p, s, x, chain, ph)
    decreases |files|
  {
    moves := [];
    if files != [] {
      var disks := Retention.SweepFile(s.disk, files[0], due, held);
      var x := Recovery.After(s.disk, disks);
      var first, base', n := FileMoves(p, s, files, due, held, base, chain, ph);
      var s' := s.(disk := x);
      var more := PruneMoves(p, s', files[1..], due, held, base', chain[n..], ph);
      var rest := Retention.Sweep(x, files[1..], due, held);
      moves := first + more;
      MovedOn(p, s, disks, first, rest, more);
      forall y | y in disks + rest ensures Standing(p, s, y, chain, ph) {
        if y in disks {
          var k :| 0 <= k < |disks| && disks[k] == y;
        } else {
          StandingAbove(p, s, s', y, chain, n, ph);
        }
      }
    }
  }

  lemma StandingAbove(p: Place, s: State, s': State, x: Disk, chain: seq<Id>, n: nat, ph: Phase)
    requires n <= |chain| && Standing(p, s', x, chain[n..], ph) && s' == s.(disk := s'.disk)
    ensures Standing(p, s, x, chain, ph)
  {
    var base, m :| 0 <= m <= |chain[n..]| && Inv(p, s'.(disk := x), base, chain[n..][m..], ph);
    assert chain[n..][m..] == chain[n + m..] && s'.(disk := x) == s.(disk := x);
  }

  /** Names in the order in which the receipts were made. */
  ghost predicate NamedInOrder(ids: seq<Id>) {
    forall i, j :: 0 <= i < j < |ids| && ids[i].RecoveryId? && ids[j].RecoveryId? ==> ids[i].serial < ids[j].serial
  }

  /** Times and names that do not go back along the stack make a prune by age take the oldest first. */
  lemma OrderedTimesAndNames(d: Disk, chain: seq<Id>, files: seq<Id>, mtimes: map<Id, int>, cutoff: int, stuck: set<Id>)
    requires Recovery.Listing(d, files) && NamedInOrder(files)
    requires NamedInOrder(chain) && Retention.InOrder(mtimes, chain)
    requires forall i :: 0 <= i < |chain| ==> chain[i].RecoveryId? && chain[i] !in stuck
    ensures OldestFirst(d, chain, files, Retention.Aged(mtimes, cutoff) - stuck)
  {
    var due := Retention.Aged(mtimes, cutoff) - stuck;
    forall i | 0 <= i < |chain| && chain[i] in Retention.Gone(d, due) ensures chain[i] in files {
      assert Recovery.Known(d, chain[i]);
    }
    forall i, j | 0 <= i < j < |chain| ensures Precedes(files, chain[i], chain[j]) {
      assert chain[i].serial < chain[j].serial;
    }
  }

  /**
   Retention by age, wherever it is stopped: when neither modification times nor names go back along the
   stack, a prune beside writers and recoverers, no rollback of the place unfinished, leaves after each of
   its unlinks the upper part of the stack, standing over what it was made on.
   */
  lemma StoppedPruneKeepsStack(p: Place, s: State, files: seq<Id>, mtimes: map<Id, int>, cutoff: int, stuck: set<Id>,
                               held: set<Id>, base: Option<Digest>, chain: seq<Id>, ph: Phase, k: nat)
    requires Inv(p, s, base, chain, ph) && NoRollback(ph) && NoneDemotes(s) && Retention.OwnBackups(s.disk)
    requires Recovery.WellNamed(s.disk) && Recovery.Listing(s.disk, files) && NamedInOrder(files)
    requires NamedInOrder(chain) && Retention.InOrder(mtimes, chain) && forall id :: id in chain ==> id !in stuck
    requires k < |Retention.Sweep(s.disk, files, Retention.Aged(mtimes, cutoff) - stuck, held)|
    ensures var x := Retention.Sweep(s.disk, files, Retention.Aged(mtimes, cutoff) - stuck, held)[k];
      Now(x, p) == Now(s.disk, p) && exists base', n ::
        0 <= n <= |chain| && Represents(x, p, base', chain[n..], ph)
  {
    var due := Retention.Aged(mtimes, cutoff) - stuck;
    StackStands(s.disk, p, base, chain, ph);
    forall i | 0 <= i < |chain| ensures chain[i].RecoveryId? && chain[i] !in stuck { assert chain[i] in chain; }
    OrderedTimesAndNames(s.disk, chain, files, mtimes, cutoff, stuck);
    var moves := PruneMoves(p, s, files, due, held, base, chain, ph);
    var x := Retention.Sweep(s.disk, files, due, held)[k];
    assert Standing(p, s, x, chain, ph);
    var base', n :| 0 <= n <= |chain| && Inv(p, s.(disk := x), base', chain[n..], ph);
    SweepTouchesNoFile(s.disk, files, due, held, k);
  }

  lemma {:induction false} SweepTouchesNoFile(d: Disk, files: seq<Id>, due: set<Id>, held: set<Id>, k: nat)
    requires k < |Retention.Sweep(d, files, due, held)|
    ensures Retention.Sweep(d, files, due, held)[k].targets == d.targets
    decreases |files|
  {
    var disks := Retention.SweepFile(d, files[0], due, held);
    if k >= |disks| { SweepTouchesNoFile(Recovery.After(d, disks), files[1..], due, held, k - |disks|); }
  }
}
