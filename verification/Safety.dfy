/** Every step of every process keeps the journal's undo stack in step with the file. */
module Safety {
  import opened Wrappers
  import opened Journal
  import opened Protocol
  import opened Lineage

  /** The write is still there and describes the same change. */
  ghost predicate SameWrite(d: Disk, d': Disk, p: Place, id: Id) {
    && WriteAt(d, p, id) && WriteAt(d', p, id)
    && d'.receipts[id].pre == d.receipts[id].pre
    && d'.receipts[id].post == d.receipts[id].post
    && d'.receipts[id].prev == d.receipts[id].prev
  }

  /** The stack's writes are unchanged, the dead stay dead, and no new name was ever linked to. */
  ghost predicate Carries(d: Disk, d': Disk, p: Place, chain: seq<Id>) {
    && (forall id :: id in chain && WriteAt(d, p, id) ==> SameWrite(d, d', p, id))
    && (forall id :: At(d, p, id) && At(d', p, id) && Dead(d.receipts[id].state) ==> Dead(d'.receipts[id].state))
    && (forall id, j :: At(d', p, id) && !At(d, p, id) && WriteAt(d, p, j) ==> d.receipts[j].prev != Some(id))
  }

  lemma StackWrites(d: Disk, p: Place, base: Option<Digest>, chain: seq<Id>)
    requires Stack(d, p, base, chain)
    ensures forall id :: id in chain ==> WriteAt(d, p, id) && d.receipts[id].post.Some?
  {
    forall i | 0 <= i < |chain| ensures WriteAt(d, p, chain[i]) && d.receipts[chain[i]].post.Some? {
      assert LinkAt(d, p, base, chain, i);
    }
  }

  /** The stack only reads its own writes and the detached link at its bottom. */
  lemma StackCarried(d: Disk, d': Disk, p: Place, base: Option<Digest>, chain: seq<Id>)
    requires Stack(d, p, base, chain) && Carries(d, d', p, chain)
    ensures Stack(d', p, base, chain) && Top(d', base, chain) == Top(d, base, chain)
    ensures chain != [] ==> Top(d', base, chain[..|chain| - 1]) == Top(d, base, chain[..|chain| - 1])
  {
    forall i | 0 <= i < |chain| ensures SameWrite(d, d', p, chain[i]) {
      assert LinkAt(d, p, base, chain, i) && chain[i] in chain;
    }
    forall i | 0 <= i < |chain| ensures LinkAt(d', p, base, chain, i) {
      assert LinkAt(d, p, base, chain, i) && SameWrite(d, d', p, chain[i]);
      if i > 0 {
        assert chain[..i][|chain[..i]| - 1] == chain[i - 1];
        assert SameWrite(d, d', p, chain[i - 1]);
      } else {
        assert chain[..i] == [];
      }
    }
    if chain != [] {
      assert SameWrite(d, d', p, chain[|chain| - 1]);
      var below := chain[..|chain| - 1];
      if below != [] { assert SameWrite(d, d', p, chain[|below| - 1]); }
    }
  }

  /** Changing one receipt's state, short of reviving a dead one, keeps the stack and the backups. */
  lemma StateChangeKeeps(d: Disk, p: Place, base: Option<Digest>, chain: seq<Id>, id: Id, st: TxState)
    requires Stack(d, p, base, chain) && BackupsKept(d, p) && id in d.receipts
    requires Dead(d.receipts[id].state) && d.receipts[id].place == p ==> Dead(st)
    ensures var d' := SetState(d, id, st);
      && Stack(d', p, base, chain) && BackupsKept(d', p) && Now(d', p) == Now(d, p)
      && Top(d', base, chain) == Top(d, base, chain)
      && (chain != [] ==> Top(d', base, chain[..|chain| - 1]) == Top(d, base, chain[..|chain| - 1]))
  {
    var d' := SetState(d, id, st);
    StackCarried(d, d', p, base, chain);
    forall j | WriteAt(d', p, j) ensures HasBackup(d', j) {
      assert WriteAt(d, p, j) && HasBackup(d, j);
    }
  }

  /** A pending receipt is the one the phase names. */
  lemma PendingPhase(d: Disk, p: Place, base: Option<Digest>, chain: seq<Id>, ph: Phase, id: Id)
    requires Represents(d, p, base, chain, ph) && Pending(d, p, id)
    ensures ph == Writing(id) || ph == Undoing(id) || (ph.Undid? && ph.rb == id)
         || (ph == Landed && chain[|chain| - 1] == id)
  {
    if id in chain {
      var i :| 0 <= i < |chain| && chain[i] == id;
    } else {
      assert !Retired(d, p, id);
    }
  }

  /** The verdict on the pending receipt of a phase, and the phase it leads to. */
  lemma VerdictOnPhase(d: Disk, p: Place, base: Option<Digest>, chain: seq<Id>, ph: Phase, id: Id)
    requires Represents(d, p, base, chain, ph) && Pending(d, p, id)
    ensures Reconciled(d, d.receipts[id]) ==
      if ph == Landed || ph.Undid? then Verified
      else if Now(d, p) == Top(d, base, chain) then RecoveredUnapplied else RecoveryRequired
    ensures ph.Undid? <==> d.receipts[id].Rollback? && Reconciled(d, d.receipts[id]) == Verified
    ensures ph.Undid? ==> d.receipts[id].rollbackOf == ph.src
  {
    PendingPhase(d, p, base, chain, ph, id);
    if d.receipts[id].FsWrite? { assert HasBackup(d, id); }
    if ph == Landed { assert LinkAt(d, p, base, chain, |chain| - 1); }
  }

  function Settled(ph: Phase, id: Id, v: TxState): Phase {
    if ph.Undid? then Half(id, ph.src) else if v == RecoveryRequired then Blocked(id) else Quiet
  }

  lemma VerdictAccounts(d: Disk, p: Place, base: Option<Digest>, chain: seq<Id>, ph: Phase, id: Id, busy: set<Id>)
    requires Represents(d, p, base, chain, ph) && Pending(d, p, id)
    requires busy == match ph
      case Writing(w) => {w} case Undoing(rb) => {rb} case Undid(rb, src) => {rb, src} case _ => {}
    ensures Accounted(SetState(d, id, Reconciled(d, d.receipts[id])), p, chain, busy)
  {
    PendingPhase(d, p, base, chain, ph, id);
    if ph == Landed { assert LinkAt(d, p, base, chain, |chain| - 1); }
    var d' := SetState(d, id, Reconciled(d, d.receipts[id]));
    forall j | At(d', p, j) && j !in chain && j !in busy ensures Retired(d', p, j) {
      assert Retired(d, p, j);
    }
  }

  lemma VerdictKeeps(d: Disk, p: Place, base: Option<Digest>, chain: seq<Id>, ph: Phase, id: Id)
    requires Represents(d, p, base, chain, ph) && Pending(d, p, id)
    ensures var v := Reconciled(d, d.receipts[id]);
      Represents(SetState(d, id, v), p, base, chain, Settled(ph, id, v))
  {
    StateChangeKeeps(d, p, base, chain, id, Reconciled(d, d.receipts[id]));
    VerdictPhase(d, p, base, chain, ph, id);
  }

  lemma VerdictPhase(d: Disk, p: Place, base: Option<Digest>, chain: seq<Id>, ph: Phase, id: Id)
    requires Represents(d, p, base, chain, ph) && Pending(d, p, id)
    requires var d' := SetState(d, id, Reconciled(d, d.receipts[id]));
      Stack(d', p, base, chain) && Top(d', base, chain) == Top(d, base, chain)
    ensures var v := Reconciled(d, d.receipts[id]);
      InPhase(SetState(d, id, v), p, base, chain, Settled(ph, id, v))
  {
    VerdictOnPhase(d, p, base, chain, ph, id);
    PendingPhase(d, p, base, chain, ph, id);
    VerdictAccounts(d, p, base, chain, ph, id, match ph
      case Writing(w) => {w} case Undoing(rb) => {rb} case Undid(rb, src) => {rb, src} case _ => {});
    if ph == Landed { assert LinkAt(d, p, base, chain, |chain| - 1); }
    if ph.Undid? { assert OnTop(SetState(d, id, Verified), p, base, chain, ph.src); }
  }

  lemma ReconcileKeeps(d: Disk, p: Place, base: Option<Digest>, chain: seq<Id>, ph: Phase,
                       id: Id, task: Task, next: Pc, d': Disk, pc': Pc) returns (ph': Phase)
    requires Represents(d, p, base, chain, ph) && Pending(d, p, id)
    requires Reconcile(d, id, task, next, d', pc')
    ensures Represents(d', p, base, chain, ph') && Now(d', p) == Now(d, p)
    ensures Reconciled(d, d.receipts[id]) == RecoveryRequired ==> ph' == Blocked(id) && pc' == next
    ensures Reconciled(d, d.receipts[id]) != RecoveryRequired ==>
              (ph' == Quiet && pc' == next) || (ph'.Half? && pc' == Finish(task, ph'.src))
    ensures Reconciled(d, d.receipts[id]) == RecoveryRequired <==>
              (ph.Writing? || ph.Undoing?) && Now(d, p) != Top(d, base, chain)
    ensures d'.receipts[id].state == Reconciled(d, d.receipts[id])
    ensures Doomed(d', p, base, chain, ph') == Doomed(d, p, base, chain, ph)
  {
    PendingPhase(d, p, base, chain, ph, id);
    VerdictOnPhase(d, p, base, chain, ph, id);
    VerdictKeeps(d, p, base, chain, ph, id);
    ph' := Settled(ph, id, Reconciled(d, d.receipts[id]));
  }

  /** Outside the hands-over of a rollback, the standing writes are exactly the stack. */
  ghost predicate OnlyStackStands(d: Disk, p: Place, chain: seq<Id>) {
    forall id :: WriteAt(d, p, id) && (d.receipts[id].state == Applied || d.receipts[id].state == Verified)
                 ==> id in chain
  }

  /** Every write below the top is referenced by the write made on it. */
  lemma BelowTopReferenced(d: Disk, p: Place, base: Option<Digest>, chain: seq<Id>, i: nat)
    requires Stack(d, p, base, chain) && AllVerified(d, chain) && i < |chain| - 1
    ensures chain[i] in Effective(d, p)
  {
    assert LinkAt(d, p, base, chain, i + 1);
    assert chain[..i + 1][|chain[..i + 1]| - 1] == chain[i];
    assert chain[i + 1] in d.receipts && d.receipts[chain[i + 1]].state == Verified;
  }

  lemma TopUnreferenced(d: Disk, p: Place, base: Option<Digest>, chain: seq<Id>)
    requires Stack(d, p, base, chain) && AllVerified(d, chain) && OnlyStackStands(d, p, chain) && chain != []
    ensures chain[|chain| - 1] !in Effective(d, p)
  {
    var top := chain[|chain| - 1];
    assert LinkAt(d, p, base, chain, |chain| - 1) && d.receipts[top].state == Verified;
    forall id | WriteAt(d, p, id) && (d.receipts[id].state == Applied || d.receipts[id].state == Verified)
      ensures d.receipts[id].prev != Some(top)
    {
      var i :| 0 <= i < |chain| && chain[i] == id;
      assert LinkAt(d, p, base, chain, i);
      if i > 0 { assert chain[..i][|chain[..i]| - 1] == chain[i - 1]; } else { assert chain[..i] == []; }
    }
  }

  /**
   Only the top of the stack is a head, whatever contents repeat below it and whatever the clock
   fields say.
   */
  lemma HeadIsTop(d: Disk, p: Place, base: Option<Digest>, chain: seq<Id>, h: Digest)
    requires Stack(d, p, base, chain) && AllVerified(d, chain) && OnlyStackStands(d, p, chain)
    ensures Heads(d, p, h) == if chain != [] && Top(d, base, chain) == Some(h) then {chain[|chain| - 1]} else {}
  {
    forall i | 0 <= i < |chain| - 1 ensures chain[i] !in Heads(d, p, h) {
      BelowTopReferenced(d, p, base, chain, i);
    }
    if chain != [] {
      TopUnreferenced(d, p, base, chain);
      assert LinkAt(d, p, base, chain, |chain| - 1);
      assert d.receipts[chain[|chain| - 1]].state == Verified;
    }
  }

  /** A new write links to the top of the stack, or, over an empty one, to nothing standing. */
  lemma LinkIsTop(d: Disk, p: Place, base: Option<Digest>, chain: seq<Id>, link: Option<Id>)
    requires Stack(d, p, base, chain) && InPhase(d, p, base, chain, Quiet) && LinkFor(d, p, Now(d, p), link)
    ensures chain != [] ==> link == Some(chain[|chain| - 1])
    ensures chain == [] ==> Detached(d, p, link)
  {
    if chain != [] { assert LinkAt(d, p, base, chain, |chain| - 1); }
    if Now(d, p).Some? {
      HeadIsTop(d, p, base, chain, Now(d, p).value);
      if chain != [] { assert SoleHead(d, p, Now(d, p).value, chain[|chain| - 1]); }
    }
  }

  /** A rollback of the current content selects the top of the stack; nothing to undo selects nothing. */
  lemma SelectsTop(d: Disk, p: Place, base: Option<Digest>, chain: seq<Id>, h: Digest, src: Id)
    requires Stack(d, p, base, chain) && InPhase(d, p, base, chain, Quiet) && Now(d, p) == Some(h)
    ensures Selects(d, p, h, Head(src)) <==> chain != [] && src == chain[|chain| - 1]
  {
    HeadIsTop(d, p, base, chain, h);
    if chain != [] {
      assert chain[|chain| - 1] in Heads(d, p, h);
    }
  }

  /**
   What a rollback of a blocked place would undo, whatever has been done to the file by hand: the top of
   the stack, exactly if the file has the bytes the top left and the blocking receipt is not a write
   made on the top.
   */
  lemma BlockedSelectsIff(d: Disk, p: Place, base: Option<Digest>, chain: seq<Id>, x: Id, h: Digest, src: Id)
    requires Stack(d, p, base, chain) && AllVerified(d, chain) && Accounted(d, p, chain, {x}) && x !in chain
    requires Blocking(d, p, x) && Now(d, p) == Some(h)
    ensures Selects(d, p, h, Head(src)) <==>
      && chain != [] && src == chain[|chain| - 1] && Top(d, base, chain) == Some(h)
      && !MadeOn(d, x, src)
  {
    HeadIsTop(d, p, base, chain, h);
    DoubtfulOf(d, p, base, chain, x);
    if chain != [] && Top(d, base, chain) == Some(h) {
      assert SoleHead(d, p, h, chain[|chain| - 1]);
    }
  }

  predicate MadeOn(d: Disk, id: Id, below: Id) {
    id in d.receipts && d.receipts[id].FsWrite? && d.receipts[id].prev == Some(below)
  }

  lemma DoubtfulOf(d: Disk, p: Place, base: Option<Digest>, chain: seq<Id>, x: Id)
    requires Stack(d, p, base, chain) && AllVerified(d, chain) && Accounted(d, p, chain, {x}) && x !in chain
    requires Blocking(d, p, x)
    ensures forall id :: id in Doubtful(d, p) <==> MadeOn(d, x, id)
  {
    forall j | j in chain ensures j in d.receipts && d.receipts[j].state == Verified {
      var i :| 0 <= i < |chain| && chain[i] == j;
    }
    assert forall j :: WriteAt(d, p, j) && j != x && j !in chain ==> Retired(d, p, j);
  }

  /** Left alone, a blocked place selects nothing. */
  lemma BlockedSelectsNothing(d: Disk, p: Place, base: Option<Digest>, chain: seq<Id>, x: Id, h: Digest, src: Id)
    requires Stack(d, p, base, chain) && InPhase(d, p, base, chain, Blocked(x)) && Now(d, p) == Some(h)
    ensures !Selects(d, p, h, Head(src))
  {
    BlockedSelectsIff(d, p, base, chain, x, h, src);
  }

  /** Every phase but the quiet one shows on the disk. */
  lemma PhaseShows(d: Disk, p: Place, base: Option<Digest>, chain: seq<Id>, ph: Phase)
    requires Represents(d, p, base, chain, ph)
    ensures ph.Writing? || ph.Landed? || ph.Undoing? || ph.Undid? ==> AnyPending(d, p)
    ensures ph.Half? ==> AnyHalfFinished(d, p)
    ensures ph.Blocked? ==> AnyBlocking(d, p)
  {
    match ph
    case Writing(w) => assert Pending(d, p, w);
    case Landed =>
      assert LinkAt(d, p, base, chain, |chain| - 1);
      assert Pending(d, p, chain[|chain| - 1]);
    case Undoing(rb) => assert Pending(d, p, rb);
    case Undid(rb, _) => assert Pending(d, p, rb);
    case Half(rb, _) => assert HalfFinished(d, p, rb);
    case Blocked(x) => assert Blocking(d, p, x);
    case Quiet =>
  }

  /** With nothing pending and no rollback half finished, the place is quiet or blocked. */
  lemma SettledPhase(d: Disk, p: Place, base: Option<Digest>, chain: seq<Id>, ph: Phase)
    requires Represents(d, p, base, chain, ph) && !AnyPending(d, p)
    ensures ph == Quiet || ph.Half? || ph.Blocked?
  {
    PhaseShows(d, p, base, chain, ph);
  }

  lemma BeginWriteKeeps(p: Place, d: Disk, task: Task, d': Disk, pc': Pc,
                        base: Option<Digest>, chain: seq<Id>, ph: Phase)
    requires task.WriteTask?
    requires Represents(d, p, base, chain, ph) && !ph.Half? && !AnyPending(d, p)
    requires BeginWrite(p, d, task, d', pc')
    ensures Represents(d', p, base, chain, ph) && InControl(d', p, base, chain, ph, pc')
    ensures d'.targets == d.targets && d'.receipts == d.receipts
    ensures pc'.BackedUp? ==> ph == Quiet
    ensures Top(d', base, chain) == Top(d, base, chain)
  {
    SettledPhase(d, p, base, chain, ph);
    PhaseShows(d, p, base, chain, ph);
    SameReceiptsKeep(d, d', p, base, chain, ph);
  }

  /** Only the backups grew. */
  lemma SameReceiptsKeep(d: Disk, d': Disk, p: Place, base: Option<Digest>, chain: seq<Id>, ph: Phase)
    requires Represents(d, p, base, chain, ph)
    requires d'.receipts == d.receipts && d'.targets == d.targets
    requires forall id :: id in d.backups && id in d.receipts ==> id in d'.backups && d'.backups[id] == d.backups[id]
    ensures Represents(d', p, base, chain, ph)
  {
    StackCarried(d, d', p, base, chain);
    forall id | WriteAt(d', p, id) ensures HasBackup(d', id) {
      assert WriteAt(d, p, id) && HasBackup(d, id);
    }
    SameReceiptsPhase(d, d', p, base, chain, ph);
  }

  lemma SameReceiptsPhase(d: Disk, d': Disk, p: Place, base: Option<Digest>, chain: seq<Id>, ph: Phase)
    requires InPhase(d, p, base, chain, ph) && d'.receipts == d.receipts && d'.targets == d.targets
    ensures InPhase(d', p, base, chain, ph)
  {
    assert forall id :: At(d', p, id) ==> Retired(d', p, id) == Retired(d, p, id);
    match ph
    case Writing(w) => assert OnTop(d', p, base, chain, w);
    case Undid(_, src) => assert OnTop(d', p, base, chain, src);
    case Half(_, src) => assert OnTop(d', p, base, chain, src);
    case _ =>
  }

  lemma WritePreparedKeeps(p: Place, d: Disk, task: Task, id: Id, d': Disk, base: Option<Digest>, chain: seq<Id>)
    requires Represents(d, p, base, chain, Quiet) && InControl(d, p, base, chain, Quiet, BackedUp(task, id))
    requires WritePrepared(p, d, id, d')
    ensures Represents(d', p, base, chain, Writing(id)) && Top(d', base, chain) == Top(d, base, chain)
    ensures InControl(d', p, base, chain, Writing(id), Journaled(task, id))
  {
    LinkIsTop(d, p, base, chain, d'.receipts[id].prev);
    StackCarried(d, d', p, base, chain);
    forall j | WriteAt(d', p, j) ensures HasBackup(d', j) {
      if j != id { assert WriteAt(d, p, j) && HasBackup(d, j); }
    }
    forall j | At(d', p, j) && j !in chain && j != id ensures Retired(d', p, j) {
      assert At(d, p, j) && Retired(d, p, j);
    }
  }

  lemma RecordedKeeps(p: Place, d: Disk, id: Id, d': Disk, base: Option<Digest>, chain: seq<Id>)
    requires Represents(d, p, base, chain, Writing(id)) && p in d.targets
    requires d' == d.(receipts := d.receipts[id := d.receipts[id].(post := Now(d, p), state := Applied)])
    ensures Represents(d', p, base, chain + [id], Landed)
    ensures Top(d', base, chain + [id]) == Now(d', p) == Now(d, p)
  {
    var chain' := chain + [id];
    StackCarried(d, d', p, base, chain);
    forall i | 0 <= i < |chain'| ensures LinkAt(d', p, base, chain', i) {
      assert chain'[..i] == chain[..i];
      if i < |chain| { assert LinkAt(d', p, base, chain, i); } else { assert chain[..i] == chain; }
    }
    forall j | WriteAt(d', p, j) ensures HasBackup(d', j) {
      assert WriteAt(d, p, j) && HasBackup(d, j);
    }
    forall j | At(d', p, j) && j !in chain' ensures Retired(d', p, j) {
      assert At(d, p, j) && j !in chain && Retired(d, p, j);
    }
    assert VerifiedBelow(d', chain', |chain'| - 1);
  }

  lemma VerifyKeeps(p: Place, d: Disk, base: Option<Digest>, chain: seq<Id>)
    requires Represents(d, p, base, chain, Landed)
    ensures Represents(SetState(d, chain[|chain| - 1], Verified), p, base, chain, Quiet)
  {
    var id := chain[|chain| - 1];
    StateChangeKeeps(d, p, base, chain, id, Verified);
    var d' := SetState(d, id, Verified);
    forall j | At(d', p, j) && j !in chain ensures Retired(d', p, j) {
      assert At(d, p, j) && Retired(d, p, j);
    }
  }

  lemma IntendKeeps(p: Place, d: Disk, wanted: Digest, rb: Id, src: Id, d': Disk, base: Option<Digest>, chain: seq<Id>)
    requires Represents(d, p, base, chain, Quiet) && Now(d, p) == Some(wanted)
    requires Selects(d, p, wanted, Head(src)) && Fresh(d, rb) && rb in d'.receipts
    requires d' == d.(receipts := d.receipts[rb := d'.receipts[rb]])
    requires d'.receipts[rb] == Rollback(p, Prepared, src, wanted, None, d'.receipts[rb].clock)
    ensures Represents(d', p, base, chain, Undoing(rb))
    ensures InControl(d', p, base, chain, Undoing(rb), Intended(rb, src))
  {
    SelectsTop(d, p, base, chain, wanted, src);
    StackCarried(d, d', p, base, chain);
    forall j | WriteAt(d', p, j) ensures HasBackup(d', j) {
      assert WriteAt(d, p, j) && HasBackup(d, j);
    }
    forall j | At(d', p, j) && j !in chain && j != rb ensures Retired(d', p, j) {
      assert At(d, p, j) && Retired(d, p, j);
    }
  }

  /** Rewriting the file alone leaves the journal's stack as it is. */
  lemma TargetChangeKeeps(d: Disk, d': Disk, p: Place, base: Option<Digest>, chain: seq<Id>)
    requires Stack(d, p, base, chain) && BackupsKept(d, p)
    requires d'.receipts == d.receipts && d'.backups == d.backups
    ensures Stack(d', p, base, chain) && BackupsKept(d', p) && Top(d', base, chain) == Top(d, base, chain)
    ensures chain != [] ==> Top(d', base, chain[..|chain| - 1]) == Top(d, base, chain[..|chain| - 1])
  {
    StackCarried(d, d', p, base, chain);
    forall j | WriteAt(d', p, j) ensures HasBackup(d', j) {
      assert WriteAt(d, p, j) && HasBackup(d, j);
    }
  }

  lemma ReplaceKeeps(p: Place, d: Disk, content: Bytes, id: Id, base: Option<Digest>, chain: seq<Id>)
    requires Represents(d, p, base, chain, Writing(id))
    ensures var d' := d.(targets := d.targets[p := content]);
      && Represents(d', p, base, chain, Writing(id)) && Now(d', p) == Some(Sha256(content))
      && Top(d', base, chain) == Top(d, base, chain)
  {
    var d' := d.(targets := d.targets[p := content]);
    TargetChangeKeeps(d, d', p, base, chain);
    assert forall j :: At(d', p, j) ==> Retired(d', p, j) == Retired(d, p, j);
  }

  /** The restored bytes are the ones the undone write replaced. */
  lemma RestoreKeeps(p: Place, d: Disk, rb: Id, src: Id, d': Disk, pc': Pc, base: Option<Digest>, chain: seq<Id>)
    requires Represents(d, p, base, chain, Undoing(rb))
    requires InControl(d, p, base, chain, Undoing(rb), Intended(rb, src))
    requires RestoreTarget(p, d, rb, src, d', pc')
    ensures Represents(d', p, base, chain, Undoing(rb))
    ensures pc' == Restored(rb, src) && InControl(d', p, base, chain, Undoing(rb), pc')
  {
    assert LinkAt(d, p, base, chain, |chain| - 1);
    assert HasBackup(d, src);
    TargetChangeKeeps(d, d', p, base, chain);
    assert forall j :: At(d', p, j) ==> Retired(d', p, j) == Retired(d, p, j);
  }

  lemma PopKeeps(p: Place, d: Disk, rb: Id, src: Id, d': Disk, pc': Pc, base: Option<Digest>, chain: seq<Id>)
    requires Represents(d, p, base, chain, Undoing(rb))
    requires InControl(d, p, base, chain, Undoing(rb), Restored(rb, src))
    requires RecordRestored(p, d, rb, src, d', pc')
    ensures Represents(d', p, base, chain[..|chain| - 1], Undid(rb, src))
    ensures pc' == Logged(rb, src) && Now(d', p) == Now(d, p)
  {
    assert LinkAt(d, p, base, chain, |chain| - 1);
    PopStack(p, d, rb, src, d', base, chain);
    PopAccounts(p, d, rb, src, d', base, chain);
    var below := chain[..|chain| - 1];
    assert OnTop(d', p, base, below, src);
  }

  /** The rollback receipt is not on the stack, so recording in it leaves what is below the top. */
  lemma PopStack(p: Place, d: Disk, rb: Id, src: Id, d': Disk, base: Option<Digest>, chain: seq<Id>)
    requires Represents(d, p, base, chain, Undoing(rb))
    requires rb in d'.receipts && d'.receipts[rb].Rollback? && d' == d.(receipts := d.receipts[rb := d'.receipts[rb]])
    ensures var below := chain[..|chain| - 1];
      && Stack(d', p, base, below) && BackupsKept(d', p) && Top(d', base, below) == Top(d, base, below)
  {
    var below := chain[..|chain| - 1];
    StackPrefix(d, p, base, chain);
    StackCarried(d, d', p, base, below);
    forall j | WriteAt(d', p, j) ensures HasBackup(d', j) {
      assert WriteAt(d, p, j) && HasBackup(d, j);
    }
  }

  lemma PopAccounts(p: Place, d: Disk, rb: Id, src: Id, d': Disk, base: Option<Digest>, chain: seq<Id>)
    requires Represents(d, p, base, chain, Undoing(rb)) && src == chain[|chain| - 1]
    requires rb in d'.receipts && d'.receipts[rb].Rollback? && d' == d.(receipts := d.receipts[rb := d'.receipts[rb]])
    ensures var below := chain[..|chain| - 1];
      Accounted(d', p, below, {rb, src}) && AllVerified(d', below) && src !in below
  {
    var below := chain[..|chain| - 1];
    forall j | At(d', p, j) && j !in below && j !in {rb, src} ensures Retired(d', p, j) {
      assert At(d, p, j) && j !in chain && Retired(d, p, j);
    }
    forall i | 0 <= i < |below| ensures below[i] in d'.receipts && d'.receipts[below[i]].state == Verified {
      assert below[i] == chain[i] && LinkAt(d, p, base, chain, i);
    }
  }

  lemma StackPrefix(d: Disk, p: Place, base: Option<Digest>, chain: seq<Id>)
    requires Stack(d, p, base, chain) && chain != []
    ensures Stack(d, p, base, chain[..|chain| - 1])
  {
    var below := chain[..|chain| - 1];
    forall i | 0 <= i < |below| ensures LinkAt(d, p, base, below, i) {
      assert LinkAt(d, p, base, chain, i) && below[..i] == chain[..i];
    }
  }

  lemma FirstTerminalKeeps(p: Place, d: Disk, rb: Id, src: Id, base: Option<Digest>, chain: seq<Id>)
    requires Represents(d, p, base, chain, Undid(rb, src))
    ensures Represents(SetState(d, rb, Verified), p, base, chain, Half(rb, src))
  {
    StateChangeKeeps(d, p, base, chain, rb, Verified);
    var d' := SetState(d, rb, Verified);
    forall j | At(d', p, j) && j !in chain && j !in {rb, src} ensures Retired(d', p, j) {
      assert At(d, p, j) && Retired(d, p, j);
    }
    assert OnTop(d', p, base, chain, src);
  }

  lemma SecondTerminalKeeps(p: Place, d: Disk, rb: Id, src: Id, base: Option<Digest>, chain: seq<Id>)
    requires Represents(d, p, base, chain, Half(rb, src))
    ensures Represents(MarkSource(d, src), p, base, chain, Quiet) && Now(MarkSource(d, src), p) == Now(d, p)
  {
    StateChangeKeeps(d, p, base, chain, src, RolledBack);
    var d' := MarkSource(d, src);
    forall j | At(d', p, j) && j !in chain ensures Retired(d', p, j) {
      assert At(d, p, j) && (j !in {rb, src} ==> Retired(d, p, j));
    }
  }

  /** Completing a rollback whose source is already marked changes nothing here. */
  lemma RemarkKeeps(p: Place, d: Disk, src: Id, base: Option<Digest>, chain: seq<Id>, ph: Phase)
    requires Represents(d, p, base, chain, ph) && SourceUndone(d, p, src)
    ensures Represents(MarkSource(d, src), p, base, chain, ph) && Now(MarkSource(d, src), p) == Now(d, p)
    ensures Top(MarkSource(d, src), base, chain) == Top(d, base, chain)
  {
    var d' := MarkSource(d, src);
    if At(d, p, src) {
      assert d'.receipts == d.receipts;
      assert d' == d;
    } else {
      ElsewhereKeeps(d, d', p, base, chain, ph);
    }
  }

  /** Activity on other places cannot reach this one's stack. */
  lemma ElsewhereKeeps(d: Disk, d': Disk, p: Place, base: Option<Digest>, chain: seq<Id>, ph: Phase)
    requires Represents(d, p, base, chain, ph) && Elsewhere(d, d', p)
    ensures Represents(d', p, base, chain, ph)
    ensures Top(d', base, chain) == Top(d, base, chain)
  {
    StackCarried(d, d', p, base, chain);
    forall j | WriteAt(d', p, j) ensures HasBackup(d', j) {
      assert WriteAt(d, p, j) && HasBackup(d, j);
    }
    forall i | 0 <= i < |chain| ensures At(d, p, chain[i]) && At(d', p, chain[i]) {
      assert LinkAt(d, p, base, chain, i);
    }
    assert forall j :: At(d', p, j) ==> At(d, p, j) && (Retired(d, p, j) ==> Retired(d', p, j));
    match ph
    case Writing(w) => assert OnTop(d', p, base, chain, w);
    case Undid(_, src) => assert OnTop(d', p, base, chain, src);
    case Half(_, src) => assert OnTop(d', p, base, chain, src);
    case _ =>
  }

  lemma SettleForRollbackKeeps(p: Place, d: Disk, task: Task, id: Id, d': Disk, pc': Pc,
                               base: Option<Digest>, chain: seq<Id>, ph: Phase) returns (ph': Phase)
    requires Represents(d, p, base, chain, ph) && InControl(d, p, base, chain, ph, Settle(task))
    requires task.RollbackTask? && SettleForRollback(p, d, task, id, d', pc')
    ensures Represents(d', p, base, chain, ph') && InControl(d', p, base, chain, ph', pc')
    ensures Now(d', p) == Now(d, p) && !ph.Blocked?
    ensures Doomed(d', p, base, chain, ph') == Doomed(d, p, base, chain, ph)
  {
    var r := d.receipts[id];
    PendingPhase(d, p, base, chain, ph, id);
    if r.FsWrite? && r.state == Applied {
      assert LinkAt(d, p, base, chain, |chain| - 1) && HasBackup(d, id);
      ph' := ReconcileKeeps(d, p, base, chain, ph, id, task, Settle(task), d', pc');
    } else {
      var next := if Reconciled(d, r) == RecoveryRequired then Done(Denied)
                  else if r.FsWrite? then Demote(task, id) else Settle(task);
      ph' := ReconcileKeeps(d, p, base, chain, ph, id, task, next, d', pc');
    }
  }

  lemma DemoteKeeps(p: Place, d: Disk, id: Id, base: Option<Digest>, chain: seq<Id>)
    requires Represents(d, p, base, chain, Quiet) && WriteAt(d, p, id) && d.receipts[id].state == RecoveredUnapplied
    ensures Represents(SetState(d, id, Superseded), p, base, chain, Quiet)
  {
    StateChangeKeeps(d, p, base, chain, id, Superseded);
    var d' := SetState(d, id, Superseded);
    forall i | 0 <= i < |chain| ensures chain[i] in d'.receipts && d'.receipts[chain[i]].state == Verified {
      assert d.receipts[chain[i]].state == Verified;
    }
    assert forall j :: At(d', p, j) ==> At(d, p, j) && (Retired(d, p, j) ==> Retired(d', p, j));
  }

  lemma DecideKeeps(p: Place, d: Disk, id: Id, d': Disk, pc': Pc, base: Option<Digest>, chain: seq<Id>, ph: Phase)
    returns (ph': Phase)
    requires Represents(d, p, base, chain, ph) && Decide(p, d, id, d', pc')
    ensures Represents(d', p, base, chain, ph') && InControl(d', p, base, chain, ph', pc')
    ensures Now(d', p) == Now(d, p) && (ph.Blocked? ==> ph' == ph)
    ensures Doomed(d', p, base, chain, ph') == Doomed(d, p, base, chain, ph)
  {
    ph' := ph;
    if At(d, p, id) {
      var r := d.receipts[id];
      if Incomplete(r.state) {
        PendingPhase(d, p, base, chain, ph, id);
        ph' := ReconcileKeeps(d, p, base, chain, ph, id, RecoverTask(id), Done(Checked), d', pc');
      } else if r.FsWrite? {
        assert HasBackup(d, id);
      } else if r.state == Verified {
        StackWrites(d, p, base, chain);
      }
    }
  }

  /** What one step does to the stack. */
  ghost predicate Moves(pc: Pc, chain: seq<Id>, chain': seq<Id>) {
    if pc.Replaced? then chain' == chain + [pc.id]
    else if pc.Restored? then chain == chain' + [pc.src]
    else chain' == chain
  }

  /** The step that follows, for the steps that cannot fail. */
  ghost predicate Proceeds(pc: Pc, pc': Pc) {
    match pc
    case BackedUp(task, id) => pc' == Journaled(task, id)
    case Journaled(task, id) => pc' == Replaced(task, id)
    case Replaced(task, id) => task.WriteTask? && pc' == Recorded(id, Sha256(task.content))
    case Recorded(id, post) => pc' == Done(Committed(id, post))
    case Intended(rb, src) => pc' == Restored(rb, src)
    case Restored(rb, src) => pc' == Logged(rb, src)
    case Logged(rb, src) => pc' == HalfDone(src)
    case HalfDone(src) => pc' == Done(Undone(src))
    case _ => true
  }

  lemma SettleKeeps(p: Place, d: Disk, task: Task, d': Disk, pc': Pc, base: Option<Digest>, chain: seq<Id>, ph: Phase)
    returns (ph': Phase)
    requires Represents(d, p, base, chain, ph) && InControl(d, p, base, chain, ph, Settle(task))
    requires Work(p, d, Settle(task), d', pc')
    ensures Represents(d', p, base, chain, ph') && InControl(d', p, base, chain, ph', pc')
    ensures Now(d', p) == Now(d, p) && (ph.Blocked? ==> ph' == ph)
    ensures Doomed(d', p, base, chain, ph') == Doomed(d, p, base, chain, ph)
  {
    match task
    case RecoverTask(id) => ph' := DecideKeeps(p, d, id, d', pc', base, chain, ph);
    case WriteTask(_, _) => ph' := SettleWriteKeeps(p, d, task, d', pc', base, chain, ph);
    case RollbackTask(wanted) =>
      if AnyPending(d, p) {
        var id :| SettleForRollback(p, d, task, id, d', pc');
        ph' := SettleForRollbackKeeps(p, d, task, id, d', pc', base, chain, ph);
      } else {
        ph' := SelectKeeps(p, d, wanted, d', pc', base, chain, ph);
      }
  }

  lemma SettleWriteKeeps(p: Place, d: Disk, task: Task, d': Disk, pc': Pc, base: Option<Digest>, chain: seq<Id>,
                         ph: Phase) returns (ph': Phase)
    requires Represents(d, p, base, chain, ph) && !ph.Half? && task.WriteTask?
    requires Work(p, d, Settle(task), d', pc')
    ensures Represents(d', p, base, chain, ph') && InControl(d', p, base, chain, ph', pc')
    ensures Now(d', p) == Now(d, p) && (ph.Blocked? ==> ph' == ph)
    ensures Doomed(d', p, base, chain, ph') == Doomed(d, p, base, chain, ph)
  {
    if AnyPending(d, p) {
      var id :| SettleForWrite(p, d, task, id, d', pc');
      PendingPhase(d, p, base, chain, ph, id);
      ph' := ReconcileKeeps(d, p, base, chain, ph, id, task, Settle(task), d', pc');
    } else {
      BeginWriteKeeps(p, d, task, d', pc', base, chain, ph);
      ph' := ph;
    }
  }

  lemma SelectKeeps(p: Place, d: Disk, wanted: Digest, d': Disk, pc': Pc, base: Option<Digest>, chain: seq<Id>,
                    ph: Phase) returns (ph': Phase)
    requires Represents(d, p, base, chain, ph) && !ph.Half? && Now(d, p) == Some(wanted)
    requires !AnyPending(d, p) && BeginRollback(p, d, wanted, d', pc')
    ensures Represents(d', p, base, chain, ph') && InControl(d', p, base, chain, ph', pc')
    ensures Now(d', p) == Now(d, p) && (ph.Blocked? ==> ph' == ph)
    ensures Doomed(d', p, base, chain, ph') == Doomed(d, p, base, chain, ph)
  {
    SettledPhase(d, p, base, chain, ph);
    ph' := ph;
    if exists src :: Selects(d, p, wanted, Head(src)) {
      if ph.Blocked? { BlockedSelectsNothing(d, p, base, chain, ph.x, wanted, pc'.src); }
      IntendKeeps(p, d, wanted, pc'.rb, pc'.src, d', base, chain);
      ph' := Undoing(pc'.rb);
    }
  }

  predicate WriterStage(pc: Pc) {
    pc.BackedUp? || pc.Journaled? || pc.Replaced? || pc.Recorded?
  }

  predicate RollbackStage(pc: Pc) {
    pc.Intended? || pc.Restored? || pc.Logged? || pc.HalfDone?
  }

  lemma WriterKeeps(p: Place, d: Disk, pc: Pc, d': Disk, pc': Pc, base: Option<Digest>, chain: seq<Id>, ph: Phase)
    returns (chain': seq<Id>, ph': Phase)
    requires Represents(d, p, base, chain, ph) && InControl(d, p, base, chain, ph, pc) && Work(p, d, pc, d', pc')
    requires WriterStage(pc)
    ensures Represents(d', p, base, chain', ph') && InControl(d', p, base, chain', ph', pc')
    ensures Moves(pc, chain, chain') && Proceeds(pc, pc') && !ph.Blocked?
    ensures !pc.Journaled? ==> Now(d', p) == Now(d, p)
    ensures !pc.Journaled? ==> !Doomed(d', p, base, chain', ph')
  {
    chain', ph' := chain, ph;
    if pc.BackedUp? {
      WritePreparedKeeps(p, d, pc.task, pc.id, d', base, chain);
      ph' := Writing(pc.id);
    } else if pc.Journaled? {
      ReplaceKeeps(p, d, pc.task.content, pc.id, base, chain);
    } else if pc.Replaced? {
      RecordedKeeps(p, d, pc.id, d', base, chain);
      chain', ph' := chain + [pc.id], Landed;
    } else {
      assert LinkAt(d, p, base, chain, |chain| - 1);
      VerifyKeeps(p, d, base, chain);
      ph' := Quiet;
    }
  }

  lemma IntendedKeeps(p: Place, d: Disk, pc: Pc, d': Disk, pc': Pc, base: Option<Digest>, chain: seq<Id>, ph: Phase)
    requires Represents(d, p, base, chain, ph) && InControl(d, p, base, chain, ph, pc) && Work(p, d, pc, d', pc')
    requires pc.Intended?
    ensures Represents(d', p, base, chain, ph) && InControl(d', p, base, chain, ph, pc')
    ensures Proceeds(pc, pc') && !ph.Blocked?
  {
    RestoreKeeps(p, d, pc.rb, pc.src, d', pc', base, chain);
  }

  lemma RestoredKeeps(p: Place, d: Disk, pc: Pc, d': Disk, pc': Pc, base: Option<Digest>, chain: seq<Id>, ph: Phase)
    returns (chain': seq<Id>, ph': Phase)
    requires Represents(d, p, base, chain, ph) && InControl(d, p, base, chain, ph, pc) && Work(p, d, pc, d', pc')
    requires pc.Restored?
    ensures Represents(d', p, base, chain', ph') && InControl(d', p, base, chain', ph', pc')
    ensures chain == chain' + [pc.src] && ph'.Undid? && Proceeds(pc, pc') && !ph.Blocked? && Now(d', p) == Now(d, p)
  {
    PopKeeps(p, d, pc.rb, pc.src, d', pc', base, chain);
    chain', ph' := chain[..|chain| - 1], Undid(pc.rb, pc.src);
  }

  lemma LoggedKeeps(p: Place, d: Disk, pc: Pc, d': Disk, pc': Pc, base: Option<Digest>, chain: seq<Id>, ph: Phase)
    returns (ph': Phase)
    requires Represents(d, p, base, chain, ph) && InControl(d, p, base, chain, ph, pc) && Work(p, d, pc, d', pc')
    requires pc.Logged?
    ensures Represents(d', p, base, chain, ph') && InControl(d', p, base, chain, ph', pc')
    ensures ph'.Half? && Proceeds(pc, pc') && !ph.Blocked? && Now(d', p) == Now(d, p)
  {
    FirstTerminalKeeps(p, d, pc.rb, pc.src, base, chain);
    ph' := Half(pc.rb, pc.src);
  }

  lemma HalfDoneKeeps(p: Place, d: Disk, pc: Pc, d': Disk, pc': Pc, base: Option<Digest>, chain: seq<Id>, ph: Phase)
    requires Represents(d, p, base, chain, ph) && InControl(d, p, base, chain, ph, pc) && Work(p, d, pc, d', pc')
    requires pc.HalfDone?
    ensures Represents(d', p, base, chain, Quiet) && InControl(d', p, base, chain, Quiet, pc')
    ensures Proceeds(pc, pc') && !ph.Blocked? && Now(d', p) == Now(d, p)
  {
    SecondTerminalKeeps(p, d, ph.rb, pc.src, base, chain);
  }

  lemma RollbackerKeeps(p: Place, d: Disk, pc: Pc, d': Disk, pc': Pc, base: Option<Digest>, chain: seq<Id>, ph: Phase)
    returns (chain': seq<Id>, ph': Phase)
    requires Represents(d, p, base, chain, ph) && InControl(d, p, base, chain, ph, pc) && Work(p, d, pc, d', pc')
    requires RollbackStage(pc)
    ensures Represents(d', p, base, chain', ph') && InControl(d', p, base, chain', ph', pc')
    ensures Moves(pc, chain, chain') && Proceeds(pc, pc') && !ph.Blocked?
    ensures !pc.Intended? ==> Now(d', p) == Now(d, p)
    ensures !pc.Intended? ==> !Doomed(d', p, base, chain', ph')
  {
    chain', ph' := chain, ph;
    if pc.Intended? {
      IntendedKeeps(p, d, pc, d', pc', base, chain, ph);
    } else if pc.Restored? {
      chain', ph' := RestoredKeeps(p, d, pc, d', pc', base, chain, ph);
    } else if pc.Logged? {
      ph' := LoggedKeeps(p, d, pc, d', pc', base, chain, ph);
    } else {
      HalfDoneKeeps(p, d, pc, d', pc', base, chain, ph);
      ph' := Quiet;
    }
  }

  /** One step of the lock holder: the new disk represents the same stack, pushed, or popped. */
  lemma WorkKeeps(p: Place, d: Disk, pc: Pc, d': Disk, pc': Pc, base: Option<Digest>, chain: seq<Id>, ph: Phase)
    returns (chain': seq<Id>, ph': Phase)
    requires Represents(d, p, base, chain, ph) && InControl(d, p, base, chain, ph, pc) && Work(p, d, pc, d', pc')
    ensures Represents(d', p, base, chain', ph') && InControl(d', p, base, chain', ph', pc')
    ensures Moves(pc, chain, chain') && Proceeds(pc, pc')
    ensures !pc.Journaled? && !pc.Intended? ==> Now(d', p) == Now(d, p)
    ensures ph.Blocked? ==> ph' == ph && Now(d', p) == Now(d, p)
    ensures !pc.Journaled? && !pc.Intended? && !Doomed(d, p, base, chain, ph) ==> !Doomed(d', p, base, chain', ph')
    ensures pc.Replaced? || pc.Restored? ==> !Doomed(d', p, base, chain', ph')
    ensures !WriterStage(pc) && !RollbackStage(pc) ==> Doomed(d', p, base, chain', ph') == Doomed(d, p, base, chain, ph)
  {
    chain', ph' := chain, ph;
    if WriterStage(pc) {
      chain', ph' := WriterKeeps(p, d, pc, d', pc', base, chain, ph);
    } else if RollbackStage(pc) {
      chain', ph' := RollbackerKeeps(p, d, pc, d', pc', base, chain, ph);
    } else {
      match pc
      case Enter(_) =>
      case Settle(task) => ph' := SettleKeeps(p, d, task, d', pc', base, chain, ph);
      case Finish(task, src) =>
        if ph.Half? && ph.src == src {
          SecondTerminalKeeps(p, d, ph.rb, src, base, chain);
          ph' := Quiet;
        } else {
          RemarkKeeps(p, d, src, base, chain, ph);
        }
      case Demote(_, id) => DemoteKeeps(p, d, id, base, chain);
    }
  }
}
