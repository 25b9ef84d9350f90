/**
 The one crash window that writes and rollbacks do not settle themselves: a rollback that died
 between its two terminal writes. Exactly there, a write made before recovery loses its lineage.
 */
module HalfRollback {
  import opened Wrappers
  import opened Journal
  import opened Protocol
  import opened Lineage
  import opened Safety
  import opened UndoStack
  import opened Trails
  import opened Scripts

  lemma HalfIsVisible(d: Disk, p: Place, base: Option<Digest>, chain: seq<Id>, ph: Phase)
    requires Represents(d, p, base, chain, ph)
    ensures AnyHalfFinished(d, p) <==> ph.Half?
  {
    if ph.Half? {
      assert HalfFinished(d, p, ph.rb);
    } else {
      StackWrites(d, p, base, chain);
      forall rb | At(d, p, rb) ensures !HalfFinished(d, p, rb) {
        assert rb !in chain && rb !in PhaseReceipts(ph) ==> Retired(d, p, rb);
      }
    }
  }

  function PhaseReceipts(ph: Phase): set<Id> {
    match ph
    case Writing(w) => {w}
    case Undoing(rb) => {rb}
    case Undid(rb, src) => {rb, src}
    case Half(rb, src) => {rb, src}
    case Blocked(x) => {x}
    case _ => {}
  }

  /** The undone write still counts, so it hides every receipt below it from head selection. */
  lemma HalfHeads(d: Disk, p: Place, base: Option<Digest>, chain: seq<Id>, rb: Id, src: Id, h: Digest)
    requires Represents(d, p, base, chain, Half(rb, src))
    ensures Heads(d, p, h) <= {src}
    ensures Post(d, src) != Some(h) ==> Heads(d, p, h) == {}
  {
    forall i | 0 <= i < |chain| ensures chain[i] in Effective(d, p) {
      if i < |chain| - 1 {
        BelowTopReferenced(d, p, base, chain, i);
      } else {
        assert d.receipts[src].prev == Some(chain[i]) && WriteAt(d, p, src);
      }
    }
  }

  /**
   A write links to the write it is made on exactly when no rollback of the place is half finished
   (over an empty stack there is nothing to link to).
   */
  lemma LinkCorrectIff(d: Disk, p: Place, base: Option<Digest>, chain: seq<Id>, ph: Phase, link: Option<Id>)
    requires Represents(d, p, base, chain, ph) && !AnyPending(d, p) && !AnyBlocking(d, p)
    requires chain != [] && LinkFor(d, p, Now(d, p), link)
    ensures link == Some(chain[|chain| - 1]) <==> !AnyHalfFinished(d, p)
  {
    SettledPhase(d, p, base, chain, ph);
    HalfIsVisible(d, p, base, chain, ph);
    PhaseShows(d, p, base, chain, ph);
    StackWrites(d, p, base, chain);
    assert chain[|chain| - 1] in chain;
    if ph == Quiet {
      LinkIsTop(d, p, base, chain, link);
    } else {
      HalfHeads(d, p, base, chain, ph.rb, ph.src, Now(d, p).value);
    }
  }

  /** What a write made over an empty stack links to is nothing that stands once the undone write is marked. */
  lemma LinkOverEmpty(d: Disk, p: Place, base: Option<Digest>, rb: Id, src: Id, link: Option<Id>)
    requires Represents(d, p, base, [], Half(rb, src)) && LinkFor(d, p, Now(d, p), link)
    ensures Detached(MarkSource(d, src), p, link)
  {
    if Now(d, p).Some? {
      HalfHeads(d, p, base, [], rb, src, Now(d, p).value);
      assert link.Some? ==> link.value in Heads(d, p, Now(d, p).value);
    } else if link.Some? && link.value != src {
      assert WriteAt(d, p, link.value) && Retired(d, p, link.value);
    }
  }

  /**
   Over an empty stack nothing is lost: a write made on a half finished rollback, and then the recovery
   that marks its source, leave the undo stack of that write alone.
   */
  lemma EmptyStackHeals(d: Disk, p: Place, base: Option<Digest>, rb: Id, src: Id, content: Bytes, id: Id,
                        link: Option<Id>)
    requires Represents(d, p, base, [], Half(rb, src)) && Writable(d, p, id) && LinkFor(d, p, Now(d, p), link)
    ensures Trails.Written(p, WriteScript(d, p, content, id, link), id, content)
    ensures Represents(MarkSource(Last(WriteScript(d, p, content, id, link)).disk, src), p, base, [id], Quiet)
  {
    WriteScriptIsTrail(d, p, content, id, link);
    HealedStack(d, p, base, rb, src, content, id, link);
  }

  lemma HealedStack(d: Disk, p: Place, base: Option<Digest>, rb: Id, src: Id, content: Bytes, id: Id,
                    link: Option<Id>)
    requires Represents(d, p, base, [], Half(rb, src)) && Writable(d, p, id) && LinkFor(d, p, Now(d, p), link)
    ensures Represents(MarkSource(Scripts.Written(d, p, content, id, link, Verified), src), p, base, [id], Quiet)
  {
    LinkOverEmpty(d, p, base, rb, src, link);
    var q := MarkSource(d, src);
    SecondTerminalKeeps(p, d, rb, src, base, []);
    var x := MarkSource(Scripts.Written(d, p, content, id, link, Verified), src);
    assert x.receipts == q.receipts[id := NewWrite(d, p, content, id, link, Verified)];
    NewBottom(q, x, p, base, id, content);
  }

  lemma NewBottom(q: Disk, x: Disk, p: Place, base: Option<Digest>, id: Id, content: Bytes)
    requires Represents(q, p, base, [], Quiet) && Fresh(q, id) && id !in q.backups
    requires id in x.receipts && x.receipts == q.receipts[id := x.receipts[id]] && x.targets == q.targets[p := content]
    requires x.backups == if p in q.targets then q.backups[id := q.targets[p]] else q.backups
    requires var r := x.receipts[id];
      && r.FsWrite? && r.place == p && r.state == Verified && r.pre == Now(q, p) && r.post == Some(Sha256(content))
      && r.backup == (if p in q.targets then Some(id) else None) && Detached(q, p, r.prev) && r.prev != Some(id)
    ensures Represents(x, p, base, [id], Quiet)
  {
    assert [id][..0] == [];
    assert OnTop(x, p, base, [], id);
    forall j | WriteAt(x, p, j) ensures HasBackup(x, j) {
      if j != id { assert WriteAt(q, p, j) && HasBackup(q, j); }
    }
    forall j | Journal.At(x, p, j) && j != id ensures Retired(x, p, j) {
      assert Retired(q, p, j);
    }
  }

  /**
   Why recovery must come first: over any half finished rollback with something below it, a governed
   write succeeds unlinked. Even once the source is marked, two unreferenced receipts claim the
   content, nothing is pending or blocked, and every rollback of the file is denied.
   */
  lemma ForkedLineage(d: Disk, p: Place, base: Option<Digest>, chain: seq<Id>, rb: Id, src: Id, id: Id)
    requires Represents(d, p, base, chain, Half(rb, src)) && chain != [] && d.damaged.Keys == {}
    requires p in d.targets && |d.targets[p]| <= MAX_BACKUP_BYTES
    requires Post(d, src) != Now(d, p)
    requires id.RecoveryId? && Fresh(d, id) && id !in d.backups
    ensures var cs := WriteScript(d, p, d.targets[p], id, None);
      Trails.Written(p, cs, id, d.targets[p])
    ensures var x := MarkSource(Last(WriteScript(d, p, d.targets[p], id, None)).disk, src);
      && Clear(x, p) && Now(x, p) == Now(d, p)
      && {chain[|chain| - 1], id} <= Heads(x, p, Sha256(d.targets[p]))
      && forall s :: !Selects(x, p, Sha256(d.targets[p]), Head(s))
  {
    HalfWritable(d, p, base, chain, rb, src, id);
    UnlinkedLink(d, p, base, chain, rb, src);
    WriteScriptIsTrail(d, p, d.targets[p], id, None);
    RewriteForks(d, p, base, chain, rb, src, id);
  }

  /** A half finished rollback stops nobody. */
  lemma HalfWritable(d: Disk, p: Place, base: Option<Digest>, chain: seq<Id>, rb: Id, src: Id, id: Id)
    requires Represents(d, p, base, chain, Half(rb, src)) && d.damaged.Keys == {}
    requires p in d.targets ==> |d.targets[p]| <= MAX_BACKUP_BYTES
    requires id.RecoveryId? && Fresh(d, id) && id !in d.backups
    ensures Writable(d, p, id)
  {
    if j :| Pending(d, p, j) { PendingPhase(d, p, base, chain, Half(rb, src), j); }
    if j :| Blocking(d, p, j) { BlockingPhase(d, p, base, chain, Half(rb, src), j); }
  }

  lemma UnlinkedLink(d: Disk, p: Place, base: Option<Digest>, chain: seq<Id>, rb: Id, src: Id)
    requires Represents(d, p, base, chain, Half(rb, src)) && chain != [] && p in d.targets && Post(d, src) != Now(d, p)
    ensures LinkFor(d, p, Now(d, p), None)
  {
    HalfHeads(d, p, base, chain, rb, src, Sha256(d.targets[p]));
    assert forall j :: !SoleHead(d, p, Sha256(d.targets[p]), j);
  }

  lemma RewriteForks(d: Disk, p: Place, base: Option<Digest>, chain: seq<Id>, rb: Id, src: Id, id: Id)
    requires Represents(d, p, base, chain, Half(rb, src)) && chain != []
    requires p in d.targets && Post(d, src) != Now(d, p) && Fresh(d, id)
    ensures var x := MarkSource(Scripts.Written(d, p, d.targets[p], id, None, Verified), src);
      && Clear(x, p) && Now(x, p) == Now(d, p)
      && {chain[|chain| - 1], id} <= Heads(x, p, Sha256(d.targets[p]))
      && forall s :: !Selects(x, p, Sha256(d.targets[p]), Head(s))
  {
    var h := Sha256(d.targets[p]);
    var x := MarkSource(Scripts.Written(d, p, d.targets[p], id, None, Verified), src);
    var q := MarkSource(d, src);
    SecondTerminalKeeps(p, d, rb, src, base, chain);
    assert x.receipts == q.receipts[id := NewWrite(d, p, d.targets[p], id, None, Verified)];
    HeadIsTop(q, p, base, chain, h);
    UnlinkedHead(q, x, p, id, h, chain[|chain| - 1]);
    UnlinkedClear(q, x, p, base, chain, id);
  }

  /** A verified write of `h` that no receipt is linked to and that is linked to none. */
  predicate Unlinked(d: Disk, p: Place, id: Id, h: Digest) {
    && WriteAt(d, p, id) && d.receipts[id].state == Verified
    && d.receipts[id].post == Some(h) && d.receipts[id].prev == None
  }

  lemma UnlinkedHead(q: Disk, x: Disk, p: Place, id: Id, h: Digest, top: Id)
    requires Fresh(q, id) && Unlinked(x, p, id, h) && x.receipts == q.receipts[id := x.receipts[id]]
    requires top in Heads(q, p, h)
    ensures {top, id} <= Heads(x, p, h) && forall s :: !Selects(x, p, h, Head(s))
  {
    assert forall j :: j != id && j in x.receipts ==> j in q.receipts && x.receipts[j] == q.receipts[j];
    forall e | e in Effective(x, p) ensures e in Effective(q, p) {
      var j :| j in x.receipts && WriteAt(x, p, j) && x.receipts[j].prev == Some(e)
               && (x.receipts[j].state == Applied || x.receipts[j].state == Verified);
      assert j != id && WriteAt(q, p, j);
    }
    forall e | e in Effective(q, p) ensures e != id {
      var j :| j in q.receipts && WriteAt(q, p, j) && q.receipts[j].prev == Some(e);
    }
  }

  lemma UnlinkedClear(q: Disk, x: Disk, p: Place, base: Option<Digest>, chain: seq<Id>, id: Id)
    requires Represents(q, p, base, chain, Quiet) && Fresh(q, id)
    requires WriteAt(x, p, id) && x.receipts[id].state == Verified && x.receipts == q.receipts[id := x.receipts[id]]
    ensures Clear(x, p)
  {
    StackStands(q, p, base, chain, Quiet);
    HalfIsVisible(q, p, base, chain, Quiet);
    forall j | Journal.At(x, p, j) ensures !Pending(x, p, j) && !Blocking(x, p, j) && !HalfFinished(x, p, j) {
      if j != id {
        assert Journal.At(q, p, j) && !HalfFinished(q, p, j);
        if j in chain {
          var i :| 0 <= i < |chain| && chain[i] == j;
          assert q.receipts[chain[i]].state == Verified;
        } else {
          assert Retired(q, p, j);
        }
      }
    }
  }
}
