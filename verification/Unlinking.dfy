/** One receipt unlinked, whichever it is: exactly when the undo stack, or the freeze of a blocked file, survives it. */
module Unlinking {
  import opened Wrappers
  import opened Journal
  import opened Protocol
  import opened Lineage
  import opened Safety
  import opened UndoStack
  import opened PruningRuns
  import HalfRollback
  import Retention
  import Unblocking

  /**
   What may be unlinked of a settled place: anything off the stack, its bottom, and its top if the write
   below it left the bytes the file has.
   */
  predicate Spares(d: Disk, p: Place, chain: seq<Id>, id: Id) {
    || id !in chain || id == chain[0]
    || (|chain| > 1 && id == chain[|chain| - 1] && Post(d, chain[|chain| - 2]) == Now(d, p))
  }

  ghost predicate StillHistory(d: Disk, p: Place) {
    exists base, chain :: StandingHistory(d, p, base, chain)
  }

  ghost predicate StillStack(d: Disk, p: Place) {
    exists base, chain :: Represents(d, p, base, chain, Quiet)
  }

  /** Off the stack or at its bottom. */
  lemma UnlinkEnds(d: Disk, p: Place, base: Option<Digest>, chain: seq<Id>, id: Id)
    requires Represents(d, p, base, chain, Quiet) && At(d, p, id) && (id in chain ==> id == chain[0])
    ensures StillStack(Unlinked(d, id), p)
  {
    var s := State(d, None, map[]);
    assert id !in chain ==> Retired(d, p, id);
    assert id in chain ==> d.receipts[chain[0]].state == Verified;
    PrunableNow(p, s, id, base, chain, Quiet);
    UnlinkKeeps(p, s, id, base, chain, Quiet);
  }

  /** At its top. */
  lemma UnlinkTop(d: Disk, p: Place, base: Option<Digest>, chain: seq<Id>)
    requires Represents(d, p, base, chain, Quiet) && |chain| > 1 && Post(d, chain[|chain| - 2]) == Now(d, p)
    ensures StillStack(Unlinked(d, chain[|chain| - 1]), p)
  {
    var n := |chain| - 1;
    var below, x := chain[..n], Unlinked(d, chain[n]);
    StackPrefix(d, p, base, chain);
    Unblocking.StackWithout(d, x, p, base, below, chain[n]);
    TopOffAccounts(d, p, base, chain);
    forall j | WriteAt(x, p, j) ensures HasBackup(x, j) { assert HasBackup(d, j); }
    assert below[n - 1] == chain[n - 1];
    assert Represents(x, p, base, below, Quiet);
  }

  lemma TopOffAccounts(d: Disk, p: Place, base: Option<Digest>, chain: seq<Id>)
    requires Represents(d, p, base, chain, Quiet) && chain != []
    ensures var n := |chain| - 1;
      AllVerified(Unlinked(d, chain[n]), chain[..n]) && Accounted(Unlinked(d, chain[n]), p, chain[..n], {})
  {
    var n := |chain| - 1;
    var below, x := chain[..n], Unlinked(d, chain[n]);
    forall i | 0 <= i < n ensures below[i] in x.receipts && x.receipts[below[i]].state == Verified {
      assert below[i] == chain[i] != chain[n];
    }
    forall j | At(x, p, j) && j !in below ensures Retired(x, p, j) {
      assert j !in chain && Retired(d, p, j);
    }
  }

  lemma StackIsHistory(d: Disk, p: Place)
    requires StillStack(d, p)
    ensures StillHistory(d, p)
  {
    var base, chain :| Represents(d, p, base, chain, Quiet);
    HalfRollback.HalfIsVisible(d, p, base, chain, Quiet);
    forall id ensures !Pending(d, p, id) && !Blocking(d, p, id) {
      if Pending(d, p, id) { PendingPhase(d, p, base, chain, Quiet, id); }
      if Blocking(d, p, id) { BlockingPhase(d, p, base, chain, Quiet, id); }
    }
    ClearHistory(d, p, base, chain, Quiet);
  }

  /** The members of any history left are those of the stack but one. */
  lemma HistoryMembers(d: Disk, p: Place, base: Option<Digest>, chain: seq<Id>, id: Id, base': Option<Digest>,
                       left: seq<Id>)
    requires Represents(d, p, base, chain, Quiet) && StandingHistory(Unlinked(d, id), p, base', left)
    ensures forall j :: j in left <==> j in chain && j != id
  {
    Retention.SettledUpright(d, p, base, chain, Quiet);
  }

  /** In it, a member is first or stands on the one it was made on. */
  lemma HistoryPlace(d: Disk, p: Place, base: Option<Digest>, chain: seq<Id>, id: Id, base': Option<Digest>,
                     left: seq<Id>,
                     i: nat) returns (u: nat)
    requires Represents(d, p, base, chain, Quiet) && StandingHistory(Unlinked(d, id), p, base', left)
    requires i < |chain| && chain[i] != id
    ensures u < |left| && left[u] == chain[i]
    ensures u > 0 ==> i > 0 && left[u - 1] == chain[i - 1] != id
  {
    HistoryMembers(d, p, base, chain, id, base', left);
    assert chain[i] in chain;
    u :| 0 <= u < |left| && left[u] == chain[i];
    assert LinkAt(d, p, base, chain, i);
    if u > 0 {
      assert FollowsOn(Unlinked(d, id), left[u - 1], left[u]);
      assert left[u - 1] in left && WriteAt(d, p, left[u - 1]) && d.receipts[left[u - 1]].state == Verified;
      assert i > 0 ==> chain[..i][|chain[..i]| - 1] == chain[i - 1];
      assert chain[..0] == [];
    }
  }

  /** With a middle one gone two members would have to be first. */
  lemma MiddleBreaks(d: Disk, p: Place, base: Option<Digest>, chain: seq<Id>, k: nat, base': Option<Digest>,
                     left: seq<Id>)
    requires Represents(d, p, base, chain, Quiet) && 0 < k < |chain| - 1
    ensures !StandingHistory(Unlinked(d, chain[k]), p, base', left)
  {
    if StandingHistory(Unlinked(d, chain[k]), p, base', left) {
      var u := HistoryPlace(d, p, base, chain, chain[k], base', left, 0);
      var v := HistoryPlace(d, p, base, chain, chain[k], base', left, k + 1);
    }
  }

  /** With the top gone the one below it is last. */
  lemma TopLeavesLast(d: Disk, p: Place, base: Option<Digest>, chain: seq<Id>, base': Option<Digest>, left: seq<Id>)
    requires Represents(d, p, base, chain, Quiet) && |chain| > 1
    requires StandingHistory(Unlinked(d, chain[|chain| - 1]), p, base', left)
    ensures left != [] && left[|left| - 1] == chain[|chain| - 2]
  {
    var n, id := |chain| - 1, chain[|chain| - 1];
    var w := HistoryPlace(d, p, base, chain, id, base', left, n - 1);
    HistoryMembers(d, p, base, chain, id, base', left);
    if w < |left| - 1 {
      assert left[w + 1] in left;
      var j :| 0 <= j < |chain| && chain[j] == left[w + 1];
      var v := HistoryPlace(d, p, base, chain, id, base', left, j);
    }
  }

  /**
   Exactly which single unlink a settled place survives, as a history one can read off its receipts and
   as a stack its operations can go on from.
   */
  lemma UnlinkSettledIff(d: Disk, p: Place, base: Option<Digest>, chain: seq<Id>, id: Id)
    requires Represents(d, p, base, chain, Quiet) && At(d, p, id)
    ensures StillHistory(Unlinked(d, id), p) <==> Spares(d, p, chain, id)
    ensures StillStack(Unlinked(d, id), p) <==> Spares(d, p, chain, id)
  {
    var x := Unlinked(d, id);
    if Spares(d, p, chain, id) {
      if id in chain && id != chain[0] { UnlinkTop(d, p, base, chain); } else { UnlinkEnds(d, p, base, chain, id); }
    }
    if StillStack(x, p) { StackIsHistory(x, p); }
    if base', left :| StandingHistory(x, p, base', left) {
      if id in chain && id != chain[0] {
        var k :| 0 <= k < |chain| && chain[k] == id;
        if k < |chain| - 1 {
          MiddleBreaks(d, p, base, chain, k, base', left);
        } else {
          TopLeavesLast(d, p, base, chain, base', left);
        }
      }
    }
  }

  /** The stack member that unlinking `id` bares. */
  ghost predicate Bares(d: Disk, p: Place, chain: seq<Id>, id: Id, src: Id) {
    exists i :: 0 <= i < |chain| - 1 && chain[i] == src && chain[i + 1] == id && Post(d, src) == Now(d, p)
  }

  /**
   Exactly which single unlink unfreezes a blocked file: that of a stack member made on one that left the
   bytes now there, if the blocking receipt was not made on that one too. Then a rollback selects it.
   */
  lemma UnlinkUnfreezesIff(d: Disk, p: Place, base: Option<Digest>, chain: seq<Id>, x: Id, id: Id, h: Digest, src: Id)
    requires Represents(d, p, base, chain, Blocked(x)) && Now(d, p) == Some(h) && id != x
    ensures Selects(Unlinked(d, id), p, h, Head(src)) <==> Bares(d, p, chain, id, src) && !MadeOn(d, x, src)
  {
    Retention.UnfreezesIff(d, p, base, chain, x, {id}, h, src);
    SameSelection(Unlinked(d, id), Retention.Pruned(d, {id}), p, h, src);
    if Bares(d, p, chain, id, src) {
      var i :| 0 <= i < |chain| - 1 && chain[i] == src && chain[i + 1] == id && Post(d, src) == Now(d, p);
      assert chain[i] != chain[i + 1] && Retention.Bared(d, chain, {id}, h, i);
    }
  }

  lemma SameSelection(x: Disk, y: Disk, p: Place, h: Digest, src: Id)
    requires x.receipts == y.receipts
    ensures Selects(x, p, h, Head(src)) <==> Selects(y, p, h, Head(src))
  {
    assert Heads(x, p, h) == Heads(y, p, h) && Doubtful(x, p) == Doubtful(y, p);
  }
}
