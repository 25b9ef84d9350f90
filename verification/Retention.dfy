/** Pruning old terminal receipts: what may go, what must stay, and when the undo stack survives it. */
module Retention {
  import opened Wrappers
  import opened Journal
  import opened Protocol
  import opened Lineage
  import opened Safety
  import opened Recovery

  /** What a prune removes of the receipt files older than the retention period. */
  function Gone(d: Disk, aged: set<Id>): set<Id> {
    set id | id in d.receipts && id in aged && Terminal(d.receipts[id].state)
  }

  function BackupsOf(d: Disk, ids: set<Id>): set<Id> {
    set id | id in ids && id in d.receipts && d.receipts[id].FsWrite? && d.receipts[id].backup.Some? ::
      d.receipts[id].backup.value
  }

  function Pruned(d: Disk, gone: set<Id>): Disk {
    d.(receipts := d.receipts - gone, backups := d.backups - BackupsOf(d, gone))
  }

  /** The same where the backups `held` could not be removed. */
  function PrunedBut(d: Disk, gone: set<Id>, held: set<Id>): Disk {
    d.(receipts := d.receipts - gone, backups := d.backups - (BackupsOf(d, gone) - held))
  }

  /** A prune stopped after any of its unlinks: the receipts `gone` are off, their backups perhaps. */
  ghost predicate Partly(d: Disk, x: Disk, gone: set<Id>) {
    && x.targets == d.targets && x.damaged == d.damaged && x.receipts == d.receipts - gone
    && x.backups.Keys <= d.backups.Keys
    && forall b :: b in d.backups && b !in BackupsOf(d, gone) ==> b in x.backups && x.backups[b] == d.backups[b]
  }

  /** Every write of the store has its backup. */
  ghost predicate Intact(d: Disk) {
    forall id :: id in d.receipts && d.receipts[id].FsWrite? ==> HasBackup(d, id)
  }

  /** No receipt names another receipt's backup. */
  ghost predicate OwnBackups(d: Disk) {
    forall id :: id in d.receipts && d.receipts[id].FsWrite? && d.receipts[id].backup.Some? ==>
      d.receipts[id].backup == Some(id)
  }

  /** Backup conservation through a prune, wherever it is stopped. */
  lemma PruneKeepsBackups(d: Disk, x: Disk, aged: set<Id>, gone: set<Id>)
    requires Intact(d) && OwnBackups(d) && gone <= Gone(d, aged) && Partly(d, x, gone)
    ensures Intact(x) && OwnBackups(x)
    ensures forall id :: id in d.receipts && !Terminal(d.receipts[id].state) ==>
      id in x.receipts && x.receipts[id] == d.receipts[id]
    ensures forall b :: b in d.backups && b !in BackupsOf(d, d.receipts.Keys) ==> b in x.backups
  {
  }

  /** A receipt left on the stack although the one written on top of it was pruned. */
  predicate Bared(d: Disk, chain: seq<Id>, gone: set<Id>, h: Digest, i: nat)
    requires i + 1 < |chain|
  {
    chain[i] !in gone && chain[i + 1] in gone && Post(d, chain[i]) == Some(h)
  }

  /** A stack member a rollback of content `h` would consider after the prune. */
  predicate Exposed(d: Disk, chain: seq<Id>, gone: set<Id>, h: Digest, i: nat)
    requires i < |chain|
  {
    chain[i] !in gone && Post(d, chain[i]) == Some(h) && (i + 1 == |chain| || chain[i + 1] in gone)
  }

  /** The stack holds every standing write of the place, and all of it is verified. */
  ghost predicate Upright(d: Disk, p: Place, base: Option<Digest>, chain: seq<Id>) {
    Stack(d, p, base, chain) && AllVerified(d, chain) && OnlyStackStands(d, p, chain)
  }

  lemma SettledUpright(d: Disk, p: Place, base: Option<Digest>, chain: seq<Id>, ph: Phase)
    requires Represents(d, p, base, chain, ph) && (ph == Quiet || ph.Blocked?)
    ensures Upright(d, p, base, chain)
    ensures forall id :: id in chain ==>
      WriteAt(d, p, id) && d.receipts[id].state == Verified && d.receipts[id].post.Some?
    ensures forall id :: WriteAt(d, p, id) && d.receipts[id].state == RecoveryRequired ==> ph == Blocked(id)
  {
    StackWrites(d, p, base, chain);
    forall id | id in chain ensures WriteAt(d, p, id) && d.receipts[id].state == Verified {
      var i :| 0 <= i < |chain| && chain[i] == id;
    }
  }

  lemma HeadIsExposed(d: Disk, x: Disk, p: Place, base: Option<Digest>, chain: seq<Id>, gone: set<Id>, h: Digest,
                      id: Id)
    returns (i: nat)
    requires Upright(d, p, base, chain) && x.receipts == d.receipts - gone && id in Heads(x, p, h)
    ensures i < |chain| && id == chain[i] && Exposed(d, chain, gone, h, i)
  {
    assert WriteAt(d, p, id) && d.receipts[id].state == Verified;
    i :| 0 <= i < |chain| && chain[i] == id;
    if i + 1 < |chain| {
      LinkedAbove(d, p, base, chain, i);
      assert d.receipts[chain[i + 1]].state == Verified;
      assert chain[i + 1] in x.receipts <==> chain[i + 1] !in gone;
    }
  }

  lemma ExposedIsHead(d: Disk, x: Disk, p: Place, base: Option<Digest>, chain: seq<Id>, gone: set<Id>, h: Digest,
                      i: nat)
    requires Upright(d, p, base, chain) && x.receipts == d.receipts - gone
    requires i < |chain| && Exposed(d, chain, gone, h, i)
    ensures chain[i] in Heads(x, p, h)
  {
    assert LinkAt(d, p, base, chain, i) && d.receipts[chain[i]].state == Verified;
    forall j | WriteAt(x, p, j) && (x.receipts[j].state == Applied || x.receipts[j].state == Verified)
      ensures x.receipts[j].prev != Some(chain[i])
    {
      assert WriteAt(d, p, j) && j in chain;
      var k :| 0 <= k < |chain| && chain[k] == j;
      if d.receipts[j].prev == Some(chain[i]) { LinkedBelow(d, p, base, chain, k, i); }
    }
  }

  lemma LinkedAbove(d: Disk, p: Place, base: Option<Digest>, chain: seq<Id>, i: nat)
    requires Stack(d, p, base, chain) && i + 1 < |chain|
    ensures WriteAt(d, p, chain[i + 1]) && d.receipts[chain[i + 1]].prev == Some(chain[i])
  {
    assert LinkAt(d, p, base, chain, i + 1);
    assert chain[..i + 1][|chain[..i + 1]| - 1] == chain[i];
  }

  lemma LinkedBelow(d: Disk, p: Place, base: Option<Digest>, chain: seq<Id>, k: nat, i: nat)
    requires Stack(d, p, base, chain) && AllVerified(d, chain) && k < |chain| && i < |chain|
    requires WriteAt(d, p, chain[k]) && d.receipts[chain[k]].prev == Some(chain[i])
    ensures k == i + 1
  {
    assert LinkAt(d, p, base, chain, k) && LinkAt(d, p, base, chain, i) && d.receipts[chain[i]].state == Verified;
    assert chain[..0] == [];
    if k > 0 { LinkedAbove(d, p, base, chain, k - 1); }
  }

  /**
   Exactly when a prune leaves the next rollback intact, whatever it removed: the top is kept, and no
   kept receipt with the file's present content lost the receipt on top of it.
   */
  lemma SelectionSurvivesIff(d: Disk, p: Place, base: Option<Digest>, chain: seq<Id>, gone: set<Id>, h: Digest)
    requires Represents(d, p, base, chain, Quiet) && chain != [] && Now(d, p) == Some(h)
    ensures Selects(Pruned(d, gone), p, h, Head(chain[|chain| - 1])) <==>
      chain[|chain| - 1] !in gone && forall i :: 0 <= i < |chain| - 1 ==> !Bared(d, chain, gone, h, i)
  {
    var x, top := Pruned(d, gone), chain[|chain| - 1];
    SettledUpright(d, p, base, chain, Quiet);
    assert forall id :: WriteAt(x, p, id) ==> WriteAt(d, p, id);
    assert top in chain && Post(d, top) == Some(h);
    if top !in gone { ExposedIsHead(d, x, p, base, chain, gone, h, |chain| - 1); }
    forall i | 0 <= i < |chain| - 1 && Bared(d, chain, gone, h, i)
      ensures chain[i] in Heads(x, p, h) && chain[i] != top
    {
      ExposedIsHead(d, x, p, base, chain, gone, h, i);
    }
    forall id | id in Heads(x, p, h)
      ensures id == top || exists i :: 0 <= i < |chain| - 1 && Bared(d, chain, gone, h, i)
    {
      var i := HeadIsExposed(d, x, p, base, chain, gone, h, id);
      assert i < |chain| - 1 ==> Bared(d, chain, gone, h, i);
    }
    assert top in gone ==> top !in Heads(x, p, h);
  }

  /**
   When a prune, whatever it removed, makes a blocked file selectable again: exactly when it bared one
   stack member alone that left the bytes now there and the blocking receipt is not a write made on it.
   */
  lemma UnfreezesIff(d: Disk, p: Place, base: Option<Digest>, chain: seq<Id>, x: Id, gone: set<Id>, h: Digest, src: Id)
    requires Represents(d, p, base, chain, Blocked(x)) && Now(d, p) == Some(h) && x !in gone
    ensures Selects(Pruned(d, gone), p, h, Head(src)) <==> SoleBared(d, chain, gone, h, src) && !MadeOn(d, x, src)
  {
    var q := Pruned(d, gone);
    SettledUpright(d, p, base, chain, Blocked(x));
    assert chain != [] ==> Post(d, chain[|chain| - 1]) != Some(h);
    forall i | 0 <= i < |chain| - 1 && Bared(d, chain, gone, h, i) ensures chain[i] in Heads(q, p, h) {
      ExposedIsHead(d, q, p, base, chain, gone, h, i);
    }
    forall id | id in Heads(q, p, h)
      ensures exists i :: 0 <= i < |chain| - 1 && chain[i] == id && Bared(d, chain, gone, h, i)
    {
      var i := HeadIsExposed(d, q, p, base, chain, gone, h, id);
    }
    DoubtfulAfter(d, p, base, chain, x, gone);
    if SoleBared(d, chain, gone, h, src) {
      assert SoleHead(q, p, h, src);
    }
    if SoleHead(q, p, h, src) {
      assert src in Heads(q, p, h);
    }
  }

  /** Of the stack members with the content `h`, the prune bared `src` and no other. */
  ghost predicate SoleBared(d: Disk, chain: seq<Id>, gone: set<Id>, h: Digest, src: Id) {
    && (exists i :: 0 <= i < |chain| - 1 && chain[i] == src && Bared(d, chain, gone, h, i))
    && forall i :: 0 <= i < |chain| - 1 && Bared(d, chain, gone, h, i) ==> chain[i] == src
  }

  lemma DoubtfulAfter(d: Disk, p: Place, base: Option<Digest>, chain: seq<Id>, x: Id, gone: set<Id>)
    requires Represents(d, p, base, chain, Blocked(x)) && x !in gone
    ensures forall id :: id in Doubtful(Pruned(d, gone), p) <==> MadeOn(d, x, id)
  {
    SettledUpright(d, p, base, chain, Blocked(x));
    assert forall j :: WriteAt(Pruned(d, gone), p, j) ==> WriteAt(d, p, j);
    assert d.receipts[x].FsWrite? ==> WriteAt(Pruned(d, gone), p, x);
  }

  /** The stack below `n` is gone and the rest is kept. */
  ghost predicate CutAt(chain: seq<Id>, gone: set<Id>, n: nat) {
    n <= |chain| && forall i :: 0 <= i < |chain| ==> (chain[i] in gone <==> i < n)
  }

  lemma CutStack(d: Disk, x: Disk, p: Place, base: Option<Digest>, chain: seq<Id>, gone: set<Id>, n: nat)
    requires Stack(d, p, base, chain) && CutAt(chain, gone, n) && x.receipts == d.receipts - gone
    ensures Stack(x, p, Top(d, base, chain[..n]), chain[n..])
  {
    var below, rest := Top(d, base, chain[..n]), chain[n..];
    StackWrites(d, p, base, chain);
    forall i | 0 <= i < |rest| ensures LinkAt(x, p, below, rest, i) {
      assert LinkAt(d, p, base, chain, n + i) && rest[i] == chain[n + i] && rest[i] !in gone;
      if i > 0 {
        assert rest[..i][|rest[..i]| - 1] == chain[n + i - 1] == chain[..n + i][|chain[..n + i]| - 1];
        assert chain[n + i - 1] !in gone && chain[n + i - 1] in chain;
      } else if n > 0 {
        assert chain[n - 1] in gone && chain[..n + i][|chain[..n + i]| - 1] == chain[n - 1];
      }
    }
  }

  /**
   A prune that takes only settled receipts and cuts the stack at one point leaves the rest of it
   standing, over what the file was before the oldest receipt kept.
   */
  lemma PruneKeepsStack(d: Disk, p: Place, base: Option<Digest>, chain: seq<Id>, ph: Phase, aged: set<Id>, n: nat)
    requires Represents(d, p, base, chain, ph) && (ph == Quiet || ph.Blocked?) && OwnBackups(d)
    requires CutAt(chain, Gone(d, aged), n)
    ensures Represents(Pruned(d, Gone(d, aged)), p, Top(d, base, chain[..n]), chain[n..], ph)
  {
    var gone := Gone(d, aged);
    var x, below, rest := Pruned(d, gone), Top(d, base, chain[..n]), chain[n..];
    CutStack(d, x, p, base, chain, gone, n);
    StackWrites(d, p, base, chain);
    forall id | WriteAt(x, p, id) ensures HasBackup(x, id) {
      assert WriteAt(d, p, id) && HasBackup(d, id);
    }
    forall i | 0 <= i < |rest| ensures rest[i] in x.receipts && x.receipts[rest[i]].state == Verified {
      assert rest[i] == chain[n + i] && d.receipts[chain[n + i]].state == Verified;
    }
    var busy := if ph.Blocked? then {ph.x} else {};
    forall id | id in chain && id !in gone ensures id in rest {
      var i :| 0 <= i < |chain| && chain[i] == id;
      assert rest[i - n] == id;
    }
    forall id | At(x, p, id) && id !in rest && id !in busy ensures Retired(x, p, id) {
      assert Retired(d, p, id);
    }
    CutTop(d, x, p, base, chain, gone, n);
  }

  lemma CutTop(d: Disk, x: Disk, p: Place, base: Option<Digest>, chain: seq<Id>, gone: set<Id>, n: nat)
    requires Stack(d, p, base, chain) && CutAt(chain, gone, n) && x.receipts == d.receipts - gone
    ensures Top(x, Top(d, base, chain[..n]), chain[n..]) == Top(d, base, chain)
  {
    StackWrites(d, p, base, chain);
    if n < |chain| {
      assert chain[n..][|chain[n..]| - 1] == chain[|chain| - 1] && chain[|chain| - 1] !in gone;
      assert chain[|chain| - 1] in chain;
    } else {
      assert chain[..n] == chain;
    }
  }

  /** Modification times that do not decrease from the oldest write to the newest. */
  ghost predicate InOrder(mtime: map<Id, int>, chain: seq<Id>) {
    && (forall i :: 0 <= i < |chain| ==> chain[i] in mtime)
    && forall i, j :: 0 <= i < j < |chain| ==> mtime[chain[i]] <= mtime[chain[j]]
  }

  function Aged(mtime: map<Id, int>, cutoff: int): set<Id> {
    set id | id in mtime && mtime[id] < cutoff
  }

  lemma {:induction false} AgedCut(d: Disk, chain: seq<Id>, mtime: map<Id, int>, cutoff: int) returns (n: nat)
    requires InOrder(mtime, chain) && AllVerified(d, chain)
    ensures CutAt(chain, Gone(d, Aged(mtime, cutoff)), n)
  {
    n := 0;
    while n < |chain| && mtime[chain[n]] < cutoff
      invariant n <= |chain| && forall i :: 0 <= i < n ==> mtime[chain[i]] < cutoff
    {
      n := n + 1;
    }
    forall i | 0 <= i < |chain| ensures chain[i] in Gone(d, Aged(mtime, cutoff)) <==> i < n {
      assert d.receipts[chain[i]].state == Verified;
      if i > n { assert mtime[chain[n]] <= mtime[chain[i]]; }
    }
  }

  /**
   Retention by age keeps the undo stack: when modification times do not decrease along it, a prune
   removes its oldest writes and no others, and what remains is an undo stack of the same file.
   */
  lemma RetentionKeepsUndo(d: Disk, p: Place, base: Option<Digest>, chain: seq<Id>, ph: Phase, mtime: map<Id, int>,
                           cutoff: int)
    returns (n: nat)
    requires Represents(d, p, base, chain, ph) && (ph == Quiet || ph.Blocked?) && OwnBackups(d)
    requires InOrder(mtime, chain)
    ensures n <= |chain|
    ensures Represents(Pruned(d, Gone(d, Aged(mtime, cutoff))), p, Top(d, base, chain[..n]), chain[n..], ph)
    ensures forall i :: 0 <= i < n ==> mtime[chain[i]] < cutoff
    ensures forall i :: n <= i < |chain| ==> mtime[chain[i]] >= cutoff
  {
    n := AgedCut(d, chain, mtime, cutoff);
    PruneKeepsStack(d, p, base, chain, ph, Aged(mtime, cutoff), n);
    forall i | 0 <= i < |chain| ensures mtime[chain[i]] < cutoff <==> i < n {
      assert chain[i] in Gone(d, Aged(mtime, cutoff)) <==> i < n;
      assert d.receipts[chain[i]].state == Verified;
    }
  }

  /** What a prune does about one file, unlink by unlink: the receipt, then its backup unless that fails. */
  function SweepFile(d: Disk, id: Id, due: set<Id>, held: set<Id>): seq<Disk> {
    if id !in Gone(d, due) then []
    else
      var r := d.receipts[id];
      var x := d.(receipts := d.receipts - {id});
      if r.FsWrite? && r.backup.Some? && r.backup.value !in held then [x, x.(backups := x.backups - {r.backup.value})]
      else [x]
  }

  /** Every disk a prune over the listing `files` passes through, one per unlink. */
  function Sweep(d: Disk, files: seq<Id>, due: set<Id>, held: set<Id>): seq<Disk>
    decreases |files|
  {
    if files == [] then []
    else
      var disks := SweepFile(d, files[0], due, held);
      disks + Sweep(After(d, disks), files[1..], due, held)
  }

  function Removals(d: Disk, files: seq<Id>, due: set<Id>, held: set<Id>): nat
    decreases |files|
  {
    if files == [] then 0
    else
      var x := After(d, SweepFile(d, files[0], due, held));
      (if files[0] in Gone(d, due) then 1 else 0) + Removals(x, files[1..], due, held)
  }

  /** A disk on the way: some of what is due is off, and at most its own backups with it. */
  ghost predicate Halfway(start: Disk, x: Disk, due: set<Id>) {
    exists gone :: gone <= Gone(start, due) && Partly(start, x, gone)
  }

  /** A prune passed through exactly these disks, and removed exactly what was due. */
  ghost predicate Swept(d: Disk, x: Disk, files: seq<Id>, due: set<Id>, held: set<Id>, disks: seq<Disk>, removed: nat) {
    && disks == Sweep(d, files, due, held) && x == After(d, disks) == PrunedBut(d, Gone(d, due), held)
    && removed == |Gone(d, due)| && forall k :: 0 <= k < |disks| ==> Halfway(d, disks[k], due)
  }

  lemma SweepOne(start: Disk, gone: set<Id>, id: Id, due: set<Id>, held: set<Id>, k: nat)
    requires gone <= Gone(start, due) && id !in gone && id in Gone(start, due)
    requires var d := PrunedBut(start, gone, held); k < |SweepFile(d, id, due, held)|
    ensures var d := PrunedBut(start, gone, held);
      Halfway(start, SweepFile(d, id, due, held)[k], due)
  {
    var d := PrunedBut(start, gone, held);
    var x := SweepFile(d, id, due, held)[k];
    assert start.receipts - (gone + {id}) == d.receipts - {id};
    assert forall b :: b in BackupsOf(start, gone) ==> b in BackupsOf(start, gone + {id});
    assert Partly(start, x, gone + {id});
  }

  lemma SweptFile(start: Disk, gone: set<Id>, id: Id, due: set<Id>, held: set<Id>)
    requires gone <= Gone(start, due) && id !in gone
    ensures var d := PrunedBut(start, gone, held);
      && (id in Gone(d, due) <==> id in Gone(start, due))
      && After(d, SweepFile(d, id, due, held)) == PrunedBut(start, OffWith(start, gone, id, due), held)
  {
    if id in Gone(start, due) {
      var d, r := PrunedBut(start, gone, held), start.receipts[id];
      assert d.receipts[id] == r && start.receipts - (gone + {id}) == d.receipts - {id};
      assert BackupsOf(start, gone + {id}) ==
        BackupsOf(start, gone) + if r.FsWrite? && r.backup.Some? then {r.backup.value} else {};
      assert PrunedBut(start, gone + {id}, held).backups ==
        if r.FsWrite? && r.backup.Some? && r.backup.value !in held then d.backups - {r.backup.value} else d.backups;
    }
  }

  /** What is due of the listed files. */
  function DueOf(start: Disk, files: seq<Id>, due: set<Id>): set<Id> {
    set id | id in files && id in Gone(start, due)
  }

  lemma DueOfFirst(start: Disk, files: seq<Id>, due: set<Id>)
    requires files != []
    ensures DueOf(start, files, due) ==
      (if files[0] in Gone(start, due) then {files[0]} else {}) + DueOf(start, files[1..], due)
  {
    assert forall id :: id in files <==> id == files[0] || id in files[1..];
  }

  lemma SweepFirst(d: Disk, files: seq<Id>, due: set<Id>, held: set<Id>)
    requires files != []
    ensures var x := After(d, SweepFile(d, files[0], due, held));
      && After(d, Sweep(d, files, due, held)) == After(x, Sweep(x, files[1..], due, held))
      && Removals(d, files, due, held) ==
           (if files[0] in Gone(d, due) then 1 else 0) + Removals(x, files[1..], due, held)
  {
    var x := After(d, SweepFile(d, files[0], due, held));
    AfterBoth(d, SweepFile(d, files[0], due, held), Sweep(x, files[1..], due, held));
  }

  /** The receipts off once the file `id` is dealt with. */
  function OffWith(start: Disk, gone: set<Id>, id: Id, due: set<Id>): set<Id> {
    if id in Gone(start, due) then gone + {id} else gone
  }

  /** A sweep from the disk with `gone` off removes what is left of what is due, and counts it. */
  ghost predicate SweepsAll(start: Disk, gone: set<Id>, files: seq<Id>, due: set<Id>, held: set<Id>) {
    var d, all := PrunedBut(start, gone, held), gone + DueOf(start, files, due);
    && After(d, Sweep(d, files, due, held)) == PrunedBut(start, all, held)
    && |gone| + Removals(d, files, due, held) == |all|
  }

  lemma SweepsOneFile(start: Disk, gone: set<Id>, files: seq<Id>, due: set<Id>, held: set<Id>)
    requires gone <= Gone(start, due) && files != [] && files[0] !in gone
    requires SweepsAll(start, OffWith(start, gone, files[0], due), files[1..], due, held)
    ensures SweepsAll(start, gone, files, due, held)
  {
    SweptFile(start, gone, files[0], due, held);
    DueOfFirst(start, files, due);
    assert OffWith(start, gone, files[0], due) + DueOf(start, files[1..], due) == gone + DueOf(start, files, due);
    SweepFirst(PrunedBut(start, gone, held), files, due, held);
  }

  lemma {:induction false} SweepFrom(start: Disk, gone: set<Id>, files: seq<Id>, due: set<Id>, held: set<Id>)
    requires gone <= Gone(start, due) && forall id :: id in files ==> id !in gone
    requires forall i, j :: 0 <= i < j < |files| ==> files[i] != files[j]
    ensures SweepsAll(start, gone, files, due, held)
    decreases |files|
  {
    if files == [] {
      assert gone + DueOf(start, files, due) == gone;
    } else {
      SweepFrom(start, OffWith(start, gone, files[0], due), files[1..], due, held);
      SweepsOneFile(start, gone, files, due, held);
    }
  }

  /** Every disk of it is on the way. */
  lemma {:induction false} SweepHalfway(start: Disk, gone: set<Id>, files: seq<Id>, due: set<Id>, held: set<Id>, k: nat)
    requires gone <= Gone(start, due) && forall id :: id in files ==> id !in gone
    requires forall i, j :: 0 <= i < j < |files| ==> files[i] != files[j]
    requires k < |Sweep(PrunedBut(start, gone, held), files, due, held)|
    ensures Halfway(start, Sweep(PrunedBut(start, gone, held), files, due, held)[k], due)
    decreases |files|
  {
    var d, id, rest := PrunedBut(start, gone, held), files[0], files[1..];
    var disks := SweepFile(d, id, due, held);
    SweptFile(start, gone, id, due, held);
    if k < |disks| {
      SweepOne(start, gone, id, due, held, k);
    } else {
      SweepHalfway(start, OffWith(start, gone, id, due), rest, due, held, k - |disks|);
    }
  }

  /** A prune over a whole listing removes exactly what is due and counts it. */
  lemma SweepRemoves(d: Disk, files: seq<Id>, due: set<Id>, held: set<Id>)
    requires Listing(d, files)
    ensures After(d, Sweep(d, files, due, held)) == PrunedBut(d, Gone(d, due), held)
    ensures Removals(d, files, due, held) == |Gone(d, due)|
    ensures forall k :: 0 <= k < |Sweep(d, files, due, held)| ==> Halfway(d, Sweep(d, files, due, held)[k], due)
  {
    assert PrunedBut(d, {}, held) == d;
    assert {} + DueOf(d, files, due) == Gone(d, due) by {
      forall id | id in Gone(d, due) ensures id in files { assert Known(d, id); }
    }
    SweepFrom(d, {}, files, due, held);
    forall k | 0 <= k < |Sweep(d, files, due, held)| ensures Halfway(d, Sweep(d, files, due, held)[k], due) {
      SweepHalfway(d, {}, files, due, held, k);
    }
  }

  /** After `k` files of a prune: what is done and what the rest of it will add. */
  ghost predicate SweepUpTo(start: Disk, d: Disk, files: seq<Id>, due: set<Id>, held: set<Id>, k: nat, disks: seq<Disk>,
                            removed: nat)
    requires k <= |files|
  {
    && disks + Sweep(d, files[k..], due, held) == Sweep(start, files, due, held) && d == After(start, disks)
    && removed + Removals(d, files[k..], due, held) == Removals(start, files, due, held)
  }

  lemma SweepOneMore(start: Disk, d: Disk, files: seq<Id>, due: set<Id>, held: set<Id>, k: nat, disks: seq<Disk>,
                     removed: nat)
    requires k < |files| && SweepUpTo(start, d, files, due, held, k, disks, removed)
    ensures var swept := SweepFile(d, files[k], due, held);
      SweepUpTo(start, After(d, swept), files, due, held, k + 1, disks + swept,
                if files[k] in Gone(d, due) then removed + 1 else removed)
  {
    var swept := SweepFile(d, files[k], due, held);
    var rest := Sweep(After(d, swept), files[k + 1..], due, held);
    assert files[k..][0] == files[k] && files[k..][1..] == files[k + 1..];
    assert disks + (swept + rest) == disks + swept + rest;
    AfterBoth(start, disks, swept);
  }

  /** A receipt in one of the four states from which nothing is left to settle. */
  predicate SettledReceipt(r: Receipt) {
    r.state == Verified || r.state == RecoveredUnapplied || r.state == RolledBack || r.state == Superseded
  }

  /** A settled receipt not touched since the cutoff, whose file can be unlinked. */
  predicate Expired(d: Disk, mtimes: map<Id, int>, cutoff: int, stuck: set<Id>, id: Id) {
    && id in d.receipts && SettledReceipt(d.receipts[id])
    && id in mtimes && mtimes[id] < cutoff && id !in stuck
  }

  /**
   What a prune leaves, told from the states and times of the receipts: every other receipt as it was, and
   every backup but those that only expired receipts of it named and that could be unlinked.
   */
  ghost predicate Expunged(d: Disk, x: Disk, mtimes: map<Id, int>, cutoff: int, stuck: set<Id>, held: set<Id>) {
    && x.targets == d.targets && x.damaged == d.damaged
    && (forall id :: id in x.receipts <==> id in d.receipts && !Expired(d, mtimes, cutoff, stuck, id))
    && (forall id :: id in x.receipts ==> x.receipts[id] == d.receipts[id])
    && (forall b :: b in x.backups <==>
          && b in d.backups
          && (b in held || forall id :: Expired(d, mtimes, cutoff, stuck, id) ==> !NamesBackup(d, id, b)))
    && forall b :: b in x.backups ==> x.backups[b] == d.backups[b]
  }

  /** The receipts of `d` that `x` no longer has. */
  function Missing(d: Disk, x: Disk): set<Id> {
    d.receipts.Keys - x.receipts.Keys
  }

  /** No backup is off before a receipt that names it. */
  ghost predicate ReceiptsFirst(d: Disk, disks: seq<Disk>) {
    forall k, b :: 0 <= k < |disks| && b in d.backups && b !in disks[k].backups ==>
      exists id :: id !in disks[k].receipts && NamesBackup(d, id, b)
  }

  lemma HalfwayKeepsOrder(d: Disk, x: Disk, due: set<Id>, b: Id)
    requires Halfway(d, x, due) && b in d.backups && b !in x.backups
    ensures exists id :: id !in x.receipts && NamesBackup(d, id, b)
  {
    var gone :| gone <= Gone(d, due) && Partly(d, x, gone);
    assert b in BackupsOf(d, gone);
    var id :| id in gone && NamesBackup(d, id, b);
    assert id !in x.receipts;
  }

  lemma GoneIsExpired(d: Disk, mtimes: map<Id, int>, cutoff: int, stuck: set<Id>, held: set<Id>)
    ensures var gone := Gone(d, Aged(mtimes, cutoff) - stuck);
      && Expunged(d, PrunedBut(d, gone, held), mtimes, cutoff, stuck, held)
      && gone == d.receipts.Keys - PrunedBut(d, gone, held).receipts.Keys
  {
    var gone := Gone(d, Aged(mtimes, cutoff) - stuck);
    assert forall id :: id in gone <==> Expired(d, mtimes, cutoff, stuck, id);
    assert forall b :: b in BackupsOf(d, gone) <==> exists id :: id in gone && NamesBackup(d, id, b);
  }

  /** A prune removes exactly what is expired: nothing settled and old enough is left, nothing else is gone. */
  lemma SweepTold(d: Disk, x: Disk, files: seq<Id>, mtimes: map<Id, int>, cutoff: int, stuck: set<Id>, held: set<Id>,
                  disks: seq<Disk>, removed: nat)
    requires Swept(d, x, files, Aged(mtimes, cutoff) - stuck, held, disks, removed)
    ensures Expunged(d, x, mtimes, cutoff, stuck, held) && ReceiptsFirst(d, disks)
    ensures removed == |Missing(d, x)|
  {
    GoneIsExpired(d, mtimes, cutoff, stuck, held);
    forall k, b | 0 <= k < |disks| && b in d.backups && b !in disks[k].backups
      ensures exists id :: id !in disks[k].receipts && NamesBackup(d, id, b)
    {
      HalfwayKeepsOrder(d, disks[k], Aged(mtimes, cutoff) - stuck, b);
    }
  }
}
