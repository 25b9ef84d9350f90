/** The pre-write guard: capture preimages, bind the intended content, and certify what was written. */
module Guard {
  import opened Wrappers
  import Journal

  type Bytes = Journal.Bytes
  type Digest = Journal.Digest

  const SCHEMA_VERSION := 1

  datatype Stage = Proposed | Approved | Applied | Verified

  /** A hash as a manifest gives it: a digest in hexadecimal, or some other text. */
  datatype Hash = Hex(digest: Digest) | Text(text: string)

  predicate WellFormed(h: Hash) {
    h.Text? ==> |h.text| == 64
  }

  datatype Presence = Present | Absent | Unsupported

  /** An entry as the file has it: a captured path, its preimage if it was present, its intent once bound. */
  datatype Entry = Entry(path: string, state: Presence, hash: Option<Hash>, length: Option<int>, intent: Option<Hash>)

  /** A manifest as the file has it. `strict` is the guard mode every capture gives it. */
  datatype Manifest = Manifest(schema: int, strict: bool, entries: seq<Entry>, stage: Stage, bound: bool)

  type Files = map<string, Bytes>

  function Paths(m: Manifest): set<string> {
    set e | e in m.entries :: e.path
  }

  predicate Blank(s: string) {
    forall i :: 0 <= i < |s| ==> s[i] in " \t\r\n"
  }

  /** The preimage fields that go with a presence, all of them and no others. */
  predicate Shaped(e: Entry) {
    match e.state
    case Present => e.hash.Some? && WellFormed(e.hash.value) && e.length.Some? && e.length.value >= 0
    case Absent => e.hash.None? && e.length.None?
    case Unsupported => false
  }

  predicate Admissible(e: Entry, off: set<string>) {
    !Blank(e.path) && e.path !in off && Shaped(e) && (e.intent.Some? ==> WellFormed(e.intent.value))
  }

  ghost predicate Distinct(entries: seq<Entry>) {
    forall i, j :: 0 <= i < j < |entries| ==> entries[i].path != entries[j].path
  }

  predicate Sealing(m: Manifest) {
    m.strict && m.stage != Proposed
  }

  ghost predicate Valid(m: Manifest, off: set<string>) {
    && m.schema == SCHEMA_VERSION && m.entries != [] && Distinct(m.entries)
    && (forall e :: e in m.entries ==> Admissible(e, off))
    && (Sealing(m) ==> m.bound && forall e :: e in m.entries ==> e.intent.Some?)
  }

  function Seen(files: Files, path: string): Entry {
    if path in files then Entry(path, Present, Some(Hex(Journal.Sha256(files[path]))), Some(|files[path]|), None)
    else Entry(path, Absent, None, None, None)
  }

  ghost predicate Captured(files: Files, paths: seq<string>, m: Manifest) {
    && m.schema == SCHEMA_VERSION && m.strict && |m.entries| == |paths| && m.stage == Proposed && !m.bound
    && forall i :: 0 <= i < |paths| ==> m.entries[i] == Seen(files, paths[i])
  }

  ghost predicate CanBind(m: Manifest, hashes: map<string, Hash>, off: set<string>) {
    Valid(m.(stage := Proposed), off) && m.stage == Proposed && hashes.Keys == Paths(m)
  }

  ghost predicate Binds(m: Manifest, hashes: map<string, Hash>, m': Manifest) {
    && |m'.entries| == |m.entries| && m' == m.(entries := m'.entries, bound := true)
    && forall i :: 0 <= i < |m.entries| ==>
         m.entries[i].path in hashes && m'.entries[i] == m.entries[i].(intent := Some(hashes[m.entries[i].path]))
  }

  function Successor(s: Stage): Option<Stage> {
    match s
    case Proposed => Some(Approved)
    case Approved => Some(Applied)
    case Applied => Some(Verified)
    case Verified => None
  }

  ghost predicate CanAdvance(m: Manifest, target: Stage, off: set<string>) {
    Valid(m, off) && Successor(m.stage) == Some(target) && (target == Applied && m.strict ==> m.bound)
  }

  /** The file differs from what was captured. */
  predicate Changed(e: Entry, files: Files) {
    && e.path in files
    && (e.state == Present ==> e.hash != Some(Hex(Journal.Sha256(files[e.path]))) || e.length != Some(|files[e.path]|))
  }

  /** The file is as the entry has it: absent, or with the captured digest and length. */
  predicate Unchanged(e: Entry, files: Files) {
    if e.state == Absent then e.path !in files
    else e.path in files && e.hash == Some(Hex(Journal.Sha256(files[e.path]))) && e.length == Some(|files[e.path]|)
  }

  function ChangedPaths(m: Manifest, files: Files): set<string> {
    set e | e in m.entries && Changed(e, files) :: e.path
  }

  /** The file now has the intended content and, in strict mode, not the captured one. */
  predicate Fulfilled(m: Manifest, e: Entry, files: Files) {
    && e.path in files
    && (e.intent.Some? ==> Hex(Journal.Sha256(files[e.path])) == e.intent.value)
    && (m.strict && e.state == Present ==> Changed(e, files))
  }

  ghost predicate CanCertify(m: Manifest, files: Files, off: set<string>) {
    Valid(m, off) && m.stage == Applied && forall e :: e in m.entries ==> Fulfilled(m, e, files)
  }

  /** One operation on a manifest: bind, transition, or receipt over files of any content. */
  ghost predicate Next(m: Manifest, m': Manifest, off: set<string>) {
    || (exists hashes :: CanBind(m, hashes, off) && Binds(m, hashes, m'))
    || (CanAdvance(m, m'.stage, off) && m' == m.(stage := m'.stage))
    || (exists files :: CanCertify(m, files, off) && m' == m.(stage := Verified))
  }

  ghost predicate Movable(m: Manifest, off: set<string>) {
    exists m' :: Next(m, m', off)
  }

  ghost predicate History(files: Files, paths: seq<string>, ms: seq<Manifest>, off: set<string>) {
    ms != [] && Captured(files, paths, ms[0]) && forall k :: 0 < k < |ms| ==> Next(ms[k - 1], ms[k], off)
  }

  /** What every manifest carries, whatever was done to it since its capture. */
  ghost predicate Sealed(m: Manifest, files: Files, paths: seq<string>, off: set<string>) {
    && m.schema == SCHEMA_VERSION && m.strict && |m.entries| == |paths|
    && (forall i :: 0 <= i < |paths| ==> m.entries[i] == Seen(files, paths[i]).(intent := m.entries[i].intent))
    && (m.bound ==> forall e :: e in m.entries ==> e.intent.Some?)
    && (!m.bound ==> forall e :: e in m.entries ==> e.intent.None?)
    && (m.stage == Applied || m.stage == Verified ==> m.bound)
    && (m.stage != Proposed ==> Valid(m.(stage := Proposed), off))
  }

  lemma BindKeeps(m: Manifest, hashes: map<string, Hash>, m': Manifest, files: Files, paths: seq<string>,
                  off: set<string>)
    requires CanBind(m, hashes, off) && Binds(m, hashes, m') && Sealed(m, files, paths, off)
    ensures Sealed(m', files, paths, off)
  {
    forall e | e in m'.entries ensures e.intent.Some? {
      var i :| 0 <= i < |m'.entries| && m'.entries[i] == e;
    }
  }

  lemma NextKeeps(m: Manifest, m': Manifest, files: Files, paths: seq<string>, off: set<string>)
    requires Next(m, m', off) && Sealed(m, files, paths, off)
    ensures Sealed(m', files, paths, off)
  {
    if hashes :| CanBind(m, hashes, off) && Binds(m, hashes, m') {
      BindKeeps(m, hashes, m', files, paths, off);
    }
  }

  /**
   Every manifest reached from a capture keeps the captured preimages, and in `applied` or `verified`
   it has an intent bound to every one of its entries.
   */
  lemma {:induction false} ReachedIsSealed(files: Files, paths: seq<string>, ms: seq<Manifest>, off: set<string>)
    requires History(files, paths, ms, off)
    ensures Sealed(ms[|ms| - 1], files, paths, off)
  {
    if |ms| > 1 {
      var front := ms[..|ms| - 1];
      assert forall k :: 0 < k < |front| ==> Next(front[k - 1], front[k], off);
      ReachedIsSealed(files, paths, front, off);
      NextKeeps(front[|front| - 1], ms[|ms| - 1], files, paths, off);
    } else {
      forall e | e in ms[0].entries ensures e.intent.None? {
        var i :| 0 <= i < |ms[0].entries| && ms[0].entries[i] == e;
      }
    }
  }

  /**
   A receipt means what it says: every captured path now hashes to its bound intent and differs from
   what was captured, so the changed paths are all of them.
   */
  lemma ReceiptIsHonest(files: Files, paths: seq<string>, ms: seq<Manifest>, now: Files, off: set<string>)
    requires History(files, paths, ms, off) && CanCertify(ms[|ms| - 1], now, off)
    ensures forall e :: e in ms[|ms| - 1].entries ==> Honest(e, files, now)
    ensures Paths(ms[|ms| - 1]) == set p | p in paths
  {
    var m := ms[|ms| - 1];
    ReachedIsSealed(files, paths, ms, off);
    forall e | e in m.entries ensures Honest(e, files, now) {
      var i :| 0 <= i < |m.entries| && m.entries[i] == e;
      assert Fulfilled(m, e, now) && e == Seen(files, paths[i]).(intent := e.intent);
    }
    PathsCaptured(m, files, paths, off);
  }

  predicate Honest(e: Entry, files: Files, now: Files) {
    && e.path in now && e.intent == Some(Hex(Journal.Sha256(now[e.path])))
    && (e.path in files ==> now[e.path] != files[e.path])
  }

  /** The entry of the `i`-th captured path, whatever was done to the manifest since. */
  lemma EntryOf(files: Files, paths: seq<string>, ms: seq<Manifest>, off: set<string>, i: nat)
    requires History(files, paths, ms, off) && i < |paths|
    ensures var m := ms[|ms| - 1];
      |m.entries| == |paths| && m.entries[i] == Seen(files, paths[i]).(intent := m.entries[i].intent)
  {
    ReachedIsSealed(files, paths, ms, off);
  }

  /** The file at the path is as it was when captured, byte for byte, or absent as it was. */
  predicate AsCaptured(files: Files, now: Files, p: string) {
    (p in now <==> p in files) && (p in files && p in now ==> now[p] == files[p])
  }

  /** The preimage check of a captured manifest, in bytes: it passes exactly while every file is as captured. */
  lemma VerifiesIff(files: Files, paths: seq<string>, ms: seq<Manifest>, now: Files, off: set<string>)
    requires History(files, paths, ms, off)
    ensures (forall e :: e in ms[|ms| - 1].entries ==> Unchanged(e, now)) <==>
      forall i :: 0 <= i < |paths| ==> AsCaptured(files, now, paths[i])
  {
    var m := ms[|ms| - 1];
    forall i | 0 <= i < |paths|
      ensures |m.entries| == |paths| && (Unchanged(m.entries[i], now) <==> AsCaptured(files, now, paths[i]))
      ensures m.entries[i] in m.entries
    {
      EntryOf(files, paths, ms, off, i);
    }
    ReachedIsSealed(files, paths, ms, off);
    assert forall e :: e in m.entries ==> exists i :: 0 <= i < |m.entries| && m.entries[i] == e;
  }

  /**
   Which applied manifests can be certified, in bytes: exactly those of whose captured paths each exists now,
   hashes to its bound intent and differs from what was captured.
   */
  lemma CertifiesIff(files: Files, paths: seq<string>, ms: seq<Manifest>, now: Files, off: set<string>)
    requires History(files, paths, ms, off) && ms[|ms| - 1].stage == Applied
    ensures |ms[|ms| - 1].entries| == |paths|
    ensures CanCertify(ms[|ms| - 1], now, off) <==>
      forall i :: 0 <= i < |paths| ==>
        var e := ms[|ms| - 1].entries[i]; e.path == paths[i] && Honest(e, files, now)
  {
    var m := ms[|ms| - 1];
    ReachedIsSealed(files, paths, ms, off);
    assert Valid(m, off);
    forall i | 0 <= i < |paths|
      ensures m.entries[i] in m.entries && m.entries[i].path == paths[i]
      ensures Fulfilled(m, m.entries[i], now) <==> Honest(m.entries[i], files, now)
    {
      EntryOf(files, paths, ms, off, i);
    }
    assert forall e :: e in m.entries ==> exists i :: 0 <= i < |m.entries| && m.entries[i] == e;
  }

  /** And the paths it reports as changed are those that exist now with other bytes than captured. */
  lemma ChangedInBytes(files: Files, paths: seq<string>, ms: seq<Manifest>, now: Files, off: set<string>, p: string)
    requires History(files, paths, ms, off)
    ensures p in ChangedPaths(ms[|ms| - 1], now) <==> p in paths && p in now && (p in files ==> now[p] != files[p])
  {
    var m := ms[|ms| - 1];
    ReachedIsSealed(files, paths, ms, off);
    forall i | 0 <= i < |paths|
      ensures m.entries[i] in m.entries && m.entries[i].path == paths[i]
      ensures Changed(m.entries[i], now) <==>
        paths[i] in now && (paths[i] in files ==> now[paths[i]] != files[paths[i]])
    {
      EntryOf(files, paths, ms, off, i);
    }
    assert forall e :: e in m.entries ==> exists i :: 0 <= i < |m.entries| && m.entries[i] == e;
  }

  lemma PathsCaptured(m: Manifest, files: Files, paths: seq<string>, off: set<string>)
    requires Sealed(m, files, paths, off)
    ensures Paths(m) == set p | p in paths
  {
    forall p | p in paths ensures p in Paths(m) {
      var i :| 0 <= i < |paths| && paths[i] == p;
      assert m.entries[i] in m.entries && m.entries[i].path == p;
    }
    forall p | p in Paths(m) ensures p in paths {
      var e :| e in m.entries && e.path == p;
      var i :| 0 <= i < |m.entries| && m.entries[i] == e;
      assert paths[i] == p;
    }
  }

  /** Approved before its intent was bound, a manifest can never be moved again; bound, it always can. */
  lemma ApprovedMovesIff(files: Files, paths: seq<string>, ms: seq<Manifest>, off: set<string>)
    requires History(files, paths, ms, off) && ms[|ms| - 1].stage == Approved
    ensures Movable(ms[|ms| - 1], off) <==> ms[|ms| - 1].bound
  {
    var m := ms[|ms| - 1];
    ReachedIsSealed(files, paths, ms, off);
    if m.bound {
      assert Valid(m, off) && CanAdvance(m, Applied, off);
      assert Next(m, m.(stage := Applied), off);
    }
  }

  /**
   Which manifests can still be moved, stage by stage, told from the paths captured and the intents bound:
   a proposed one whose paths can be used and whose intents so far are well formed, an approved one that
   was bound, every applied one, and no verified one.
   */
  lemma MovesIff(files: Files, paths: seq<string>, ms: seq<Manifest>, off: set<string>)
    requires History(files, paths, ms, off)
    ensures var m := ms[|ms| - 1];
      Movable(m, off) <==>
        match m.stage
        case Proposed => Capturable(paths, off) && IntentsFormed(m)
        case Approved => m.bound
        case Applied => true
        case Verified => false
  {
    var m := ms[|ms| - 1];
    ReachedIsSealed(files, paths, ms, off);
    ProposedValidIff(m, files, paths, off);
    match m.stage
    case Approved => ApprovedMovesIff(files, paths, ms, off);
    case Proposed => if Valid(m, off) { assert Next(m, m.(stage := Approved), off); }
    case Applied =>
      assert Valid(m, off);
      assert CanAdvance(m, Verified, off) && Next(m, m.(stage := Verified), off);
    case Verified =>
  }

  ghost predicate IntentsFormed(m: Manifest) {
    forall e :: e in m.entries && e.intent.Some? ==> WellFormed(e.intent.value)
  }

  lemma ProposedValidIff(m: Manifest, files: Files, paths: seq<string>, off: set<string>)
    requires Sealed(m, files, paths, off)
    ensures Valid(m.(stage := Proposed), off) <==> Capturable(paths, off) && IntentsFormed(m)
  {
    assert forall i :: 0 <= i < |paths| ==> m.entries[i] in m.entries && m.entries[i].path == paths[i];
    forall e | e in m.entries && Capturable(paths, off) && (e.intent.Some? ==> WellFormed(e.intent.value))
      ensures Admissible(e, off)
    {
      var i :| 0 <= i < |m.entries| && m.entries[i] == e;
    }
  }

  /** What a capture of these paths can be taken of and then used. */
  ghost predicate Capturable(paths: seq<string>, off: set<string>) {
    && paths != [] && (forall i, j :: 0 <= i < j < |paths| ==> paths[i] != paths[j])
    && forall i :: 0 <= i < |paths| ==> !Blank(paths[i]) && paths[i] !in off
  }

  function Take(files: Files, paths: seq<string>): Manifest {
    Manifest(SCHEMA_VERSION, true, seq(|paths|, i requires 0 <= i < |paths| => Seen(files, paths[i])), Proposed, false)
  }

  function Bound(files: Files, paths: seq<string>, hashes: map<string, Hash>): Manifest
    requires forall p :: p in paths ==> p in hashes
  {
    Manifest(SCHEMA_VERSION, true,
             seq(|paths|, i requires 0 <= i < |paths| => Seen(files, paths[i]).(intent := Some(hashes[paths[i]]))),
             Proposed, true)
  }

  lemma TakeIsValid(files: Files, paths: seq<string>, off: set<string>)
    requires Capturable(paths, off)
    ensures Captured(files, paths, Take(files, paths)) && Valid(Take(files, paths), off)
    ensures Paths(Take(files, paths)) == set p | p in paths
  {
    var m := Take(files, paths);
    assert Sealed(m, files, paths, off) by {
      forall e | e in m.entries ensures e.intent.None? {
        var i :| 0 <= i < |m.entries| && m.entries[i] == e;
      }
    }
    PathsCaptured(m, files, paths, off);
  }

  /** Any capture, approved too early, ends where nothing can move it. */
  lemma ApprovedUnbound(files: Files, paths: seq<string>, off: set<string>) returns (ms: seq<Manifest>)
    requires Capturable(paths, off)
    ensures History(files, paths, ms, off)
    ensures ms[|ms| - 1].stage == Approved && !ms[|ms| - 1].bound && !Movable(ms[|ms| - 1], off)
  {
    TakeIsValid(files, paths, off);
    var m := Take(files, paths);
    assert Next(m, m.(stage := Approved), off);
    ms := [m, m.(stage := Approved)];
    ApprovedMovesIff(files, paths, ms, off);
  }

  /** Intents a caller can bind to a capture of these paths. */
  ghost predicate Bindable(paths: seq<string>, hashes: map<string, Hash>) {
    hashes.Keys == (set p | p in paths) && forall p :: p in hashes ==> WellFormed(hashes[p])
  }

  lemma BoundEntry(files: Files, paths: seq<string>, hashes: map<string, Hash>, off: set<string>, i: nat)
    requires Capturable(paths, off) && Bindable(paths, hashes) && i < |paths|
    ensures var e := Bound(files, paths, hashes).entries[i];
      e.path == paths[i] && e.intent.Some? && Admissible(e, off)
  {
    assert paths[i] in paths;
  }

  lemma BoundIsValid(files: Files, paths: seq<string>, hashes: map<string, Hash>, off: set<string>)
    requires Capturable(paths, off) && Bindable(paths, hashes)
    ensures Valid(Bound(files, paths, hashes), off)
    ensures forall e :: e in Bound(files, paths, hashes).entries ==> e.intent.Some?
  {
    var entries := Bound(files, paths, hashes).entries;
    forall i | 0 <= i < |entries|
      ensures entries[i].path == paths[i] && entries[i].intent.Some? && Admissible(entries[i], off)
    {
      BoundEntry(files, paths, hashes, off, i);
    }
    assert forall e :: e in entries ==> exists i :: 0 <= i < |entries| && entries[i] == e;
  }

  lemma CaptureBinds(files: Files, paths: seq<string>, hashes: map<string, Hash>, off: set<string>)
    requires Capturable(paths, off) && Bindable(paths, hashes)
    ensures Next(Take(files, paths), Bound(files, paths, hashes), off)
  {
    TakeIsValid(files, paths, off);
    var m, b := Take(files, paths), Bound(files, paths, hashes);
    assert CanBind(m, hashes, off) && Binds(m, hashes, b);
  }

  lemma BoundAdvances(m: Manifest, s: Stage, off: set<string>)
    requires Valid(m, off) && m.bound && (forall e :: e in m.entries ==> e.intent.Some?)
    requires Successor(s).Some?
    ensures Next(m.(stage := s), m.(stage := Successor(s).value), off)
  {
    assert CanAdvance(m.(stage := s), Successor(s).value, off);
  }

  lemma AsCapturedUnfulfilled(files: Files, paths: seq<string>, hashes: map<string, Hash>, e: Entry)
    requires (forall p :: p in paths ==> p in hashes) && e in Bound(files, paths, hashes).entries
    ensures !Fulfilled(Bound(files, paths, hashes), e, files)
  {
    var b := Bound(files, paths, hashes);
    var i :| 0 <= i < |b.entries| && b.entries[i] == e;
  }

  /**
   Why `verified` alone promises nothing: for any files and any well-formed intents there is a history
   that ends verified while the files stay as captured, and not one of its entries is fulfilled.
   */
  lemma VerifiedUnread(files: Files, paths: seq<string>, hashes: map<string, Hash>, off: set<string>)
    returns (ms: seq<Manifest>)
    requires Capturable(paths, off) && Bindable(paths, hashes)
    ensures History(files, paths, ms, off) && ms[|ms| - 1].stage == Verified
    ensures forall e :: e in ms[|ms| - 1].entries ==> e.intent.Some? && !Fulfilled(ms[|ms| - 1], e, files)
  {
    TakeIsValid(files, paths, off);
    CaptureBinds(files, paths, hashes, off);
    BoundIsValid(files, paths, hashes, off);
    var m, b := Take(files, paths), Bound(files, paths, hashes);
    BoundAdvances(b, Proposed, off);
    BoundAdvances(b, Approved, off);
    BoundAdvances(b, Applied, off);
    assert b.(stage := Proposed) == b;
    ms := [m, b, b.(stage := Approved), b.(stage := Applied), b.(stage := Verified)];
    forall e | e in b.entries ensures !Fulfilled(b.(stage := Verified), e, files) {
      AsCapturedUnfulfilled(files, paths, hashes, e);
    }
  }

  /** A full-length hash: a digest, or any text of 64 characters. */
  predicate FullHash(h: Option<Hash>) {
    h.Some? && (h.value.Hex? || |h.value.text| == 64)
  }

  /** An entry that names something and whose fields fit what it says of the file. */
  predicate WellMade(e: Entry) {
    && (exists c :: c in e.path && c != ' ' && c != '\t' && c != '\r' && c != '\n')
    && (e.state == Present || e.state == Absent)
    && (e.state == Present ==> FullHash(e.hash) && e.length.Some? && e.length.value >= 0)
    && (e.state == Absent ==> e.hash == None && e.length == None)
    && (e.intent.Some? ==> FullHash(e.intent))
  }

  lemma AdmissibleInWords(e: Entry, off: set<string>)
    ensures Admissible(e, off) <==> WellMade(e) && e.path !in off
  {
    if !Blank(e.path) {
      var i :| 0 <= i < |e.path| && e.path[i] !in " \t\r\n";
      assert e.path[i] in e.path;
    }
    if c :| c in e.path && c != ' ' && c != '\t' && c != '\r' && c != '\n' {
      var i :| 0 <= i < |e.path| && e.path[i] == c;
    }
  }

  datatype Receipt = Receipt(changed: set<string>)

  datatype Outcome = Refused | Fail(changed: set<string>) | Pass(receipt: Receipt)

  class PrewriteGuard {
    /** Secret and control-plane paths. */
    const off: set<string>
    var files: Files
    var manifests: map<string, Manifest>
    var receipts: map<string, Receipt>

    constructor (off: set<string>, files: Files)
      ensures this.off == off && this.files == files && manifests == map[] && receipts == map[]
    {
      this.off, this.files, manifests, receipts := off, files, map[], map[];
    }

    method ValidateEntries(m: Manifest) returns (ok: bool)
      ensures ok == Valid(m, off)
      ensures ok <==>
        && m.schema == 1 && m.entries != []
        && (forall i, j :: 0 <= i < j < |m.entries| ==> m.entries[i].path != m.entries[j].path)
        && (forall e :: e in m.entries ==> WellMade(e) && e.path !in off)
        && (m.strict && m.stage != Proposed ==> m.bound && forall e :: e in m.entries ==> e.intent.Some?)
    {
      forall e { AdmissibleInWords(e, off); }
      if m.schema != SCHEMA_VERSION || m.entries == [] {
        return false;
      }
      var seen: set<string> := {};
      for i := 0 to |m.entries|
        invariant forall p :: p in seen <==> exists k :: 0 <= k < i && m.entries[k].path == p
        invariant Distinct(m.entries[..i])
        invariant forall k :: 0 <= k < i ==> Admissible(m.entries[k], off)
      {
        var e := m.entries[i];
        assert e in m.entries;
        if Blank(e.path) || e.path in seen || e.path in off {
          return false;
        }
        seen := seen + {e.path};
        if !Shaped(e) || (e.intent.Some? && !WellFormed(e.intent.value)) {
          return false;
        }
      }
      assert m.entries[..|m.entries|] == m.entries;
      ok := !Sealing(m) || (m.bound && forall e :: e in m.entries ==> e.intent.Some?);
      assert forall e :: e in m.entries ==> Admissible(e, off);
    }

    method Capture(paths: seq<string>, output: string) returns (ok: bool)
      modifies this`manifests
      ensures ok <==> output !in old(manifests) && forall p :: p in paths ==> p !in off
      ensures !ok ==> manifests == old(manifests)
      ensures ok ==> output in manifests && Captured(files, paths, manifests[output])
                     && manifests == old(manifests)[output := manifests[output]]
    {
      var entries: seq<Entry> := [];
      for i := 0 to |paths|
        invariant |entries| == i && forall k :: 0 <= k < i ==> entries[k] == Seen(files, paths[k]) && paths[k] !in off
      {
        if paths[i] in off {
          return false;
        }
        entries := entries + [Seen(files, paths[i])];
      }
      if output in manifests {
        return false;
      }
      manifests := manifests[output := Manifest(SCHEMA_VERSION, true, entries, Proposed, false)];
      ok := true;
    }

    method BindIntent(name: string, hashes: map<string, Hash>) returns (ok: bool)
      modifies this`manifests
      ensures ok <==> name in old(manifests) && CanBind(old(manifests)[name], hashes, off)
      ensures ok <==>
        && name in old(manifests) && Valid(old(manifests)[name], off) && old(manifests)[name].stage == Proposed
        && forall p :: p in hashes <==> exists e :: e in old(manifests)[name].entries && e.path == p
      ensures !ok ==> manifests == old(manifests)
      ensures ok ==> name in manifests && Binds(old(manifests)[name], hashes, manifests[name])
                     && manifests == old(manifests)[name := manifests[name]]
    {
      if name !in manifests {
        return false;
      }
      var m := manifests[name];
      var valid := ValidateEntries(m.(bound := true, stage := Proposed));
      if !valid || m.stage != Proposed || hashes.Keys != Paths(m) {
        return false;
      }
      var entries: seq<Entry> := [];
      for i := 0 to |m.entries|
        invariant |entries| == i
        invariant forall k :: 0 <= k < i ==>
          m.entries[k].path in hashes && entries[k] == m.entries[k].(intent := Some(hashes[m.entries[k].path]))
      {
        assert m.entries[i] in m.entries && m.entries[i].path in Paths(m);
        entries := entries + [m.entries[i].(intent := Some(hashes[m.entries[i].path]))];
      }
      manifests := manifests[name := m.(entries := entries, bound := true)];
      ok := true;
    }

    /** Whether the files are still as captured. */
    method VerifyPreimages(name: string) returns (result: Option<bool>)
      ensures result.Some? <==> name in manifests && Valid(manifests[name], off)
      ensures result.Some? ==>
        (result.value <==> forall e :: e in manifests[name].entries ==> Unchanged(e, files))
    {
      if name !in manifests {
        return None;
      }
      var m := manifests[name];
      var valid := ValidateEntries(m);
      if !valid {
        return None;
      }
      var same := true;
      for i := 0 to |m.entries|
        invariant same <==> forall k :: 0 <= k < i ==> Unchanged(m.entries[k], files)
      {
        var e := m.entries[i];
        assert e in m.entries;
        if e.state == Absent {
          same := same && e.path !in files;
        } else if e.path !in files {
          same := false;
        } else {
          same := same && e.hash == Some(Hex(Journal.Sha256(files[e.path]))) && e.length == Some(|files[e.path]|);
        }
      }
      assert same <==> forall e :: e in m.entries ==> Unchanged(e, files);
      result := Some(same);
    }

    method Transition(name: string, target: Stage) returns (ok: bool)
      modifies this`manifests
      ensures ok <==> name in old(manifests) && CanAdvance(old(manifests)[name], target, off)
      ensures ok <==>
        && name in old(manifests) && Valid(old(manifests)[name], off)
        && var m := old(manifests)[name];
        || (m.stage == Proposed && target == Approved)
        || (m.stage == Approved && target == Applied && (m.strict ==> m.bound))
        || (m.stage == Applied && target == Verified)
      ensures manifests == if ok then old(manifests)[name := old(manifests)[name].(stage := target)] else old(manifests)
    {
      if name !in manifests {
        return false;
      }
      var m := manifests[name];
      var valid := ValidateEntries(m);
      if !valid || Successor(m.stage) != Some(target) || (target == Applied && m.strict && !m.bound) {
        return false;
      }
      manifests := manifests[name := m.(stage := target)];
      ok := true;
    }

    /** Certifies an applied manifest against the files as they are. */
    method IssueReceipt(name: string, output: string) returns (outcome: Outcome)
      modifies this`manifests, this`receipts
      ensures outcome.Pass? <==>
        name in old(manifests) && output !in old(receipts) && CanCertify(old(manifests)[name], files, off)
      ensures outcome.Pass? <==>
        && name in old(manifests) && output !in old(receipts)
        && var m := old(manifests)[name];
        && Valid(m, off) && m.stage == Applied
        && forall e :: e in m.entries ==>
             && e.path in files
             && var found := Some(Hex(Journal.Sha256(files[e.path])));
             && (e.intent.Some? ==> e.intent == found)
             && (m.strict && e.state == Present ==> e.hash != found || e.length != Some(|files[e.path]|))
      ensures outcome.Pass? ==>
        && manifests == old(manifests)[name := old(manifests)[name].(stage := Verified)]
        && receipts == old(receipts)[output := outcome.receipt]
      ensures !outcome.Pass? ==> manifests == old(manifests) && receipts == old(receipts)
      ensures !outcome.Refused? ==>
        && name in old(manifests)
        && (if outcome.Pass? then outcome.receipt.changed else outcome.changed) ==
             ChangedPaths(old(manifests)[name], files)
      ensures outcome.Pass? && old(manifests)[name].strict ==> outcome.receipt.changed == Paths(old(manifests)[name])
    {
      if output in receipts || name !in manifests {
        return Refused;
      }
      var m := manifests[name];
      var valid := ValidateEntries(m);
      if !valid || m.stage != Applied {
        return Refused;
      }
      var failed, changed := false, {};
      for i := 0 to |m.entries|
        invariant failed <==> exists k :: 0 <= k < i && !Fulfilled(m, m.entries[k], files)
        invariant changed == set k | 0 <= k < i && Changed(m.entries[k], files) :: m.entries[k].path
      {
        var e := m.entries[i];
        if e.path !in files {
          failed := true;
        } else {
          var post := Hex(Journal.Sha256(files[e.path]));
          if e.intent.Some? && post != e.intent.value {
            failed := true;
          }
          if e.state == Present && e.hash == Some(post) && e.length == Some(|files[e.path]|) {
            failed := failed || m.strict;
          } else {
            changed := changed + {e.path};
          }
        }
      }
      Observed(m, files, changed);
      if failed {
        assert exists e :: e in m.entries && !Fulfilled(m, e, files);
        return Fail(changed);
      }
      outcome := Pass(Receipt(changed));
      receipts := receipts[output := Receipt(changed)];
      manifests := manifests[name := m.(stage := Verified)];
    }
  }

  lemma Observed(m: Manifest, files: Files, changed: set<string>)
    requires changed == set k | 0 <= k < |m.entries| && Changed(m.entries[k], files) :: m.entries[k].path
    ensures changed == ChangedPaths(m, files)
    ensures m.strict && (forall e :: e in m.entries ==> Fulfilled(m, e, files)) ==> changed == Paths(m)
  {
    assert forall e :: e in m.entries ==> exists k :: 0 <= k < |m.entries| && m.entries[k] == e;
    assert forall k :: 0 <= k < |m.entries| ==> m.entries[k] in m.entries;
  }
}
