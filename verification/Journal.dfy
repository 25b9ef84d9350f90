/** The optional value that stands for Python's `None` and for absent JSON fields. */
module Wrappers {
  datatype Option<+T> = None | Some(value: T)
}

/**
 The recovery journal: what one store directory and the governed files hold on disk, and the
 decisions the recovery store takes by reading it.
 */
module Journal {
  import opened Wrappers

  newtype Byte = x: int | 0 <= x < 256
  type Bytes = seq<Byte>

  const MAX_BACKUP_BYTES := 50 * 1024 * 1024

  /** A free constructor: SHA-256 taken as an injective function of the bytes. */
  datatype Digest = Sha256(of: Bytes)

  /** A governed file: the project that owns it and its canonical path. */
  datatype Place = Place(project: string, path: string)

  /** Receipt names. `serial` is the rank of the name among the names of its kind. */
  datatype Id = RecoveryId(serial: nat) | RollbackId(serial: nat)

  datatype TxState =
    | Prepared | Applied | Verified | RecoveredUnapplied | RecoveryRequired | RolledBack | Superseded

  /**
   The two kinds of receipt. `clock` is the wall clock at creation (the JSON field `seq`). `restored` is
   absent until the rollback is applied; `Some(None)` is the source's `__ABSENT__` marker.
   */
  datatype Receipt =
    | FsWrite(place: Place, state: TxState, pre: Option<Digest>, post: Option<Digest>,
              prev: Option<Id>, backup: Option<Id>, clock: int)
    | Rollback(place: Place, state: TxState, rollbackOf: Id, expectedPost: Digest,
               restored: Option<Option<Digest>>, clock: int)

  /**
   Everything durable. `damaged` holds the receipt files that fail validation: `Some(r)` is a file
   that would be the receipt `r` if only its state were known, `None` is beyond repair.
   */
  datatype Disk = Disk(
    targets: map<Place, Bytes>,
    receipts: map<Id, Receipt>,
    damaged: map<Id, Option<Receipt>>,
    backups: map<Id, Bytes>)

  predicate Incomplete(st: TxState) {
    st == Prepared || st == Applied
  }

  /** Safe to prune after retention. */
  predicate Terminal(st: TxState) {
    st == Verified || Dead(st)
  }

  /** Never applied, undone, or overtaken: the receipt describes no standing content. */
  predicate Dead(st: TxState) {
    st == RecoveredUnapplied || st == RolledBack || st == Superseded
  }

  /** Digest of the governed file, `None` when it is absent. */
  function Now(d: Disk, p: Place): Option<Digest> {
    if p in d.targets then Some(Sha256(d.targets[p])) else None
  }

  predicate At(d: Disk, p: Place, id: Id) {
    id in d.receipts && d.receipts[id].place == p
  }

  predicate WriteAt(d: Disk, p: Place, id: Id) {
    At(d, p, id) && d.receipts[id].FsWrite?
  }

  predicate Pending(d: Disk, p: Place, id: Id) {
    At(d, p, id) && Incomplete(d.receipts[id].state)
  }

  predicate Blocking(d: Disk, p: Place, id: Id) {
    At(d, p, id) && d.receipts[id].state == RecoveryRequired
  }

  /** The write `id` names the backup file `b`. */
  predicate NamesBackup(d: Disk, id: Id, b: Id) {
    id in d.receipts && d.receipts[id].FsWrite? && d.receipts[id].backup == Some(b)
  }

  /** A name never used before: no receipt carries it or mentions it. */
  ghost predicate Fresh(d: Disk, id: Id) {
    && id !in d.receipts && id !in d.damaged
    && (forall j :: j in d.receipts && d.receipts[j].FsWrite? ==> d.receipts[j].prev != Some(id))
    && (forall j :: j in d.receipts && d.receipts[j].Rollback? ==> d.receipts[j].rollbackOf != id)
    && (forall j :: j in d.damaged && d.damaged[j].Some? && d.damaged[j].value.Rollback? ==>
          d.damaged[j].value.rollbackOf != id)
  }

  function WithState(r: Receipt, st: TxState): Receipt {
    r.(state := st)
  }

  function SetState(d: Disk, id: Id, st: TxState): Disk
    requires id in d.receipts
  {
    d.(receipts := d.receipts[id := WithState(d.receipts[id], st)])
  }

  /** The second write of a finished rollback; a missing or damaged source is left alone. */
  function MarkSource(d: Disk, src: Id): Disk {
    if src in d.receipts then SetState(d, src, RolledBack) else d
  }

  predicate BackupOk(d: Disk, r: Receipt)
    requires r.FsWrite?
  {
    r.pre.Some? ==>
      r.backup.Some? && r.backup.value in d.backups && Sha256(d.backups[r.backup.value]) == r.pre.value
  }

  /** The state an incomplete receipt is settled to, judged against the bytes on disk. */
  function Reconciled(d: Disk, r: Receipt): TxState
    requires Incomplete(r.state)
  {
    match r
    case FsWrite(p, st, pre, post, _, _, _) =>
      if !BackupOk(d, r) then RecoveryRequired
      else if st == Prepared then
        if Now(d, p) == pre then RecoveredUnapplied else RecoveryRequired
      else
        if post.Some? && Now(d, p) == post then Verified else RecoveryRequired
    case Rollback(p, st, _, expected, restored, _) =>
      if st == Prepared then
        if Now(d, p) == Some(expected) then RecoveredUnapplied else RecoveryRequired
      else
        if restored.Some? && Now(d, p) == restored.value then Verified else RecoveryRequired
  }

  /** Receipts some standing write was made on top of. */
  function Effective(d: Disk, p: Place): set<Id> {
    set id | id in d.receipts && WriteAt(d, p, id) && d.receipts[id].prev.Some?
             && (d.receipts[id].state == Applied || d.receipts[id].state == Verified) :: d.receipts[id].prev.value
  }

  /** Receipts pointed at by a write nobody could settle. */
  function Doubtful(d: Disk, p: Place): set<Id> {
    set id | id in d.receipts && WriteAt(d, p, id) && d.receipts[id].prev.Some?
             && d.receipts[id].state == RecoveryRequired :: d.receipts[id].prev.value
  }

  /** Verified writes that left exactly these bytes. */
  function Candidates(d: Disk, p: Place, h: Digest): set<Id> {
    set id | id in d.receipts && WriteAt(d, p, id) && d.receipts[id].state == Verified
             && d.receipts[id].post == Some(h)
  }

  function Heads(d: Disk, p: Place, h: Digest): set<Id> {
    Candidates(d, p, h) - Effective(d, p)
  }

  predicate SoleHead(d: Disk, p: Place, h: Digest, id: Id) {
    Heads(d, p, h) == {id}
  }

  datatype Selection = NoReceipt | AmbiguousLineage | Head(id: Id)

  /** Which receipt a rollback of content `h` undoes. The clock field `clock` plays no part. */
  ghost predicate Selects(d: Disk, p: Place, h: Digest, choice: Selection) {
    match choice
    case NoReceipt => Candidates(d, p, h) == {}
    case AmbiguousLineage =>
      && Candidates(d, p, h) != {}
      && forall id :: SoleHead(d, p, h, id) ==> id in Doubtful(d, p)
    case Head(id) => SoleHead(d, p, h, id) && id !in Doubtful(d, p)
  }

  function TerminalWrites(d: Disk, p: Place): set<Id> {
    set id | id in d.receipts && WriteAt(d, p, id) && Terminal(d.receipts[id].state)
  }

  /** `a` sorts after `b` by clock, then by name. */
  predicate Later(d: Disk, a: Id, b: Id)
    requires a in d.receipts && b in d.receipts
  {
    d.receipts[a].clock > d.receipts[b].clock || (d.receipts[a].clock == d.receipts[b].clock && a.serial > b.serial)
  }

  /**
   The link a new write records: the one unreferenced receipt that left the content being
   replaced, or, when the file is being created, the latest terminal write.
   */
  ghost predicate LinkFor(d: Disk, p: Place, pre: Option<Digest>, link: Option<Id>) {
    match pre
    case Some(h) =>
      (match link
       case Some(id) => SoleHead(d, p, h, id)
       case None => forall id :: !SoleHead(d, p, h, id))
    case None =>
      match link
      case Some(id) =>
        id in TerminalWrites(d, p) && forall j :: j in TerminalWrites(d, p) ==> !Later(d, j, id)
      case None => TerminalWrites(d, p) == {}
  }
}
