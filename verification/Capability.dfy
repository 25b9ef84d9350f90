/**
 Operator capabilities: privileged writes authorized by single-use signed tokens. Consumers and
 writers interleave step by step over one confirmation store; syncs may fail, processes may crash,
 and the machine may lose power.
 */
module Capability {
  import opened Wrappers
  import opened Journal

  type Pid = nat
  type Key(==)

  datatype Payload = Payload(path: string, content: Digest, bytes: nat)

  /** The fields a pending proposal and the claims of a token both carry. */
  datatype Terms = Terms(confirmation: string, project: string, operation: string, target: string,
                         payload: Payload, preimage: Option<Digest>, nonce: string, expires: int)

  /** HMAC as a free constructor: a token carries claims only under the key that signed it. */
  datatype Token = Garbled | Signed(claims: Terms, key: Key)

  /** A governed write as its caller asks for it. */
  datatype Write = Write(project: string, path: string, content: Bytes, preimage: Option<Digest>)

  datatype Call = Call(write: Write, confirmation: Option<string>, token: Option<Token>)

  /** Routes on hold, control-plane paths and secret-bearing paths. */
  datatype Policy = Policy(held: set<string>, control: set<string>, secret: set<string>, key: Option<Key>)

  /**
   A consumed nonce. `maker` is the process that created the file, `synced` says that its content is
   durable and `listed` that its directory entry is; nothing reads them.
   */
  datatype Record = Record(confirmation: string, maker: Pid, synced: bool, listed: bool)

  /** Where one governed write stands on its way through authorization. */
  datatype Pc =
    | Started(call: Call)
    | Read(call: Call, proposal: Terms)
    | Admitted(call: Call, claims: Terms, at: int)
    | Opened(call: Call, claims: Terms, at: int)
    | Filled(call: Call, claims: Terms, at: int)
    | Failing(call: Call, claims: Terms, at: int)
    | Synced(call: Call, claims: Terms, at: int)
    | Entered(call: Call, claims: Terms, at: int)
    | Ready(call: Call, grant: Option<Terms>, since: int)
    | Wrote(call: Call, grant: Option<Terms>, since: int, canonical: string)
    | Refused
    | Gone

  function Ask(w: Write): Payload {
    Payload(w.path, Sha256(w.content), |w.content|)
  }

  function Expected(call: Call, proposal: Terms): Terms
    requires call.confirmation.Some?
  {
    Terms(call.confirmation.value, call.write.project, "FS_WRITE", call.write.path, Ask(call.write),
          call.write.preimage, proposal.nonce, proposal.expires)
  }

  predicate Matches(call: Call, claims: Terms) {
    call.confirmation.Some? && claims == Expected(call, claims)
  }

  predicate NeedsCapability(policy: Policy, w: Write) {
    w.project in policy.held || w.path in policy.control
  }

  /** A write that may happen only with an operator's consent, judged on the resolved path. */
  predicate Privileged(policy: Policy, w: Write, canonical: string) {
    w.project in policy.held || canonical in policy.control
  }

  datatype State = State(pending: map<string, Terms>, consumed: map<string, Record>, pcs: map<Pid, Pc>)

  datatype Event = Arrive(pid: Pid, call: Call) | Act(pid: Pid) | Crash(pid: Pid) | PowerLoss | Propose

  /** A directory sync makes every entry durable. */
  function ListAll(consumed: map<string, Record>): map<string, Record> {
    map n | n in consumed :: consumed[n].(listed := true)
  }

  /** One step of process `pid`: its new position and the store it leaves. */
  ghost predicate Work(policy: Policy, pid: Pid, s: State, pc: Pc, pc': Pc, s': State) {
    match pc
    case Started(call) =>
      s'.pending == s.pending && s'.consumed == s.consumed &&
      (if !NeedsCapability(policy, call.write) then pc' == Ready(call, None, 0)
       else if call.confirmation.None? || call.token.None? || policy.key.None? then pc' == Refused
       else if call.confirmation.value !in s.pending then pc' == Refused
       else pc' == Read(call, s.pending[call.confirmation.value]))
    case Read(call, proposal) =>
      s'.pending == s.pending && s'.consumed == s.consumed &&
      (pc' == Refused
       || (&& pc'.Admitted? && pc'.call == call && pc'.claims == proposal && pc'.claims.nonce != ""
           && policy.key.Some? && call.token == Some(Signed(pc'.claims, policy.key.value))
           && Matches(call, pc'.claims) && pc'.claims.expires >= pc'.at))
    case Admitted(call, claims, at) =>
      s'.pending == s.pending &&
      (if claims.nonce in s.consumed then s'.consumed == s.consumed && pc' == Refused
       else
         && s'.consumed == s.consumed[claims.nonce := Record(claims.confirmation, pid, false, false)]
         && pc' == Opened(call, claims, at))
    case Opened(call, claims, at) =>
      s'.pending == s.pending && s'.consumed == s.consumed && (pc' == Filled(call, claims, at) || pc' == Refused)
    case Filled(call, claims, at) =>
      s'.pending == s.pending &&
      if pc'.Failing? then pc' == Failing(call, claims, at) && s'.consumed == s.consumed
      else
        && pc' == Synced(call, claims, at) && claims.nonce in s.consumed
        && s'.consumed == s.consumed[claims.nonce := s.consumed[claims.nonce].(synced := true)]
    case Failing(call, claims, at) =>
      s'.pending == s.pending && pc' == Refused
      && (s'.consumed == s.consumed || s'.consumed == s.consumed - {claims.nonce})
    case Synced(call, claims, at) =>
      && s'.pending == s.pending && pc' == Entered(call, claims, at)
      && (s'.consumed == s.consumed || s'.consumed == ListAll(s.consumed))
    case Entered(call, claims, at) =>
      && s'.consumed == s.consumed && pc' == Ready(call, Some(claims), at)
      && (s'.pending == s.pending || s'.pending == s.pending - {claims.confirmation})
    case Ready(call, grant, since) =>
      s'.pending == s.pending && s'.consumed == s.consumed &&
      (pc' == Refused
       || (&& pc'.Wrote? && pc' == Wrote(call, grant, since, pc'.canonical) && pc'.canonical !in policy.secret
           && (grant.None? ==> pc'.canonical !in policy.control)))
    case _ => false
  }

  predicate Finished(pc: Pc) {
    pc.Wrote? || pc.Refused? || pc.Gone?
  }

  /** A crash loses the process; losing power loses them all, and records that are not durable in full. */
  ghost predicate Step(policy: Policy, s: State, e: Event, s': State) {
    match e
    case Arrive(pid, call) => pid !in s.pcs && s' == s.(pcs := s.pcs[pid := Started(call)])
    case Act(pid) =>
      && pid in s.pcs && pid in s'.pcs && s'.pcs == s.pcs[pid := s'.pcs[pid]]
      && Work(policy, pid, s, s.pcs[pid], s'.pcs[pid], s')
    case Crash(pid) =>
      pid in s.pcs && s' == s.(pcs := if Finished(s.pcs[pid]) then s.pcs else s.pcs[pid := Gone])
    case PowerLoss =>
      && s'.pending == s.pending
      && s'.pcs == (map pid | pid in s.pcs :: if Finished(s.pcs[pid]) then s.pcs[pid] else Gone)
      && s'.consumed.Keys <= s.consumed.Keys
      && (forall n :: n in s'.consumed ==> s'.consumed[n] == s.consumed[n])
      && (forall n :: n in s.consumed && s.consumed[n].synced && s.consumed[n].listed ==> n in s'.consumed)
    case Propose => s' == s.(pending := s'.pending)
  }

  ghost predicate Run(policy: Policy, states: seq<State>, events: seq<Event>) {
    && |states| == |events| + 1 && states[0].consumed == map[] && states[0].pcs == map[]
    && forall k :: 0 <= k < |events| ==> Step(policy, states[k], events[k], states[k + 1])
  }

  /** The claims on which `validate_and_consume_capability` answered True, if it did. */
  function Grant(pc: Pc): Option<Terms> {
    if pc.Synced? || pc.Entered? then Some(pc.claims) else if pc.Ready? || pc.Wrote? then pc.grant else None
  }

  predicate GrantedOn(s: State, pid: Pid, nonce: string) {
    pid in s.pcs && Grant(s.pcs[pid]).Some? && Grant(s.pcs[pid]).value.nonce == nonce
  }

  predicate Creating(pc: Pc) {
    pc.Opened? || pc.Filled? || pc.Failing?
  }

  function CheckedAt(pc: Pc): int {
    if pc.Ready? || pc.Wrote? then pc.since
    else if pc.Admitted? || pc.Opened? || pc.Filled? || pc.Failing? || pc.Synced? || pc.Entered? then pc.at else 0
  }

  predicate Sound(policy: Policy, call: Call, claims: Terms, at: int) {
    && Matches(call, claims) && claims.nonce != "" && claims.expires >= at
    && policy.key.Some? && call.token == Some(Signed(claims, policy.key.value))
  }

  predicate Owned(s: State, claims: Terms, pid: Pid, synced: bool) {
    && claims.nonce in s.consumed
    && s.consumed[claims.nonce] == Record(claims.confirmation, pid, synced, s.consumed[claims.nonce].listed)
  }

  /** The record of each process that created one is still its own, unless its nonce was `lost`. */
  predicate Holds(policy: Policy, s: State, lost: set<string>, pid: Pid)
    requires pid in s.pcs
  {
    var pc := s.pcs[pid];
    && (Creating(pc) ==> Owned(s, pc.claims, pid, false))
    && (pc.Admitted? || Creating(pc) ==> Sound(policy, pc.call, pc.claims, pc.at))
    && (Grant(pc).Some? ==>
          var claims := Grant(pc).value;
          && (claims.nonce in lost || Owned(s, claims, pid, true))
          && Sound(policy, pc.call, claims, CheckedAt(pc)))
    && (pc.Ready? && pc.grant.None? ==> !NeedsCapability(policy, pc.call.write))
    && (pc.Wrote? && pc.grant.None? ==> !Privileged(policy, pc.call.write, pc.canonical))
  }

  ghost predicate Inv(policy: Policy, s: State, lost: set<string>) {
    forall pid :: pid in s.pcs ==> Holds(policy, s, lost, pid)
  }

  /** Nonces whose synced records a step destroyed. */
  function Dropped(s: State, s': State): set<string> {
    set n | n in s.consumed && s.consumed[n].synced && n !in s'.consumed
  }

  /** Nonces whose synced records were destroyed in the first `k` steps. */
  function Lost(states: seq<State>, k: nat): set<string>
    requires k < |states|
  {
    if k == 0 then {} else Lost(states, k - 1) + Dropped(states[k - 1], states[k])
  }

  lemma WorkerHolds(policy: Policy, s: State, lost: set<string>, pid: Pid, s': State)
    requires Inv(policy, s, lost) && Step(policy, s, Act(pid), s')
    ensures Holds(policy, s', lost, pid)
  {
    assert Holds(policy, s, lost, pid);
  }

  lemma OthersHold(policy: Policy, s: State, lost: set<string>, pid: Pid, s': State, other: Pid)
    requires Inv(policy, s, lost) && Step(policy, s, Act(pid), s') && other in s'.pcs && other != pid
    ensures Holds(policy, s', lost, other)
  {
    assert Holds(policy, s, lost, pid) && Holds(policy, s, lost, other);
  }

  lemma StepKeeps(policy: Policy, s: State, lost: set<string>, e: Event, s': State)
    requires Inv(policy, s, lost) && Step(policy, s, e, s')
    ensures Inv(policy, s', lost + Dropped(s, s'))
  {
    forall pid | pid in s'.pcs ensures Holds(policy, s', lost + Dropped(s, s'), pid) {
      if e.Act? {
        if pid == e.pid {
          WorkerHolds(policy, s, lost, pid, s');
        } else {
          OthersHold(policy, s, lost, e.pid, s', pid);
        }
      } else if pid in s.pcs {
        assert Holds(policy, s, lost, pid);
      }
    }
  }

  lemma {:induction false} RunKeeps(policy: Policy, states: seq<State>, events: seq<Event>, k: nat)
    requires Run(policy, states, events) && k < |states|
    ensures Inv(policy, states[k], Lost(states, k))
  {
    if k > 0 {
      RunKeeps(policy, states, events, k - 1);
      assert Step(policy, states[k - 1], events[k - 1], states[k]);
      StepKeeps(policy, states[k - 1], Lost(states, k - 1), events[k - 1], states[k]);
    }
  }

  /**
   A record is only ever removed by the process that made it, before it was synced, or by a power loss
   that found it not durable in full.
   */
  lemma RecordLasts(policy: Policy, s: State, lost: set<string>, e: Event, s': State, nonce: string)
    requires Inv(policy, s, lost) && Step(policy, s, e, s') && nonce in s.consumed
    ensures nonce !in s'.consumed ==>
      || (e == Act(s.consumed[nonce].maker) && !s.consumed[nonce].synced)
      || (e.PowerLoss? && !(s.consumed[nonce].synced && s.consumed[nonce].listed))
    ensures nonce in s'.consumed ==>
      && s'.consumed[nonce].maker == s.consumed[nonce].maker
      && (s.consumed[nonce].synced ==> s'.consumed[nonce].synced)
      && (s.consumed[nonce].listed ==> s'.consumed[nonce].listed)
  {
    if e.Act? { assert Holds(policy, s, lost, e.pid); }
  }

  /** A power loss that takes a synced record whose directory entry was not yet durable. */
  predicate LosesEntry(states: seq<State>, events: seq<Event>, k: nat, nonce: string)
    requires |states| == |events| + 1 && k < |events|
  {
    && events[k].PowerLoss? && nonce in states[k].consumed && nonce !in states[k + 1].consumed
    && states[k].consumed[nonce].synced && !states[k].consumed[nonce].listed
  }

  lemma {:induction false} LostBySomeLoss(policy: Policy, states: seq<State>, events: seq<Event>, k: nat, nonce: string)
    requires Run(policy, states, events) && k < |states| && nonce in Lost(states, k)
    ensures exists i :: 0 <= i < k && LosesEntry(states, events, i, nonce)
  {
    if nonce in Lost(states, k - 1) {
      LostBySomeLoss(policy, states, events, k - 1, nonce);
    } else {
      RunKeeps(policy, states, events, k - 1);
      assert Step(policy, states[k - 1], events[k - 1], states[k]);
      RecordLasts(policy, states[k - 1], Lost(states, k - 1), events[k - 1], states[k], nonce);
      assert LosesEntry(states, events, k - 1, nonce);
    }
  }

  /** A synced record keeps its maker from then on, unless its entry is lost. */
  lemma {:induction false} SyncedForever(policy: Policy, states: seq<State>, events: seq<Event>, i: nat, j: nat,
                                         nonce: string)
    requires Run(policy, states, events) && i <= j < |states|
    requires nonce in states[i].consumed && states[i].consumed[nonce].synced
    ensures Lost(states, i) <= Lost(states, j)
    ensures nonce in Lost(states, j)
         || (nonce in states[j].consumed && states[j].consumed[nonce].synced
             && states[j].consumed[nonce].maker == states[i].consumed[nonce].maker)
    decreases j
  {
    if i < j {
      SyncedForever(policy, states, events, i, j - 1, nonce);
      if nonce !in Lost(states, j - 1) {
        RunKeeps(policy, states, events, j - 1);
        assert Step(policy, states[j - 1], events[j - 1], states[j]);
        RecordLasts(policy, states[j - 1], Lost(states, j - 1), events[j - 1], states[j], nonce);
      }
    }
  }

  lemma {:induction false} LostGrows(states: seq<State>, i: nat, j: nat)
    requires i <= j < |states|
    ensures Lost(states, i) <= Lost(states, j)
  {
    if i < j { LostGrows(states, i, j - 1); }
  }

  /**
   Single use: over all interleavings, crashes and sync failures at most one call is ever answered True
   for a nonce, `i` and `j` being any two moments, unless a power loss took a synced record of that
   nonce whose directory entry could not be synced.
   */
  lemma SingleUse(policy: Policy, states: seq<State>, events: seq<Event>, i: nat, j: nat, a: Pid, b: Pid, nonce: string)
    requires Run(policy, states, events) && i <= j < |states|
    requires GrantedOn(states[i], a, nonce) && GrantedOn(states[j], b, nonce)
    ensures a == b || exists k :: 0 <= k < j && LosesEntry(states, events, k, nonce)
  {
    RunKeeps(policy, states, events, i);
    RunKeeps(policy, states, events, j);
    assert Holds(policy, states[i], Lost(states, i), a) && Holds(policy, states[j], Lost(states, j), b);
    LostGrows(states, i, j);
    if nonce in Lost(states, j) {
      LostBySomeLoss(policy, states, events, j, nonce);
    } else {
      SyncedForever(policy, states, events, i, j, nonce);
    }
  }

  /**
   Every True is backed by claims that match the call, were signed and had not expired, and by a synced
   record of its own, for as long as no power loss takes it.
   */
  lemma GrantIsBacked(policy: Policy, states: seq<State>, events: seq<Event>, k: nat, pid: Pid)
    requires Run(policy, states, events) && k < |states| && pid in states[k].pcs && Grant(states[k].pcs[pid]).Some?
    ensures var pc := states[k].pcs[pid];
      var claims := Grant(pc).value;
      && (Owned(states[k], claims, pid, true) || exists i :: 0 <= i < k && LosesEntry(states, events, i, claims.nonce))
      && Matches(pc.call, claims) && claims.nonce != "" && claims.expires >= CheckedAt(pc)
      && policy.key.Some? && pc.call.token == Some(Signed(claims, policy.key.value))
  {
    RunKeeps(policy, states, events, k);
    assert Holds(policy, states[k], Lost(states, k), pid);
    var nonce := Grant(states[k].pcs[pid]).value.nonce;
    if nonce in Lost(states, k) { LostBySomeLoss(policy, states, events, k, nonce); }
  }

  /** A nonce whose holder crashed after the sync is spent: it authorizes nothing while the record lasts. */
  lemma BurntNonce(policy: Policy, states: seq<State>, events: seq<Event>, i: nat, j: nat, nonce: string, b: Pid)
    requires Run(policy, states, events) && i <= j < |states|
    requires nonce in states[i].consumed && states[i].consumed[nonce].synced
    requires states[i].consumed[nonce].maker in states[i].pcs && states[i].pcs[states[i].consumed[nonce].maker].Gone?
    ensures !GrantedOn(states[j], b, nonce) || exists k :: 0 <= k < j && LosesEntry(states, events, k, nonce)
  {
    var maker := states[i].consumed[nonce].maker;
    SyncedForever(policy, states, events, i, j, nonce);
    GoneForever(policy, states, events, i, j, maker);
    RunKeeps(policy, states, events, j);
    if b in states[j].pcs { assert Holds(policy, states[j], Lost(states, j), b); }
    if nonce in Lost(states, j) { LostBySomeLoss(policy, states, events, j, nonce); }
  }

  lemma {:induction false} GoneForever(policy: Policy, states: seq<State>, events: seq<Event>, i: nat, j: nat, pid: Pid)
    requires Run(policy, states, events) && i <= j < |states| && pid in states[i].pcs && states[i].pcs[pid].Gone?
    ensures pid in states[j].pcs && states[j].pcs[pid].Gone?
    decreases j - i
  {
    if i < j {
      assert Step(policy, states[i], events[i], states[i + 1]);
      GoneForever(policy, states, events, i + 1, j, pid);
    }
  }

  /** A completed write that needed the operator. */
  predicate PrivilegedWrite(policy: Policy, s: State, pid: Pid) {
    pid in s.pcs && s.pcs[pid].Wrote? && Privileged(policy, s.pcs[pid].call.write, s.pcs[pid].canonical)
  }

  /**
   Privileged writes inject into consumed nonces: each has claims that name its project, path, content,
   length and preimage, and no two have the same nonce, unless a power loss took that nonce's record
   before its directory entry was durable.
   */
  lemma PrivilegedWritesInject(policy: Policy, states: seq<State>, events: seq<Event>, k: nat, a: Pid, b: Pid)
    requires Run(policy, states, events) && k < |states|
    requires PrivilegedWrite(policy, states[k], a) && PrivilegedWrite(policy, states[k], b)
    ensures states[k].pcs[a].grant.Some? && states[k].pcs[b].grant.Some?
    ensures var w, claims := states[k].pcs[a].call.write, states[k].pcs[a].grant.value;
      && claims.project == w.project && claims.target == w.path && claims.preimage == w.preimage
      && claims.payload == Payload(w.path, Sha256(w.content), |w.content|) && claims.operation == "FS_WRITE"
    ensures var nonce := states[k].pcs[a].grant.value.nonce;
      || (exists i :: 0 <= i < k && LosesEntry(states, events, i, nonce))
      || (&& nonce in states[k].consumed && states[k].consumed[nonce].synced
          && (a != b ==> states[k].pcs[b].grant.value.nonce != nonce))
  {
    RunKeeps(policy, states, events, k);
    assert Holds(policy, states[k], Lost(states, k), a) && Holds(policy, states[k], Lost(states, k), b);
    var nonce := states[k].pcs[a].grant.value.nonce;
    if nonce in Lost(states, k) { LostBySomeLoss(policy, states, events, k, nonce); }
  }

  /** The positions of an authorized write whose directory sync fails and whose proposal stays. */
  function Positions(call: Call, claims: Terms, at: int, canonical: string): seq<Pc> {
    [ Started(call), Read(call, claims), Admitted(call, claims, at), Opened(call, claims, at), Filled(call, claims, at),
      Synced(call, claims, at), Entered(call, claims, at), Ready(call, Some(claims), at),
      Wrote(call, Some(claims), at, canonical) ]
  }

  /** The states it passes through, from its arrival on. */
  function Script(s: State, pid: Pid, call: Call, claims: Terms, at: int, canonical: string, k: nat): State
    requires k < 9
  {
    State(s.pending,
          if k < 3 then s.consumed else s.consumed[claims.nonce := Record(claims.confirmation, pid, k >= 5, false)],
          s.pcs[pid := Positions(call, claims, at, canonical)[k]])
  }

  ghost predicate CanWrite(policy: Policy, s: State, call: Call, claims: Terms, at: int, canonical: string) {
    && Sound(policy, call, claims, at) && NeedsCapability(policy, call.write) && canonical !in policy.secret
    && claims.confirmation in s.pending && s.pending[claims.confirmation] == claims && claims.nonce !in s.consumed
  }

  lemma ScriptSteps(policy: Policy, s: State, pid: Pid, call: Call, claims: Terms, at: int, canonical: string, k: nat)
    requires CanWrite(policy, s, call, claims, at, canonical) && k < 8
    ensures Step(policy, Script(s, pid, call, claims, at, canonical, k), Act(pid),
                 Script(s, pid, call, claims, at, canonical, k + 1))
  {
    var x, y := Script(s, pid, call, claims, at, canonical, k), Script(s, pid, call, claims, at, canonical, k + 1);
    var pcs := Positions(call, claims, at, canonical);
    assert x.pcs[pid] == pcs[k] && y.pcs[pid] == pcs[k + 1] && y.pcs == x.pcs[pid := pcs[k + 1]];
    assert k == 0 || k == 1 || k == 2 || k == 3 || k == 4 || k == 5 || k == 6 || k == 7;
  }

  ghost predicate Leads(policy: Policy, states: seq<State>, events: seq<Event>) {
    |states| == |events| + 1 && forall k :: 0 <= k < |events| ==> Step(policy, states[k], events[k], states[k + 1])
  }

  lemma LeadsOn(policy: Policy, states: seq<State>, events: seq<Event>, e: Event, s': State)
    requires Leads(policy, states, events) && Step(policy, states[|events|], e, s')
    ensures Leads(policy, states + [s'], events + [e])
  {
    var all, es := states + [s'], events + [e];
    forall k | 0 <= k < |es| ensures Step(policy, all[k], es[k], all[k + 1]) {
      if k < |events| { assert Step(policy, states[k], events[k], states[k + 1]); }
    }
  }

  lemma {:induction false} ScriptLeads(policy: Policy, states: seq<State>, events: seq<Event>,
                                       s: State, pid: Pid, call: Call, claims: Terms, at: int, canonical: string,
                                       k: nat)
    returns (states': seq<State>, events': seq<Event>)
    requires Leads(policy, states, events) && states[|events|] == s && pid !in s.pcs && k < 9
    requires CanWrite(policy, s, call, claims, at, canonical)
    ensures Leads(policy, states', events') && states' != [] && states <= states'
    ensures states'[|events'|] == Script(s, pid, call, claims, at, canonical, k)
  {
    if k == 0 {
      states', events' := states + [Script(s, pid, call, claims, at, canonical, 0)], events + [Arrive(pid, call)];
      LeadsOn(policy, states, events, Arrive(pid, call), Script(s, pid, call, claims, at, canonical, 0));
    } else {
      var states0, events0 := ScriptLeads(policy, states, events, s, pid, call, claims, at, canonical, k - 1);
      ScriptSteps(policy, s, pid, call, claims, at, canonical, k - 1);
      LeadsOn(policy, states0, events0, Act(pid), Script(s, pid, call, claims, at, canonical, k));
      states', events' := states0 + [Script(s, pid, call, claims, at, canonical, k)], events0 + [Act(pid)];
    }
  }

  /**
   The exception is real: for every write an operator ever authorized there is a run in which a power
   loss takes its record, directory entry and all, and the same token authorizes the write again.
   */
  lemma LostEntryReplays(policy: Policy, call: Call, claims: Terms, at: int, canonical: string)
    returns (states: seq<State>, events: seq<Event>)
    requires Sound(policy, call, claims, at) && NeedsCapability(policy, call.write) && canonical !in policy.secret
    ensures Run(policy, states, events)
    ensures var s := states[|events|];
      && 0 in s.pcs && 1 in s.pcs && s.pcs[0].Wrote? && s.pcs[1].Wrote?
      && GrantedOn(s, 0, claims.nonce) && GrantedOn(s, 1, claims.nonce)
  {
    var start := State(map[claims.confirmation := claims], map[], map[]);
    states, events := ScriptLeads(policy, [start], [], start, 0, call, claims, at, canonical, 8);
    var lost := State(start.pending, map[], states[|events|].pcs);
    assert Step(policy, states[|events|], PowerLoss, lost);
    LeadsOn(policy, states, events, PowerLoss, lost);
    states, events := states + [lost], events + [PowerLoss];
    states, events := ScriptLeads(policy, states, events, lost, 1, call, claims, at, canonical, 8);
  }

  /**
   How the writing of the consumed record goes. Once its content is synced, neither its directory entry
   (`listed`) nor the removal of the proposal (`dropped`) is required.
   */
  datatype Course = Synchronized(listed: bool, dropped: bool) | WriteFails | SyncFails(unlinked: bool)

  /** The consumed records that course leaves. */
  function Recorded(consumed: map<string, Record>, claims: Terms, pid: Pid, course: Course): map<string, Record> {
    var made := consumed[claims.nonce := Record(claims.confirmation, pid, course.Synchronized?, false)];
    match course
    case Synchronized(listed, _) => if listed then ListAll(made) else made
    case WriteFails => made
    case SyncFails(unlinked) => if unlinked then consumed - {claims.nonce} else made
  }

  /**
   What becomes of the consumed records: the nonce is free again only if its record was taken back after a
   failed sync; otherwise it is spent, durably if it could be. No other nonce is spent or freed.
   */
  predicate Spends(was: map<string, Record>, now: map<string, Record>, claims: Terms, pid: Pid, course: Course) {
    && (claims.nonce !in now <==> course == SyncFails(true))
    && (claims.nonce in now ==>
          now[claims.nonce] ==
            Record(claims.confirmation, pid, course.Synchronized?, course.Synchronized? && course.listed))
    && (forall n :: n in now && n != claims.nonce ==>
          n in was && now[n] == was[n].(listed := was[n].listed || (course.Synchronized? && course.listed)))
    && forall n :: n in was ==> n in now
  }

  lemma RecordedSpends(consumed: map<string, Record>, claims: Terms, pid: Pid, course: Course)
    requires claims.nonce !in consumed
    ensures Spends(consumed, Recorded(consumed, claims, pid, course), claims, pid, course)
  {
  }

  /** Everything but the record itself speaks for the call. */
  predicate Admissible(policy: Policy, call: Call, pending: map<string, Terms>, now: int) {
    && call.confirmation.Some? && call.confirmation.value in pending && policy.key.Some?
    && var claims := pending[call.confirmation.value];
    && call.token == Some(Signed(claims, policy.key.value)) && Matches(call, claims)
    && claims.expires >= now && claims.nonce != ""
  }

  /** One legal path of the process `pid` through authorization, state by state. */
  ghost predicate Path(policy: Policy, pid: Pid, path: seq<(State, Pc)>) {
    && path != []
    && forall k :: 0 < k < |path| ==> Work(policy, pid, path[k - 1].0, path[k - 1].1, path[k].1, path[k].0)
  }

  /** The state of a path among the other processes of `s`. */
  function Among(s: State, pid: Pid, at: (State, Pc)): State {
    State(at.0.pending, at.0.consumed, s.pcs[pid := at.1])
  }

  /**
   A call that runs while nobody else does is part of a run: the new process arrives and takes the steps of
   its path, so what holds of every run holds of the call.
   */
  lemma {:induction false} CallExtendsRun(policy: Policy, states: seq<State>, events: seq<Event>, pid: Pid, call: Call,
                                          path: seq<(State, Pc)>)
    returns (states': seq<State>, events': seq<Event>)
    requires Run(policy, states, events) && pid !in states[|events|].pcs
    requires Path(policy, pid, path) && path[0].1 == Started(call)
    requires path[0].0.pending == states[|events|].pending && path[0].0.consumed == states[|events|].consumed
    ensures Run(policy, states', events') && states <= states' && events <= events'
    ensures states'[|events'|] == Among(states[|events|], pid, path[|path| - 1])
    decreases |path|
  {
    var s, n := states[|events|], |path| - 1;
    if n == 0 {
      LeadsOn(policy, states, events, Arrive(pid, call), Among(s, pid, path[0]));
      states', events' := states + [Among(s, pid, path[0])], events + [Arrive(pid, call)];
    } else {
      assert path[..n][n - 1] == path[n - 1] && path[..n][0] == path[0];
      states', events' := CallExtendsRun(policy, states, events, pid, call, path[..n]);
      var x, y := Among(s, pid, path[n - 1]), Among(s, pid, path[n]);
      assert Work(policy, pid, path[n - 1].0, path[n - 1].1, path[n].1, path[n].0);
      assert y.pcs == x.pcs[pid := path[n].1];
      LeadsOn(policy, states', events', Act(pid), y);
      states', events' := states' + [y], events' + [Act(pid)];
    }
  }

  /** The confirmation store of one host, seen by the process `self` while no other one runs. */
  class ConfirmationStore {
    const self: Pid
    const policy: Policy
    var pending: map<string, Terms>
    var consumed: map<string, Record>
    ghost var trail: seq<(State, Pc)>

    constructor (self: Pid, policy: Policy)
      ensures this.self == self && this.policy == policy && pending == map[] && consumed == map[] && trail == []
    {
      this.self, this.policy := self, policy;
      pending, consumed, trail := map[], map[], [];
    }

    ghost function Now(pc: Pc): State
      reads this`pending, this`consumed
    {
      State(pending, consumed, map[self := pc])
    }

    /** The trail is one legal path of the protocol and ends here. */
    ghost predicate Tracing(pc: Pc)
      reads this
    {
      Path(policy, self, trail) && trail[|trail| - 1] == (Now(pc), pc)
    }

    ghost method Mark(was: Pc, pc: Pc)
      requires Path(policy, self, trail) && trail[|trail| - 1].1 == was
      requires Work(policy, self, trail[|trail| - 1].0, was, pc, Now(pc))
      modifies this`trail
      ensures Tracing(pc) && trail == old(trail) + [(Now(pc), pc)]
    {
      trail := trail + [(Now(pc), pc)];
    }

    /** A pending proposal for the operator to sign. `confirmation` and `nonce` are fresh random names. */
    method CreateRequest(w: Write, confirmation: string, nonce: string, now: int, ttl: int)
      modifies this`pending
      ensures confirmation in pending && pending == old(pending)[confirmation := pending[confirmation]]
      ensures pending[confirmation].nonce == nonce && pending[confirmation].expires == now + ttl
      ensures forall key, at :: policy.key == Some(key) && at <= now + ttl && nonce != "" ==>
        Admissible(policy, Call(w, Some(confirmation), Some(Signed(pending[confirmation], key))), pending, at)
    {
      var terms := Terms(confirmation, w.project, "FS_WRITE", w.path, Ask(w), w.preimage, nonce, now + ttl);
      pending := pending[confirmation := terms];
    }

    /**
     True exactly when the proposal, the token and the call agree, the token has not expired, its
     nonce has no record, and the content of the new record could be synced. A failed sync leaves the
     nonce free again if the record could be removed; any other course after its creation spends it.
     */
    method ValidateAndConsume(call: Call, now: int, course: Course) returns (granted: bool)
      requires NeedsCapability(policy, call.write)
      modifies this
      ensures granted <==> course.Synchronized? && Admissible(policy, call, old(pending), now)
                           && old(pending)[call.confirmation.value].nonce !in old(consumed)
      ensures consumed ==
        if !Admissible(policy, call, old(pending), now) then old(consumed)
        else
          var claims := old(pending)[call.confirmation.value];
          if claims.nonce in old(consumed) then old(consumed) else Recorded(old(consumed), claims, self, course)
      ensures Admissible(policy, call, old(pending), now)
              && old(pending)[call.confirmation.value].nonce !in old(consumed) ==>
        Spends(old(consumed), consumed, old(pending)[call.confirmation.value], self, course)
      ensures pending == if granted && course.dropped then old(pending) - {call.confirmation.value} else old(pending)
      ensures granted ==> Tracing(Ready(call, Some(old(pending)[call.confirmation.value]), now))
      ensures !granted ==> Tracing(Refused)
      ensures trail[0] == (old(Now(Started(call))), Started(call))
    {
      trail := [(Now(Started(call)), Started(call))];
      if call.confirmation.None? || call.token.None? || policy.key.None? || call.confirmation.value !in pending {
        Mark(Started(call), Refused);
        return false;
      }
      var proposal := pending[call.confirmation.value];
      Mark(Started(call), Read(call, proposal));
      if call.token.value.Garbled? || call.token.value.key != policy.key.value {
        Mark(Read(call, proposal), Refused);
        return false;
      }
      var claims := call.token.value.claims;
      var expected := Expected(call, proposal);
      if claims != expected || proposal != expected || claims.expires < now || claims.nonce == "" {
        Mark(Read(call, proposal), Refused);
        return false;
      }
      Mark(Read(call, proposal), Admitted(call, claims, now));
      granted := Consume(call, claims, now, course);
      if claims.nonce !in old(consumed) { RecordedSpends(old(consumed), claims, self, course); }
    }

    /** A write that needs no capability is ready at once. */
    ghost method Wave(call: Call)
      requires !NeedsCapability(policy, call.write)
      modifies this`trail
      ensures Tracing(Ready(call, None, 0)) && trail[0] == (Now(Started(call)), Started(call))
    {
      trail := [(Now(Started(call)), Started(call))];
      Mark(Started(call), Ready(call, None, 0));
    }

    /** Creates the record exclusively, fills it, syncs it, and only then drops the proposal. */
    method Consume(call: Call, claims: Terms, now: int, course: Course) returns (granted: bool)
      requires Tracing(Admitted(call, claims, now))
      modifies this
      ensures granted <==> course.Synchronized? && claims.nonce !in old(consumed)
      ensures consumed == if claims.nonce in old(consumed) then old(consumed)
                          else Recorded(old(consumed), claims, self, course)
      ensures pending == if granted && course.dropped then old(pending) - {claims.confirmation} else old(pending)
      ensures Tracing(if granted then Ready(call, Some(claims), now) else Refused) && trail[0] == old(trail[0])
    {
      if claims.nonce in consumed {
        Mark(Admitted(call, claims, now), Refused);
        return false;
      }
      consumed := consumed[claims.nonce := Record(claims.confirmation, self, false, false)];
      Mark(Admitted(call, claims, now), Opened(call, claims, now));
      if course.WriteFails? {
        Mark(Opened(call, claims, now), Refused);
        return false;
      }
      Mark(Opened(call, claims, now), Filled(call, claims, now));
      granted := SyncRecord(call, claims, now, course);
    }

    /**
     The required sync of the new record; when it fails the record is taken back, if it can be. Then, if
     possible, the sync of its directory and the removal of the proposal.
     */
    method SyncRecord(call: Call, claims: Terms, now: int, course: Course) returns (granted: bool)
      requires Tracing(Filled(call, claims, now)) && !course.WriteFails?
      requires claims.nonce in consumed && consumed[claims.nonce] == Record(claims.confirmation, self, false, false)
      modifies this
      ensures granted <==> course.Synchronized?
      ensures consumed == Recorded(old(consumed), claims, self, course)
      ensures pending == if granted && course.dropped then old(pending) - {claims.confirmation} else old(pending)
      ensures Tracing(if granted then Ready(call, Some(claims), now) else Refused) && trail[0] == old(trail[0])
    {
      if course.SyncFails? {
        Mark(Filled(call, claims, now), Failing(call, claims, now));
        if course.unlinked {
          consumed := consumed - {claims.nonce};
        }
        Mark(Failing(call, claims, now), Refused);
        return false;
      }
      consumed := consumed[claims.nonce := Record(claims.confirmation, self, true, false)];
      Mark(Filled(call, claims, now), Synced(call, claims, now));
      if course.listed {
        consumed := ListAll(consumed);
      }
      Mark(Synced(call, claims, now), Entered(call, claims, now));
      if course.dropped {
        pending := pending - {claims.confirmation};
      }
      Mark(Entered(call, claims, now), Ready(call, Some(claims), now));
      granted := true;
    }
  }
}
