/** The governed write from end to end: authorization, path permission, then the journaled critical section. */
module GovernedWrites {
  import opened Wrappers
  import opened Journal
  import Protocol
  import Capability
  import RecoveryStores
  import Executor

  datatype Answer =
    | Refused
    | Proposed(confirmation: string)
    | Ran(result: Protocol.Result)

  /** Where the path of a governed write through authorization ends. */
  predicate Arrives(pc: Capability.Pc, ran: bool, call: Capability.Call, canonical: Option<string>, authorized: bool) {
    if ran then
      && pc.Wrote? && pc.call == call && canonical == Some(pc.canonical)
      && (authorized <==> pc.grant.Some?)
    else pc.Refused?
  }

  /** A pending proposal that, signed as it is by the operator, speaks for this very write for five minutes. */
  ghost predicate Offers(store: Capability.ConfirmationStore, w: Capability.Write, proposal: string, nonce: string,
                         now: int)
    reads store
  {
    && proposal in store.pending
    && store.pending[proposal].nonce == nonce && store.pending[proposal].expires == now + 300
    && (store.policy.key.Some? && nonce != "" ==>
          var token := Capability.Signed(store.pending[proposal], store.policy.key.value);
          forall at :: at <= now + 300 ==>
            Capability.Admissible(store.policy, Capability.Call(w, Some(proposal), Some(token)), store.pending, at))
  }

  class Gateway {
    const executor: Executor.GovernedExecutor
    const confirmations: Capability.ConfirmationStore

    constructor (executor: Executor.GovernedExecutor, confirmations: Capability.ConfirmationStore)
      ensures this.executor == executor && this.confirmations == confirmations
    {
      this.executor, this.confirmations := executor, confirmations;
    }

    /**
     Everything that precedes the critical section: the capability, if the write needs one, and the
     permission of the resolved path. `path` is the course of it through the protocol of capabilities.
     */
    method Authorize(call: Capability.Call, canonical: Option<string>, now: int, course: Capability.Course,
                     proposal: string, nonce: string)
      returns (denial: Option<Answer>, ghost authorized: bool, ghost path: seq<(Capability.State, Capability.Pc)>)
      modifies confirmations
      ensures denial.None? <==>
        && canonical.Some? && canonical.value !in confirmations.policy.secret
        && (authorized
            || (&& call.write.project !in confirmations.policy.held
                && call.write.path !in confirmations.policy.control
                && canonical.value !in confirmations.policy.control))
      ensures denial.Some? ==> !denial.value.Ran?
      ensures Capability.Path(confirmations.policy, confirmations.self, path)
      ensures path[0] == (old(confirmations.Now(Capability.Started(call))), Capability.Started(call))
      ensures path[|path| - 1].0.consumed == confirmations.consumed
      ensures denial.None? || denial.value.Refused? ==> path[|path| - 1].0.pending == confirmations.pending
      ensures Arrives(path[|path| - 1].1, denial.None?, call, canonical, authorized)
      ensures authorized <==>
        && Capability.NeedsCapability(confirmations.policy, call.write) && course.Synchronized?
        && Capability.Admissible(confirmations.policy, call, old(confirmations.pending), now)
        && old(confirmations.pending)[call.confirmation.value].nonce !in old(confirmations.consumed)
      ensures authorized ==>
        var claims := old(confirmations.pending)[call.confirmation.value];
        && Capability.Matches(call, claims)
        && confirmations.consumed ==
             Capability.Recorded(old(confirmations.consumed), claims, confirmations.self, course)
      ensures denial.Some? && denial.value.Proposed? <==>
        && !authorized && call.write.project in confirmations.policy.held
        && call.write.path !in confirmations.policy.control
      ensures denial.Some? && denial.value.Proposed? ==>
        denial.value.confirmation == proposal && Offers(confirmations, call.write, proposal, nonce, now)
    {
      authorized := false;
      if Capability.NeedsCapability(confirmations.policy, call.write) {
        var granted := confirmations.ValidateAndConsume(call, now, course);
        authorized := granted;
        if !granted {
          path := confirmations.trail;
          if call.write.path in confirmations.policy.control {
            return Some(Refused), authorized, path;
          }
          confirmations.CreateRequest(call.write, proposal, nonce, now, 300);
          return Some(Proposed(proposal)), authorized, path;
        }
        denial := Resolve(call, canonical, true);
      } else {
        confirmations.Wave(call);
        denial := Resolve(call, canonical, false);
      }
      path := confirmations.trail;
    }

    /** The permission of the resolved path. */
    method Resolve(call: Capability.Call, canonical: Option<string>, granted: bool) returns (denial: Option<Answer>)
      requires Capability.Path(confirmations.policy, confirmations.self, confirmations.trail)
      requires var pc := confirmations.trail[|confirmations.trail| - 1].1;
        confirmations.Tracing(pc) && pc.Ready? && pc.call == call && pc.grant.Some? == granted
      modifies confirmations`trail
      ensures denial == None || denial == Some(Refused)
      ensures denial == None <==>
        && canonical.Some? && canonical.value !in confirmations.policy.secret
        && (granted || canonical.value !in confirmations.policy.control)
      ensures Capability.Path(confirmations.policy, confirmations.self, confirmations.trail)
      ensures var pc := confirmations.trail[|confirmations.trail| - 1].1;
        confirmations.Tracing(pc) && Arrives(pc, denial.None?, call, canonical, granted)
      ensures confirmations.trail[0] == old(confirmations.trail[0])
    {
      ghost var ready := confirmations.trail[|confirmations.trail| - 1].1;
      if canonical.None? || canonical.value in confirmations.policy.secret {
        confirmations.Mark(ready, Capability.Refused);
        return Some(Refused);
      }
      if !granted && canonical.value in confirmations.policy.control {
        confirmations.Mark(ready, Capability.Refused);
        return Some(Refused);
      }
      confirmations.Mark(ready, Capability.Wrote(call, ready.grant, ready.since, canonical.value));
      denial := None;
    }

    /**
     `canonical` is the path resolved under the project's root, `None` when it leaves it; `proposal`
     and `nonce` are the names a new confirmation request takes, `id` and `clock` the receipt's, and `files`
     the listing of the receipt files.
     */
    method FsWrite(call: Capability.Call, canonical: Option<string>, now: int, course: Capability.Course,
                   proposal: string, nonce: string, files: seq<Id>, id: Id, clock: int)
      returns (answer: Answer, ghost authorized: bool, ghost path: seq<(Capability.State, Capability.Pc)>)
      requires forall j :: j in executor.store.receipts ==> j in files
      requires id.RecoveryId? && Fresh(executor.store.Files(), id) && id !in executor.store.backups
      modifies executor.store, confirmations
      ensures answer.Ran? <==>
        && canonical.Some? && canonical.value !in confirmations.policy.secret
        && (authorized
            || (&& call.write.project !in confirmations.policy.held
                && call.write.path !in confirmations.policy.control
                && canonical.value !in confirmations.policy.control))
      ensures Capability.Path(confirmations.policy, confirmations.self, path)
      ensures path[0] == (old(confirmations.Now(Capability.Started(call))), Capability.Started(call))
      ensures path[|path| - 1].0.consumed == confirmations.consumed
      ensures !answer.Proposed? ==> path[|path| - 1].0.pending == confirmations.pending
      ensures Arrives(path[|path| - 1].1, answer.Ran?, call, canonical, authorized)
      ensures authorized <==>
        && Capability.NeedsCapability(confirmations.policy, call.write) && course.Synchronized?
        && Capability.Admissible(confirmations.policy, call, old(confirmations.pending), now)
        && old(confirmations.pending)[call.confirmation.value].nonce !in old(confirmations.consumed)
      ensures answer.Ran? && Capability.Privileged(confirmations.policy, call.write, canonical.value) ==> authorized
      ensures authorized ==>
        var claims := old(confirmations.pending)[call.confirmation.value];
        && Capability.Matches(call, claims)
        && confirmations.consumed ==
             Capability.Recorded(old(confirmations.consumed), claims, confirmations.self, course)
      ensures !answer.Ran? ==> executor.store.Files() == old(executor.store.Files())
      ensures answer.Ran? ==>
        var p := Place(call.write.project, canonical.value);
        executor.store.targets == if answer.result.Committed? then old(executor.store.targets)[p := call.write.content]
                                  else old(executor.store.targets)
      ensures answer.Ran? && answer.result.Committed? ==>
        Now(old(executor.store.Files()), Place(call.write.project, canonical.value)) == call.write.preimage
      ensures answer.Proposed? <==>
        && !authorized && call.write.project in confirmations.policy.held
        && call.write.path !in confirmations.policy.control
      ensures answer.Proposed? ==>
        answer.confirmation == proposal && Offers(confirmations, call.write, proposal, nonce, now)
    {
      var denial;
      denial, authorized, path := Authorize(call, canonical, now, course, proposal, nonce);
      if denial.Some? {
        return denial.value, authorized, path;
      }
      var p := Place(call.write.project, canonical.value);
      var result; ghost var settled;
      result, settled := executor.FsWrite(p, call.write.content, call.write.preimage, files, id, clock);
      answer := Ran(result);
    }
  }
}
