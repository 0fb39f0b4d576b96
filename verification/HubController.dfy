/** The controller as the service runs it: fields updated in place, with early exits. */
module HubController {
  import opened Wrappers
  import opened HubTrace
  import opened HubCore
  import HubAnswers
  import HubCleanup
  import HubSafety

  class Core {
    const devices: Devices
    var owners: map<Address, Owner>
    var unknown: Journal
    var inventory: set<Address>
    var fault: Option<string>
    ghost var trace: Trace

    ghost function View(): State
      reads this
    {
      State(devices, owners, unknown, inventory, fault, trace)
    }

    constructor (devices: Devices, journal: Journal, ghost past: Trace)
      requires ValidDevices(devices)
      ensures New(devices, Contents(journal), past) == Ok(View())
    {
      this.devices := devices;
      owners := map[];
      unknown := journal;
      inventory := {};
      fault := None;
      trace := Then(past, Started(journal));
    }

    method Persist(saving: Saving) returns (saved: bool)
      modifies this`trace
      ensures (View(), saved) == HubCore.Persist(old(View()), saving)
    {
      if saving.FailedBefore? {
        return false;
      }
      trace := Then(trace, Renamed(unknown));
      if saving.FailedAfter? {
        return false;
      }
      trace := Then(trace, Synced);
      return true;
    }

    method CheckOwner(session: string, a: Address) returns (code: Option<ErrorCode>)
      ensures code == HubCore.CheckOwner(View(), session, a)
    {
      if a !in owners {
        return Some(InvalidRequest);
      }
      if owners[a].session == session {
        return None;
      }
      return Some(ResourceInUse);
    }

    method Transfer<T>(ghost event: bool -> Event, outcome: Result<T, string>) returns (reply: Option<T>)
      modifies this`fault, this`trace
      ensures (View(), reply) == Drive(old(View()), event, outcome)
    {
      if fault.Some? {
        return None;
      }
      trace := Then(trace, event(outcome.Ok?));
      match outcome
      case Ok(value) =>
        return Some(value);
      case Err(e) =>
        fault := Some(e);
        return None;
    }

    method VerifyOff(a: Address, model: string, env: Environment) returns (off: bool)
      modifies this`trace
      ensures (View(), off) == HubCore.VerifyOff(old(View()), a, model, env)
    {
      trace := Then(trace, Verified(a, model, env.verify.Ok?));
      if env.verify.Err? {
        return false;
      }
      trace := Then(trace, Off(a, model, env.off.Ok?));
      return env.off.Ok?;
    }

    method Claim(session: string, app: string, a: Address, policy: Policy, env: Environment) returns (answer: Answer)
      modifies this
      ensures (View(), answer) == ServeClaim(old(View()), session, app, a, policy, env)
    {
      if !ValidAddress(a) {
        return Err(InvalidRequest);
      }
      if fault.Some? {
        return Err(ControllerFault);
      }
      if a in owners {
        var code := CheckOwner(session, a);
        if code.Some? {
          return Err(code.value);
        }
        return if owners[a].policy == policy then Ok(Empty) else Err(InvalidRequest);
      }
      if a !in devices || devices[a] != policy {
        return Err(InvalidRequest);
      }
      if a in unknown {
        return Err(StateUnknown);
      }
      trace := Then(trace, Prepared(env.prepare.Ok?));
      if env.prepare.Err? {
        fault := Some(env.prepare.error);
        return Err(ControllerFault);
      }
      if policy.Source? {
        if policy.model !in SUPPORTED_SOURCES {
          return Err(InvalidRequest);
        }
        var off := VerifyOff(a, policy.model, env);
        if !off {
          return Err(StateUnknown);
        }
        unknown := unknown[a := policy.model];
        var saved := Persist(env.saving);
        if !saved {
          return Err(StateUnknown);
        }
      }
      trace := Then(trace, Granted(a, session, policy.Source?));
      owners := owners[a := Owner(session, app, policy)];
      return Ok(Empty);
    }

    method Recover(a: Address, model: string, env: Environment) returns (answer: Answer)
      modifies this
      ensures (View(), answer) == ServeRecover(old(View()), a, model, env)
    {
      if !ValidAddress(a) {
        return Err(InvalidRequest);
      }
      if fault.Some? {
        return Err(ControllerFault);
      }
      if a in owners {
        return Err(ResourceInUse);
      }
      if a !in unknown || unknown[a] != model {
        return Err(InvalidRequest);
      }
      var off := VerifyOff(a, model, env);
      if !off {
        return Err(StateUnknown);
      }
      unknown := unknown - {a};
      var saved := Persist(env.saving);
      return if saved then Ok(Empty) else Err(StateUnknown);
    }

    method Release(a: Address, lost: bool, env: Environment) returns (failure: Option<ErrorCode>)
      modifies this
      ensures (View(), failure) == Relinquish(old(View()), a, lost, env)
      ensures old(HubSafety.Inv(View())) && a in old(owners) ==>
        a !in owners && HubCleanup.EndedAndQuieted(old(trace), trace, a, old(owners)[a], lost)
    {
      hide HubSafety.Inv, HubCleanup.EndedAndQuieted;
      if HubSafety.Inv(View()) && a in owners {
        HubSafety.RelinquishKeeps(View(), a, lost, env);
        HubCleanup.RelinquishQuiets(View(), a, lost, env);
      }
      if a !in owners {
        return None;
      }
      var owner := owners[a];
      trace := Then(trace, Ended(a, owner.session));
      owners := owners - {a};
      if owner.policy.Source? {
        if fault.Some? {
          return Some(ControllerFault);
        }
        trace := Then(trace, Off(a, owner.policy.model, env.off.Ok?));
        if env.off.Err? {
          return Some(StateUnknown);
        }
      } else if lost {
        var cleared := Transfer(ok => Cleanup(a, "CLEAR", ok), env.clear);
        if cleared.None? {
          return Some(ControllerFault);
        }
      }
      var left := Transfer(ok => Cleanup(a, "LOCAL", ok), env.local);
      if left.None? {
        return Some(ControllerFault);
      }
      if owner.policy.Source? {
        var before := unknown;
        unknown := unknown - {a};
        var saved := Persist(env.saving);
        if !saved {
          unknown := before;
          return Some(StateUnknown);
        }
      }
      return None;
    }

    method Leased(session: string) returns (addresses: seq<Address>)
      ensures addresses == LeasedTo(owners, session, 256)
    {
      addresses := [];
      for n := 0 to 256
        invariant addresses == LeasedTo(owners, session, n)
      {
        var a: Address := n;
        if a in owners && owners[a].session == session {
          addresses := addresses + [a];
        }
      }
    }

    method Disconnect(session: string, lost: bool, envs: Environments) returns (failed: bool)
      modifies this
      ensures (View(), failed) == HubCore.Disconnect(old(View()), session, lost, envs)
      ensures old(HubSafety.Inv(View())) ==>
        forall a | a in old(owners) && old(owners)[a].session == session ::
          a !in owners && HubCleanup.EndedAndQuieted(old(trace), trace, a, old(owners)[a], lost)
    {
      hide HubSafety.Inv, HubCleanup.EndedAndQuieted, Relinquish;
      if HubSafety.Inv(View()) {
        HubSafety.DisconnectEndsLeases(View(), session, lost, envs);
        HubCleanup.DisconnectQuiets(View(), session, lost, envs);
      }
      var addresses := Leased(session);
      failed := false;
      for i := 0 to |addresses|
        invariant var (t, later) := RelinquishAll(View(), addresses[i..], lost, envs);
          HubCore.Disconnect(old(View()), session, lost, envs) == (t, failed || later)
      {
        var failure := Release(addresses[i], lost, envs(addresses[i]));
        failed := failed || failure.Some?;
        assert addresses[i..][1..] == addresses[i + 1..];
      }
    }

    method ListBus(env: Environment) returns (answer: Answer)
      modifies this
      ensures (View(), answer) == ServeList(old(View()), env)
    {
      if fault.Some? {
        return Err(ControllerFault);
      }
      if |owners| == 0 {
        var found := Transfer(ok => Listed(ok), env.listing);
        if found.None? {
          return Err(ControllerFault);
        }
        inventory := set a | a in found.value && ValidAddress(a);
      }
      return Ok(Addresses(inventory + owners.Keys));
    }

    /** One request, carried out to its answer; the quarantine invariant survives it. */
    method Request(session: string, app: string, request: HubCore.Request, remainingMs: nat, envs: Environments)
      returns (answer: Answer)
      modifies this
      ensures (View(), answer) == Serve(old(View()), session, app, request, remainingMs, envs)
      ensures HubSafety.Inv(old(View())) ==> HubSafety.Inv(View())
      ensures HubSafety.Inv(old(View())) && answer.Ok? ==>
        HubAnswers.Effect(old(View()), View(), session, request, answer.value)
    {
      hide HubSafety.Inv, HubAnswers.Effect, HubCleanup.EndedAndQuieted, Relinquish;
      ghost var before := View();
      match request {
        case Status =>
          answer := Ok(Report(fault, map a | a in owners :: owners[a].app, unknown.Keys));
        case Claim(a, policy) =>
          answer := Claim(session, app, a, policy, envs(a));
        case Transfer(operation, a, timeoutMs, payload) =>
          answer := ClientTransfer(session, a, Message(operation, timeoutMs, payload), remainingMs, envs(a));
        case Release(a) =>
          if !ValidAddress(a) {
            answer := Err(InvalidRequest);
          } else {
            var code := CheckOwner(session, a);
            if code.Some? {
              answer := Err(code.value);
            } else {
              var failure := Release(a, false, envs(a));
              answer := if failure.None? then Ok(Empty) else Err(failure.value);
            }
          }
        case Close =>
          var failed := Disconnect(session, false, envs);
          answer := if failed then Err(StateUnknown) else Ok(Empty);
        case List =>
          answer := ListBus(envs(1));
        case Recover(a, model) =>
          answer := Recover(a, model, envs(a));
      }
      if HubSafety.Inv(before) {
        HubSafety.ServeKeeps(before, session, app, request, remainingMs, envs);
        if answer.Ok? {
          HubAnswers.OkHasItsEffect(before, session, app, request, remainingMs, envs);
        }
      }
    }

    method ClientTransfer(session: string, a: Address, m: Message, remainingMs: nat, env: Environment)
      returns (answer: Answer)
      modifies this
      ensures (View(), answer) == ServeTransfer(old(View()), session, a, m, remainingMs, env)
    {
      if !ValidAddress(a) {
        return Err(InvalidRequest);
      }
      var code := CheckOwner(session, a);
      if code.Some? {
        return Err(code.value);
      }
      if remainingMs < 1 {
        return Err(Deadline);
      }
      if !ClientOperation(m.operation) || |m.payload| > MAX_PAYLOAD || !(1 <= m.timeoutMs <= 30000) {
        return Err(InvalidRequest);
      }
      var source := owners[a].policy.Source?;
      var sent := m.(timeoutMs := Least(remainingMs, m.timeoutMs));
      var reply := Transfer(ok => Client(a, session, source, sent, ok), env.transfer);
      return if reply.Some? then Ok(Text(reply.value)) else Err(ControllerFault);
    }
  }
}
