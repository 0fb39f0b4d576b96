/** The server's threads as they run: the worker's loop body, and one connection's reader and writer. */
module ServerWorker {
  import opened Wrappers
  import opened HubTrace
  import opened HubCore
  import HubAnswers
  import HubSafety
  import HubController
  import opened Server
  import opened ServerSafety

  class Worker {
    const core: HubController.Core
    var sessions: map<string, string>
    var pending: seq<Queued>

    ghost function View(): Work
      reads this, core
    {
      Work(core.View(), sessions, pending)
    }

    constructor (core: HubController.Core)
      ensures this.core == core && View() == Work(core.View(), map[], [])
    {
      this.core := core;
      sessions := map[];
      pending := [];
    }

    /** Sessions found dead lose their leases before anything else is dispatched. */
    method DropLost(lost: seq<string>, envs: Environments)
      requires Leases(View())
      modifies this, core
      ensures View() == DropSessions(old(View()), lost, envs)
      ensures Leases(View()) && pending == old(pending)
      ensures sessions == old(sessions) - (set s | s in lost)
      ensures forall a | a in core.owners :: core.owners[a].session !in lost
    {
      hide HubSafety.Inv, HubCore.Disconnect;
      for i := 0 to |lost|
        invariant DropSessions(old(View()), lost, envs) == DropSessions(View(), lost[i..], envs)
        invariant Leases(View()) && pending == old(pending)
        invariant sessions == old(sessions) - (set s | s in lost[..i])
      {
        HubSafety.DisconnectEndsLeases(core.View(), lost[i], true, envs);
        var _ := core.Disconnect(lost[i], true, envs);
        sessions := sessions - {lost[i]};
        assert lost[i..][1..] == lost[i + 1..];
        assert lost[..i + 1] == lost[..i] + [lost[i]];
      }
      assert lost[..|lost|] == lost;
    }

    /** Move events from the inbox while there is room. */
    method Admit(inbox: seq<Queued>) returns (rest: seq<Queued>)
      requires |pending| <= CAPACITY
      modifies this`pending
      ensures pending + rest == old(pending) + inbox
      ensures |pending| <= CAPACITY && (rest == [] || |pending| == CAPACITY)
    {
      rest := inbox;
      while |pending| < CAPACITY && rest != []
        invariant pending + rest == old(pending) + inbox && |pending| <= CAPACITY
        decreases |rest|
      {
        pending := pending + [rest[0]];
        rest := rest[1..];
      }
    }

    method Position() returns (k: nat)
      ensures k == FirstUrgent(sessions, pending)
    {
      k := 0;
      while k < |pending|
        invariant k <= |pending| && FirstUrgent(sessions, pending) == k + FirstUrgent(sessions, pending[k..])
      {
        if Urgent(sessions, pending[k]) {
          return;
        }
        assert pending[k..][1..] == pending[k + 1..];
        k := k + 1;
      }
    }

    method Dispatch(alive: set<string>, expired: bool, remainingMs: nat, envs: Environments)
      returns (answer: Option<Answer>)
      requires pending != []
      modifies this, core
      ensures (View(), answer) == Handle(old(View()), alive, expired, remainingMs, envs)
      ensures old(HubSafety.Inv(core.View())) && answer.Some? && answer.value.Ok? ==>
        exists e :: e in old(pending) && e.Command? && e.session in old(sessions) && e.session in alive && !expired
          && HubAnswers.Effect(old(core.View()), core.View(), e.session, e.envelope.request, answer.value.value)
    {
      hide HubSafety.Inv, HubAnswers.Effect;
      var k := Position();
      if k == |pending| {
        k := 0;
      }
      var e := pending[k];
      pending := Without(pending, k);
      match e
      case Register(session, app, _) =>
        sessions := sessions[session := app];
        answer := None;
      case Command(session, envelope, _) =>
        if session !in sessions {
          answer := Some(Err(ConnectionLost));
        } else if session !in alive {
          answer := Some(Err(Cancelled));
        } else if expired {
          answer := Some(Err(Deadline));
        } else {
          var result := core.Request(session, sessions[session], envelope.request, remainingMs, envs);
          answer := Some(result);
        }
    }

    /** The shutdown loop over every registered session, in any order. */
    method Shutdown(order: seq<string>, envs: string -> Environments)
      requires Leases(View()) && sessions.Keys == set s | s in order
      modifies core
      ensures core.View() == DisconnectAll(old(core.View()), order, envs)
      ensures HubSafety.Inv(core.View()) && core.owners == map[]
    {
      ghost var before := core.View();
      ShutdownLeavesNoOwner(before, order, envs);
      for i := 0 to |order|
        invariant DisconnectAll(before, order, envs) == DisconnectAll(core.View(), order[i..], envs)
      {
        var _ := core.Disconnect(order[i], true, envs(order[i]));
        assert order[i..][1..] == order[i + 1..];
      }
    }
  }

  /** The state one connection's reader and writer threads share. */
  class Turnstile {
    var alive: bool
    var turn: Option<string>
    var lastId: nat
    var hand: Option<Envelope>
    var slot: Option<Reply>

    ghost function View(): Connection
      reads this
    {
      Connection(alive, turn, hand, slot, lastId)
    }

    constructor (firstNonce: string)
      ensures View() == Connection(true, Some(firstNonce), None, None, 0)
    {
      alive, turn, lastId, hand, slot := true, Some(firstNonce), 0, None, None;
    }

    method Read(e: Envelope)
      requires alive
      modifies this
      ensures View() == TakeTurn(old(View()), e)
    {
      if !ValidEnvelope(e) || e.id <= lastId {
        alive := false;
        return;
      }
      if turn != Some(e.nonce) {
        alive := false;
        return;
      }
      turn := None;
      lastId := e.id;
      hand := Some(e);
    }

    method Write(nonce: string, written: bool) returns (reply: Reply)
      requires slot.Some?
      modifies this
      ensures View() == GiveTurn(old(View()), nonce, written)
      ensures reply == old(slot).value.(nonce := nonce)
    {
      reply := slot.value.(nonce := nonce);
      slot := None;
      turn := Some(nonce);
      if !written {
        alive := false;
      }
    }
  }
}
