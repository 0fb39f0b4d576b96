/** The application's end of a connection: one request at a time, never retried. */
module HubClient {
  import opened Wrappers
  import opened HubCore
  import opened Server

  const LAST_ID := 0xFFFF_FFFF_FFFF_FFFF

  datatype ClientState = ClientState(open: bool, nonce: string, nextId: nat)

  /** Errors after which the transport may hold a stale reply. */
  predicate Fatal(code: ErrorCode) {
    code.ControllerFault? || code.ConnectionLost? || code.IncompatibleVersion?
  }

  function Max(a: nat, b: nat): nat {
    if a > b then a else b
  }

  /**
   One request: what is sent, if anything, and what the caller is told.
   `exchange` is the outcome of writing the frame and reading one reply.
   */
  function Exchange(c: ClientState, request: Request, timeoutUs: nat, exchange: Result<Reply, ErrorCode>)
    : (ClientState, Option<Envelope>, Answer)
  {
    if timeoutUs == 0 || timeoutUs > 30_000_000 || !ValidRequest(request) then (c, None, Err(InvalidRequest))
    else if c.nextId >= LAST_ID then (c, None, Err(Internal))
    else
      var c1 := c.(nextId := c.nextId + 1);
      if !c.open then (c1, None, Err(ConnectionLost))
      else
        var sent := Envelope(c.nextId, Max(1, timeoutUs / 1000), c.nonce, request);
        match exchange
        case Err(code) => (c1.(open := false), Some(sent), Err(code))
        case Ok(reply) =>
          if reply.id != sent.id then (c1.(open := false), Some(sent), Err(ConnectionLost))
          else if !ValidNonce(reply.nonce) then (c1.(open := false), Some(sent), Err(InvalidRequest))
          else
            (c1.(nonce := reply.nonce, open := !(reply.answer.Err? && Fatal(reply.answer.error))),
             Some(sent), reply.answer)
  }

  /**
   A call sends a frame exactly when its deadline is sensible, its request well formed, an id left and the
   transport open. The frame carries the very request, the next id and the last nonce disclosed, and a deadline
   in whole milliseconds of 1 to 30000. The caller is told Ok only what a reply under that id says.
   */
  lemma ExchangeMeans(c: ClientState, request: Request, timeoutUs: nat, exchange: Result<Reply, ErrorCode>)
    ensures var (t, sent, answer) := Exchange(c, request, timeoutUs, exchange);
      && (sent.Some? <==>
            1 <= timeoutUs <= 30_000_000 && ValidRequest(request) && c.nextId < 0xFFFF_FFFF_FFFF_FFFF && c.open)
      && (sent.Some? ==>
            && sent.value.request == request && sent.value.id == c.nextId && sent.value.nonce == c.nonce
            && 1 <= sent.value.timeoutMs <= 30000
            && (timeoutUs >= 1000 ==> sent.value.timeoutMs * 1000 <= timeoutUs < (sent.value.timeoutMs + 1) * 1000)
            && t.nextId == c.nextId + 1)
      && (answer.Ok? <==> sent.Some? && exchange.Ok? && exchange.value.id == c.nextId
                          && ValidNonce(exchange.value.nonce) && exchange.value.answer.Ok?)
      && (answer.Ok? ==> answer == exchange.value.answer && t.open && t.nonce == exchange.value.nonce)
  {
  }

  /**
   The transport stays open exactly over a well-formed reply of that very id that reports no fatal error; once
   closed, it stays closed and nothing more is sent.
   */
  lemma TransportCloses(c: ClientState, request: Request, timeoutUs: nat, exchange: Result<Reply, ErrorCode>)
    ensures var (t, sent, answer) := Exchange(c, request, timeoutUs, exchange);
      if sent.None? then t.open == c.open && answer.Err?
      else t.open <==>
        exchange.Ok? && exchange.value.id == c.nextId && ValidNonce(exchange.value.nonce)
        && (exchange.value.answer.Err? ==>
              exchange.value.answer.error !in {ControllerFault, ConnectionLost, IncompatibleVersion})
  {
  }

  class Client {
    var open: bool
    var nonce: string
    var nextId: nat

    ghost function View(): ClientState
      reads this
    {
      ClientState(open, nonce, nextId)
    }

    constructor (firstNonce: string)
      requires ValidNonce(firstNonce)
      ensures View() == ClientState(true, firstNonce, 1)
    {
      open, nonce, nextId := true, firstNonce, 1;
    }

    method Request(request: HubCore.Request, timeoutUs: nat, exchange: Result<Reply, ErrorCode>)
      returns (sent: Option<Envelope>, answer: Answer)
      modifies this
      ensures (View(), sent, answer) == Exchange(old(View()), request, timeoutUs, exchange)
    {
      sent := None;
      if timeoutUs == 0 || timeoutUs > 30_000_000 || !ValidRequest(request) {
        return None, Err(InvalidRequest);
      }
      if nextId >= LAST_ID {
        return None, Err(Internal);
      }
      var id := nextId;
      nextId := nextId + 1;
      if !open {
        return None, Err(ConnectionLost);
      }
      sent := Some(Envelope(id, Max(1, timeoutUs / 1000), nonce, request));
      if exchange.Err? {
        open := false;
        return sent, Err(exchange.error);
      }
      var reply := exchange.value;
      if reply.id != id {
        open := false;
        return sent, Err(ConnectionLost);
      }
      if !ValidNonce(reply.nonce) {
        open := false;
        return sent, Err(InvalidRequest);
      }
      nonce := reply.nonce;
      if reply.answer.Err? && Fatal(reply.answer.error) {
        open := false;
      }
      answer := reply.answer;
    }
  }

  datatype Call = Call(request: Request, timeoutUs: nat, exchange: Result<Reply, ErrorCode>)

  /** The envelopes a client sends over a series of calls. */
  function Sent(c: ClientState, calls: seq<Call>): seq<Envelope>
    decreases |calls|
  {
    if calls == [] then []
    else
      var (c1, sent, _) := Exchange(c, calls[0].request, calls[0].timeoutUs, calls[0].exchange);
      (if sent.Some? then [sent.value] else []) + Sent(c1, calls[1..])
  }

  lemma {:induction false} SentFromNextId(c: ClientState, calls: seq<Call>)
    ensures forall i | 0 <= i < |Sent(c, calls)| :: Sent(c, calls)[i].id >= c.nextId
    ensures !c.open ==> Sent(c, calls) == []
    decreases |calls|
  {
    if calls != [] {
      SentFromNextId(Exchange(c, calls[0].request, calls[0].timeoutUs, calls[0].exchange).0, calls[1..]);
    }
  }

  /** Request ids are never reused, and every frame sent is one the server's reader accepts as well formed. */
  lemma {:induction false} SentIdsIncrease(c: ClientState, calls: seq<Call>)
    requires c.open ==> ValidNonce(c.nonce)
    ensures forall i, j | 0 <= i < j < |Sent(c, calls)| :: Sent(c, calls)[i].id < Sent(c, calls)[j].id
    ensures forall i | 0 <= i < |Sent(c, calls)| :: ValidEnvelope(Sent(c, calls)[i])
    decreases |calls|
  {
    if calls != [] {
      var (c1, sent, _) := Exchange(c, calls[0].request, calls[0].timeoutUs, calls[0].exchange);
      SentFromNextId(c1, calls[1..]);
      SentIdsIncrease(c1, calls[1..]);
    }
  }
}
