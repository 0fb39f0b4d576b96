/**
 The observable history of the shared GPIB service: what reached the bus, what
 reached the journal, and when leases began and ended. The service keeps no
 such record; it is the vocabulary in which its guarantees are stated.
 */
module HubTrace {
  import opened Wrappers

  type Address = n: int | 0 <= n < 256

  /** The quarantine journal: unverified source addresses and their models. */
  type Journal = map<Address, string>

  /** What a client has put on the bus. */
  datatype Message = Message(operation: string, timeoutMs: nat, payload: seq<char>)

  datatype Event =
    | Prepared(ok: bool)
    | Verified(address: Address, model: string, ok: bool)
    | Off(address: Address, model: string, ok: bool)
    | Client(address: Address, session: string, source: bool, message: Message, ok: bool)
    | Cleanup(address: Address, operation: string, ok: bool)
    | Listed(ok: bool)
    | Granted(address: Address, session: string, source: bool)
    | Ended(address: Address, session: string)
    | Renamed(contents: Journal)
    | Synced
    | Started(contents: Journal)

  /** Newest event last, so every function below unfolds one event at a time. */
  datatype Trace = Nil | Then(past: Trace, event: Event)

  ghost predicate Prefix(p: Trace, t: Trace) {
    p == t || (t.Then? && Prefix(p, t.past))
  }

  /** The session whose claim interval on `a` is open. */
  ghost function Holder(t: Trace, a: Address): Option<string> {
    match t
    case Nil => None
    case Then(past, Granted(b, s, _)) => if b == a then Some(s) else Holder(past, a)
    case Then(past, Ended(b, _)) => if b == a then None else Holder(past, a)
    case Then(past, Started(_)) => None
    case Then(past, _) => Holder(past, a)
  }

  /** A bus operation of this process run has failed. */
  ghost predicate Faulted(t: Trace) {
    match t
    case Nil => false
    case Then(past, Started(_)) => false
    case Then(past, Prepared(ok)) => !ok || Faulted(past)
    case Then(past, Client(_, _, _, _, ok)) => !ok || Faulted(past)
    case Then(past, Cleanup(_, _, ok)) => !ok || Faulted(past)
    case Then(past, Listed(ok)) => !ok || Faulted(past)
    case Then(past, _) => Faulted(past)
  }

  /** Source `a` received a client transfer since its last verified OFF. */
  ghost predicate Dirty(t: Trace, a: Address) {
    match t
    case Nil => false
    case Then(past, Client(b, _, source, _, _)) => (b == a && source) || Dirty(past, a)
    case Then(past, Off(b, _, ok)) => !(b == a && ok) && Dirty(past, a)
    case Then(past, _) => Dirty(past, a)
  }

  /** OFF was verified on `a` by this process run and nothing touched it since. */
  ghost predicate FreshlyOff(t: Trace, a: Address) {
    match t
    case Nil => false
    case Then(past, Started(_)) => false
    case Then(past, Off(b, _, ok)) => if b == a then ok else FreshlyOff(past, a)
    case Then(past, Client(b, _, _, _, _)) => b != a && FreshlyOff(past, a)
    case Then(past, Cleanup(b, _, _)) => b != a && FreshlyOff(past, a)
    case Then(past, Verified(b, _, _)) => b != a && FreshlyOff(past, a)
    case Then(past, Granted(b, _, _)) => b != a && FreshlyOff(past, a)
    case Then(past, _) => FreshlyOff(past, a)
  }

  /**
   Every content a restart may find on disk. A rename whose directory was not
   synced may be lost with the power; only `Synced` retires the older contents.
   */
  ghost function Durable(t: Trace): set<Journal> {
    match t
    case Nil => {}
    case Then(past, Renamed(c)) => Durable(past) + {c}
    case Then(past, Synced) => {LastRenamed(past)}
    case Then(past, _) => Durable(past)
  }

  ghost function LastRenamed(t: Trace): Journal {
    match t
    case Nil => map[]
    case Then(past, Renamed(c)) => c
    case Then(past, _) => LastRenamed(past)
  }

  /** Whichever journal a restart finds, it names `a`, with one and the same model. */
  ghost predicate OnDisk(t: Trace, a: Address) {
    forall c, d :: c in Durable(t) && d in Durable(t) ==> a in c && a in d && c[a] == d[a]
  }

  /** What each event requires of the history before it. */
  ghost predicate Legal(past: Trace, e: Event) {
    match e
    case Client(a, s, _, _, _) => Holder(past, a) == Some(s) && !Faulted(past)
    case Granted(a, _, source) =>
      && Holder(past, a) == None && !Faulted(past)
      && (source ==> FreshlyOff(past, a) && OnDisk(past, a))
    case Ended(a, s) => Holder(past, a) == Some(s)
    case Listed(_) => (forall a: Address :: Holder(past, a) == None) && !Faulted(past)
    case Prepared(_) => !Faulted(past)
    case Verified(a, _, _) => Holder(past, a) == None && !Faulted(past)
    case Off(a, _, _) => Holder(past, a) == None && !Faulted(past)
    case Cleanup(a, _, _) => Holder(past, a) == None && !Faulted(past)
    case Renamed(_) => true
    case Synced => past.Then? && past.event.Renamed?
    case Started(c) => c in Durable(past)
  }

  ghost predicate AllLegal(t: Trace) {
    t.Then? ==> AllLegal(t.past) && Legal(t.past, t.event)
  }

  /** At no instant is a dirty source missing from a journal a restart may find. */
  ghost predicate CrashSafe(t: Trace) {
    && (t.Then? ==> CrashSafe(t.past))
    && forall a: Address :: Dirty(t, a) ==> OnDisk(t, a)
  }

  lemma {:induction false} PrefixKeeps(p: Trace, t: Trace)
    requires Prefix(p, t) && AllLegal(t) && CrashSafe(t)
    ensures AllLegal(p) && CrashSafe(p)
  {
    if p != t {
      PrefixKeeps(p, t.past);
    }
  }

  lemma {:induction false} PrefixTransitive(p: Trace, q: Trace, r: Trace)
    requires Prefix(p, q) && Prefix(q, r)
    ensures Prefix(p, r)
  {
    if q != r {
      PrefixTransitive(p, q, r.past);
    }
  }
}
