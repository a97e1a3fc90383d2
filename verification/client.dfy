/** Requests of the RPC client: matching responses, aborting, and losing the connection.

  The connection below the client is represented by what `RpcConnection` proves of it: an attempt made
  during the current task of the event loop cannot become connected within that task.  As there,
  `Callback(depth)` stands for any re-entrant use by a listener, an abort handler or the transport, and
  `Callback(0)` does nothing.
 */
module RpcClient {
  import opened Wrappers

  datatype Link = Disconnected | Connecting | Connected

  datatype Outcome = Unsettled | Succeeded(result: int) | Failed

  /** What became of a request on the wire; `Unencodable` requests were never sent. */
  datatype Answer = NoAnswer | Unencodable | Answered(ok: bool, result: int)

  /** `called` and `cancelled` say that the transport was given the request and its cancel. */
  datatype Request = Tracked(
    epoch: nat, cancellable: bool, aborted: bool, sent: bool, called: bool, cancelled: bool,
    answer: Answer, outcome: Outcome)

  datatype Frame = Call(id: nat, epoch: nat) | Cancel(id: nat, epoch: nat)

  datatype Snapshot = Snapshot(
    link: Link, epoch: nat, disposed: bool, sequence: nat, pending: set<nat>, requests: map<nat, Request>,
    wire: seq<Frame>, taskStart: nat, draining: nat, answering: set<nat>)

  /** A request stays what it is; its answer and its outcome, once known, do not change. */
  predicate Advances(a: Request, b: Request) {
    && b.epoch == a.epoch && b.cancellable == a.cancellable && b.sent == a.sent && b.called == a.called
    && (a.aborted ==> b.aborted) && (a.cancelled ==> b.cancelled)
    && (!a.answer.NoAnswer? ==> b.answer == a.answer)
    && (!a.outcome.Unsettled? ==> b.outcome == a.outcome)
  }

  ghost predicate RequestsAdvance(a: map<nat, Request>, b: map<nat, Request>) {
    forall id | id in a :: id in b && Advances(a[id], b[id])
  }

  /** What one synchronous piece of work, with everything it re-enters, can do to the state. */
  ghost predicate Evolves(a: Snapshot, b: Snapshot) {
    && a.taskStart == b.taskStart
    && a.taskStart <= a.epoch <= b.epoch && a.sequence <= b.sequence && (a.disposed ==> b.disposed)
    && a.wire <= b.wire
    && RequestsAdvance(a.requests, b.requests)
    && (b.link.Connected? ==> b.epoch <= b.taskStart)
    && (a.link.Disconnected? && b.epoch == a.epoch ==> b.link.Disconnected?)
  }

  lemma EvolvesTransitively(a: Snapshot, b: Snapshot, c: Snapshot)
    requires Evolves(a, b) && Evolves(b, c)
    ensures Evolves(a, c)
  {
  }

  lemma StaysConsistent(s: Snapshot)
    requires Sound(s)
    ensures Evolves(s, s)
    ensures !s.link.Connected? ==> Consistent(s)
  {
  }

  /** The same, at the point where the work returns to the frame that called it. */
  ghost predicate Returns(a: Snapshot, b: Snapshot) {
    Evolves(a, b) && a.draining == b.draining && a.answering == b.answering && a.epoch <= b.epoch
  }

  /** No frame is sent twice, and a cancel follows its request on the same connection. */
  ghost predicate WireOrdered(wire: seq<Frame>) {
    wire == [] ||
    var last := |wire| - 1;
    && WireOrdered(wire[..last])
    && wire[last] !in wire[..last]
    && (wire[last].Cancel? ==> Call(wire[last].id, wire[last].epoch) in wire[..last])
  }

  /** The wire holds the frames that the requests say were sent, each for its request's own connection. */
  ghost predicate WireMatches(wire: seq<Frame>, requests: map<nat, Request>) {
    && (forall f | f in wire ::
          && f.id in requests && f.epoch == requests[f.id].epoch
          && (if f.Call? then requests[f.id].called else requests[f.id].cancelled))
    && (forall id | id in requests && requests[id].called :: Call(id, requests[id].epoch) in wire)
    && (forall id | id in requests && requests[id].cancelled :: Cancel(id, requests[id].epoch) in wire)
  }

  ghost predicate WireOk(wire: seq<Frame>, requests: map<nat, Request>) {
    WireOrdered(wire) && WireMatches(wire, requests)
  }

  lemma {:induction false} WireOrder(wire: seq<Frame>, i: nat, j: nat)
    requires WireOrdered(wire) && i < j < |wire|
    ensures wire[i] != wire[j]
    ensures wire[j].Cancel? ==> Call(wire[j].id, wire[j].epoch) in wire[..j]
  {
    var last := |wire| - 1;
    if j < last {
      WireOrder(wire[..last], i, j);
      assert wire[..last][..j] == wire[..j];
    }
  }

  lemma WireAppended(wire: seq<Frame>, f: Frame)
    requires WireOrdered(wire) && f !in wire
    requires f.Cancel? ==> Call(f.id, f.epoch) in wire
    ensures WireOrdered(wire + [f])
  {
    assert (wire + [f])[..|wire|] == wire;
  }

  lemma WireKept(wire: seq<Frame>, a: map<nat, Request>, b: map<nat, Request>)
    requires WireOk(wire, a)
    requires RequestsAdvance(a, b)
    requires forall id | id in b :: if id in a then b[id].cancelled == a[id].cancelled else !b[id].called && !b[id].cancelled
    ensures WireOk(wire, b)
  {
  }

  lemma CallSent(wire: seq<Frame>, a: map<nat, Request>, id: nat, request: Request)
    requires WireOk(wire, a) && id !in a && request.called && !request.cancelled
    ensures WireOk(wire + [Call(id, request.epoch)], a[id := request])
  {
    WireAppended(wire, Call(id, request.epoch));
  }

  lemma CancelSent(wire: seq<Frame>, a: map<nat, Request>, id: nat)
    requires WireOk(wire, a) && id in a && a[id].called && !a[id].cancelled
    ensures WireOk(wire + [Cancel(id, a[id].epoch)], a[id := a[id].(cancelled := true)])
  {
    WireAppended(wire, Cancel(id, a[id].epoch));
  }

  predicate RequestOk(r: Request) {
    && (r.outcome.Succeeded? ==> r.answer == Answered(true, r.outcome.result) && !r.aborted)
    && (r.aborted ==> r.cancellable && !r.outcome.Unsettled?)
    && (r.cancelled ==> r.aborted && r.sent)
    && (r.sent ==> r.called)
    && (r.answer.Unencodable? ==> !r.called && !r.outcome.Succeeded?)
  }

  predicate PendingKnown(s: Snapshot) {
    forall id | id in s.pending :: id in s.requests
  }

  /** The requests that the current connection has not answered. */
  ghost predicate Unanswered(s: Snapshot, id: nat) {
    id in s.requests && s.requests[id].epoch == s.epoch && s.requests[id].answer.NoAnswer?
  }

  /** The pending map against the connection; `draining` frames are still about to reject what is left. */
  ghost predicate PendingOk(s: Snapshot) {
    && (s.link.Connected? ==> s.epoch <= s.taskStart && forall id: nat :: id in s.pending <==> Unanswered(s, id))
    && (s.link.Disconnected? && s.draining == 0 ==> s.pending == {})
    && (s.link.Connecting? && (s.draining == 0 || s.epoch <= s.taskStart) ==> s.pending == {})
    && (s.link.Connecting? ==> forall id | id in s.requests :: s.requests[id].epoch < s.epoch)
  }

  /** A sent request that has been aborted has been cancelled too, unless its connection is gone. */
  ghost predicate CancelOk(s: Snapshot, id: nat) {
    (id in s.requests && Uncancelled(s.requests[id]) && s.requests[id].epoch == s.epoch) ==> !s.link.Connected?
  }

  predicate Uncancelled(r: Request) {
    r.aborted && r.sent && !r.cancelled
  }

  ghost predicate Consistent(s: Snapshot) {
    Sound(s) && forall id: nat :: CancelOk(s, id)
  }

  /** The state in which a frame on the stack is about to cancel request `id`. */
  ghost predicate Owes(s: Snapshot, id: nat) {
    Sound(s) && forall other: nat | other != id :: CancelOk(s, other)
  }

  ghost predicate Sound(s: Snapshot) {
    && s.taskStart <= s.epoch
    // a disposed client is disconnected, and `connect` refuses it
    && (s.disposed ==> s.link.Disconnected?)
    && PendingOk(s)
    && (forall id: nat :: id in s.requests <==> 1 <= id <= s.sequence)
    && (forall id | id in s.requests :: RequestOk(s.requests[id]) && s.requests[id].epoch <= s.epoch)
    && (forall id | id in s.pending :: id in s.requests && s.requests[id].answer.NoAnswer?)
    && (forall id | id in s.answering :: id in s.requests && !s.requests[id].answer.NoAnswer?)
    // no promise is forgotten
    && (forall id | id in s.requests && s.requests[id].outcome.Unsettled? :: id in s.pending || id in s.answering)
    && WireOk(s.wire, s.requests)
  }

  lemma CancelsKept(s: Snapshot, t: Snapshot, but: int)
    requires forall id: nat | id != but :: CancelOk(s, id)
    requires t.link == s.link && t.epoch == s.epoch
    requires forall id: nat | id != but && id in t.requests && Uncancelled(t.requests[id]) ::
               id in s.requests && Uncancelled(s.requests[id]) && s.requests[id].epoch == t.requests[id].epoch
    ensures forall id: nat | id != but :: CancelOk(t, id)
  {
    forall id: nat | id != but ensures CancelOk(t, id) {
      assert CancelOk(s, id);
    }
  }

  function Reject(r: Request): Request {
    if r.outcome.Unsettled? then r.(outcome := Failed) else r
  }

  function RejectAll(requests: map<nat, Request>, ids: set<nat>): map<nat, Request> {
    map id | id in requests :: if id in ids then Reject(requests[id]) else requests[id]
  }

  /** `#rejectPendingRequests` on values. */
  function Drained(s: Snapshot): Snapshot {
    s.(pending := {}, requests := RejectAll(s.requests, s.pending))
  }

  lemma ConsistentIsSound(s: Snapshot)
    requires Consistent(s)
    ensures Sound(s) && Evolves(s, s) && (s.disposed ==> s.link.Disconnected?)
  {
  }

  lemma DrainedIsConsistent(s: Snapshot)
    requires Sound(s) && !s.link.Connected?
    ensures forall draining: nat :: Consistent(Drained(s).(draining := draining))
    ensures Evolves(s, Drained(s)) && PendingKnown(s)
  {
    hide WireOk;
    WireKept(s.wire, s.requests, RejectAll(s.requests, s.pending));
  }

  lemma LostIsConsistent(s: Snapshot)
    requires Sound(s)
    ensures Consistent(s.(link := Disconnected, draining := s.draining + 1)) && PendingKnown(s)
    ensures Evolves(s, s.(link := Disconnected))
  {
    hide WireOk;
  }

  /** The state in which a request's frame is in the transport's hands. */
  function Requested(s: Snapshot, cancellable: bool): Snapshot {
    var id := s.sequence + 1;
    s.(sequence := id, pending := s.pending + {id}, wire := s.wire + [Call(id, s.epoch)],
       requests := s.requests[id := Tracked(s.epoch, cancellable, false, false, true, false, NoAnswer, Unsettled)])
  }

  lemma RequestedIsConsistent(s: Snapshot, cancellable: bool)
    requires Consistent(s) && s.link.Connected?
    ensures Consistent(Requested(s, cancellable)) && Evolves(s, Requested(s, cancellable))
  {
    hide WireOk;
    var t := Requested(s, cancellable);
    assert t.sequence !in s.requests;
    CallSent(s.wire, s.requests, t.sequence, t.requests[t.sequence]);
    CancelsKept(s, t, -1);
  }

  function Unencoded(s: Snapshot, cancellable: bool): Snapshot {
    var id := s.sequence + 1;
    s.(sequence := id,
       requests := s.requests[id := Tracked(s.epoch, cancellable, false, false, false, false, Unencodable, Failed)])
  }

  lemma UnencodedIsConsistent(s: Snapshot, cancellable: bool)
    requires Consistent(s) && s.link.Connected?
    ensures Consistent(Unencoded(s, cancellable)) && Evolves(s, Unencoded(s, cancellable))
  {
    hide WireOk;
    WireKept(s.wire, s.requests, Unencoded(s, cancellable).requests);
    CancelsKept(s, Unencoded(s, cancellable), -1);
    assert s.sequence + 1 !in s.requests;
  }

  /** `sent` becomes true when the transport's `send` has returned. */
  function Sent(s: Snapshot, id: nat): Snapshot
    requires id in s.requests
  {
    s.(requests := s.requests[id := s.requests[id].(sent := true)])
  }

  lemma SentKeepsWire(s: Snapshot, id: nat)
    requires WireOk(s.wire, s.requests) && id in s.requests
    ensures WireOk(s.wire, Sent(s, id).requests)
  {
  }

  lemma SentIsConsistent(s: Snapshot, id: nat)
    requires Consistent(s) && id in s.requests && s.requests[id].called
    ensures Owes(Sent(s, id), id) && (!s.requests[id].aborted ==> Consistent(Sent(s, id)))
  {
    hide WireOk;
    SentKeepsWire(s, id);
    CancelsKept(s, Sent(s, id), if s.requests[id].aborted then id else -1);
  }

  function Aborted(s: Snapshot, id: nat): Snapshot
    requires id in s.requests
  {
    s.(requests := s.requests[id := Reject(s.requests[id]).(aborted := true)])
  }

  /** The abort listener of a request is there until the request is answered or aborted. */
  predicate Listening(s: Snapshot, id: nat) {
    id in s.pending && id in s.requests && s.requests[id].cancellable && !s.requests[id].aborted
  }

  lemma AbortedIsConsistent(s: Snapshot, id: nat)
    requires Consistent(s) && id in s.pending && s.requests[id].cancellable && !s.requests[id].aborted
    ensures Owes(Aborted(s, id), id) && Evolves(s, Aborted(s, id))
  {
    hide WireOk;
    WireKept(s.wire, s.requests, Aborted(s, id).requests);
    CancelsKept(s, Aborted(s, id), id);
  }

  function Cancelled(s: Snapshot, id: nat): Snapshot
    requires id in s.requests
  {
    s.(requests := s.requests[id := s.requests[id].(cancelled := true)], wire := s.wire + [Cancel(id, s.epoch)])
  }

  lemma CancelledIsConsistent(s: Snapshot, id: nat)
    requires Owes(s, id) && id in s.requests && s.requests[id].epoch == s.epoch
    requires s.requests[id].aborted && s.requests[id].sent && !s.requests[id].cancelled
    ensures Consistent(Cancelled(s, id)) && Evolves(s, Cancelled(s, id))
  {
    hide WireOk;
    CancelSent(s.wire, s.requests, id);
    CancelsKept(s, Cancelled(s, id), id);
  }

  /** A response has been matched; its promise is settled by the frame that put it in `answering`. */
  function Matched(s: Snapshot, id: nat, ok: bool, result: int): Snapshot
    requires id in s.requests
  {
    s.(pending := s.pending - {id}, answering := s.answering + {id},
       requests := s.requests[id := s.requests[id].(answer := Answered(ok, result))])
  }

  lemma MatchedIsConsistent(s: Snapshot, id: nat, ok: bool, result: int)
    requires Consistent(s) && id in s.pending
    ensures id in s.requests && Consistent(Matched(s, id, ok, result))
    ensures Evolves(s, Matched(s, id, ok, result).(answering := s.answering))
  {
    hide WireOk;
    WireKept(s.wire, s.requests, Matched(s, id, ok, result).requests);
    CancelsKept(s, Matched(s, id, ok, result), -1);
  }

  /** The promise of an answered request is settled, unless an abort has settled it before. */
  function Concluded(s: Snapshot, id: nat, outcome: Outcome, answering: set<nat>): Snapshot
    requires id in s.requests
  {
    var r := s.requests[id];
    s.(answering := answering,
       requests := s.requests[id := if r.outcome.Unsettled? then r.(outcome := outcome) else r])
  }

  lemma ConcludedIsConsistent(s: Snapshot, id: nat, outcome: Outcome, answering: set<nat>)
    requires Consistent(s) && id in s.requests && s.answering == answering + {id} && !outcome.Unsettled?
    requires outcome.Succeeded? ==> s.requests[id].answer == Answered(true, outcome.result)
    ensures Consistent(Concluded(s, id, outcome, answering))
    ensures Evolves(s, Concluded(s, id, outcome, answering))
  {
    hide WireOk;
    WireKept(s.wire, s.requests, Concluded(s, id, outcome, answering).requests);
    CancelsKept(s, Concluded(s, id, outcome, answering), -1);
  }

  lemma EvolvesPastSent(a: Snapshot, b: Snapshot, id: nat)
    requires Evolves(a, b) && id in b.requests && id !in a.requests
    ensures Evolves(a, Sent(b, id))
  {
  }

  lemma DisposedIsConsistent(s: Snapshot)
    requires Consistent(s)
    ensures var t := Drained(s).(link := Disconnected, disposed := true);
            Consistent(t.(draining := s.draining + 1)) && Evolves(s, t)
    ensures s.link.Disconnected? ==> Consistent(Drained(s).(disposed := true))
    ensures PendingKnown(s) && LostIn(s, Drained(s).(link := Disconnected))
  {
    hide WireOk;
    var lost := s.(link := Disconnected, draining := s.draining + 1);
    LostIsConsistent(s);
    DrainedIsConsistent(lost);
    assert Evolves(s, Drained(lost)) by {
      EvolvesTransitively(s, lost, Drained(lost));
    }
    if s.link.Disconnected? {
      DrainedIsConsistent(s);
    }
  }

  lemma HelloIsConsistent(s: Snapshot)
    requires Consistent(s) && s.link.Connecting? && s.epoch <= s.taskStart
    ensures Consistent(s.(link := Connected)) && Evolves(s, s.(link := Connected))
  {
  }

  lemma ConnectingIsConsistent(s: Snapshot)
    requires Consistent(s) && s.link.Disconnected? && !s.disposed
    ensures Consistent(s.(link := Connecting, epoch := s.epoch + 1))
    ensures Evolves(s, s.(link := Connecting, epoch := s.epoch + 1))
  {
  }

  lemma IgnoresDraining(a: Snapshot, b: Snapshot, draining: nat)
    requires Evolves(a, b)
    ensures Evolves(a.(draining := draining), b.(draining := draining))
  {
  }

  /** Not connected, and not to become connected in the current task. */
  predicate Down(s: Snapshot) {
    s.link.Disconnected? || (s.link.Connecting? && s.taskStart < s.epoch)
  }

  lemma DownStays(a: Snapshot, b: Snapshot)
    requires Down(a) && Evolves(a, b)
    ensures Down(b)
  {
  }

  /** The connection is gone, and with it everything that was waiting for it. */
  ghost predicate LostIn(a: Snapshot, b: Snapshot) {
    Down(b) && forall id | id in a.pending :: id in b.requests && !b.requests[id].outcome.Unsettled?
  }

  lemma LostStays(a: Snapshot, b: Snapshot, c: Snapshot)
    requires LostIn(a, b) && Evolves(b, c)
    ensures LostIn(a, c)
  {
    DownStays(b, c);
  }

  /** Rejecting what is pending now settles also what was pending when the listeners were first told. */
  lemma DrainedLoses(a: Snapshot, b: Snapshot)
    requires Consistent(a) && Consistent(b) && Down(a) && Returns(a, b)
    ensures LostIn(a, Drained(b))
  {
    hide WireOk;
    DownStays(a, b);
  }

  /** What is known of a request when the transport's `send` returns. */
  lemma RequestReturned(s: Snapshot, cancellable: bool, t: Snapshot)
    requires Consistent(s) && s.link.Connected? && Consistent(t) && Evolves(Requested(s, cancellable), t)
    ensures var id := s.sequence + 1;
            id in t.requests && t.requests[id].called && !t.requests[id].cancelled &&
            t.requests[id].epoch == s.epoch && t.requests[id].cancellable == cancellable &&
            (t.link.Connected? ==> t.epoch == s.epoch) &&
            Owes(Sent(t, id), id) && (!t.requests[id].aborted ==> Consistent(Sent(t, id))) && Evolves(s, Sent(t, id))
  {
    var id := s.sequence + 1;
    RequestedIsConsistent(s, cancellable);
    EvolvesTransitively(s, Requested(s, cancellable), t);
    assert RequestOk(t.requests[id]) && !t.requests[id].sent;
    SentIsConsistent(t, id);
    EvolvesPastSent(s, t, id);
  }

  /** A transform that throws ends the connection before its promise is settled. */
  lemma AnsweredStays(s: Snapshot, id: nat, ok: bool, result: int, t: Snapshot)
    requires Consistent(s) && id in s.pending && Consistent(t) && Returns(Matched(s, id, ok, result), t)
    ensures id in t.requests && t.requests[id].answer == Answered(ok, result)
    ensures t.answering == s.answering + {id}
    ensures Evolves(s, t)
  {
    MatchedIsConsistent(s, id, ok, result);
    EvolvesTransitively(s, Matched(s, id, ok, result).(answering := s.answering), t);
  }

  lemma LostWithResponse(s: Snapshot, id: nat, ok: bool, result: int, t: Snapshot, u: Snapshot)
    requires id in s.requests && LostIn(Matched(s, id, ok, result), t) && Evolves(t, u)
    requires id in u.requests && !u.requests[id].outcome.Unsettled?
    ensures LostIn(s, u)
  {
    LostStays(Matched(s, id, ok, result), t, u);
  }

  lemma RequestStays(a: Snapshot, b: Snapshot, id: nat)
    requires Evolves(a, b) && id in a.requests
    ensures id in b.requests && Advances(a.requests[id], b.requests[id])
    ensures b.link.Connected? ==> b.epoch == a.epoch
  {
  }

  /** The cancel of an aborted request is on the wire. */
  lemma AbortedIsCancelled(s: Snapshot, id: nat)
    requires Consistent(s) && id in s.requests && s.requests[id].aborted && s.requests[id].sent
    requires s.link.Connected? && s.requests[id].epoch == s.epoch
    ensures Cancel(id, s.epoch) in s.wire
  {
    assert CancelOk(s, id);
  }

  /** Nothing is owed for a request that has not been sent, or whose connection is gone. */
  lemma NothingOwed(s: Snapshot, id: nat)
    requires Owes(s, id) && id in s.requests && (!s.requests[id].sent || !s.link.Connected?)
    ensures Consistent(s)
  {
  }

  lemma DisposedStays(a: Snapshot, b: Snapshot)
    requires Evolves(a, b)
    ensures a.disposed ==> b.disposed
  {
  }

  lemma TaskBegins(s: Snapshot)
    requires Consistent(s) && s.draining == 0
    ensures Consistent(s.(taskStart := s.epoch))
  {
  }

  class Client {
    var link: Link
    var epoch: nat                       // attempts made, and so the identity of the current one
    var disposed: bool
    var sequence: nat
    var pending: set<nat>
    var requests: map<nat, Request>
    var attachment: Option<nat>
    ghost var wire: seq<Frame>
    var taskStart: nat                   // `epoch` when the current task of the event loop began
    ghost var draining: nat              // frames about to reject what is pending
    ghost var answering: set<nat>        // requests whose promise a frame on the stack settles

    ghost function Now(): Snapshot
      reads this
    {
      Snapshot(link, epoch, disposed, sequence, pending, requests, wire, taskStart, draining, answering)
    }

    ghost predicate Valid()
      reads this
    {
      Consistent(Now())
    }

    ghost predicate AtRest()
      reads this
    {
      draining == 0 && answering == {}
    }

    constructor ()
      ensures Valid() && AtRest() && requests == map[] && wire == []
    {
      link, epoch, disposed, sequence, pending, requests, attachment := Disconnected, 0, false, 0, {}, map[], None;
      wire, taskStart, draining, answering := [], 0, 0, {};
    }

    /** Any re-entrant use of the client by the environment. */
    method Callback(depth: nat)
      requires Valid()
      modifies this
      ensures Valid() && Returns(old(Now()), Now())
      ensures depth == 0 ==> Now() == old(Now()) && attachment == old(attachment)
      decreases depth, 0, 0
    {
      if depth == 0 {
        return;
      }
      var calls: nat := *;
      while calls > 0
        invariant Valid() && Returns(old(Now()), Now())
      {
        label Before:
        Reenter(depth - 1);
        EvolvesTransitively(old(Now()), old@Before(Now()), Now());
        calls := calls - 1;
      }
    }

    method Reenter(depth: nat)
      requires Valid()
      modifies this
      ensures Valid() && Returns(old(Now()), Now())
      decreases depth, 8
    {
      var choice: nat, id: nat, value: Option<nat>, flag: bool := *, *, *, *;
      if choice == 0 {
        Connect(depth);
      } else if choice == 1 {
        Fail(depth);
      } else if choice == 2 {
        var aborted: bool, encodes: bool, throws: bool := *, *, *;
        var _ := Request(flag, aborted, encodes, throws, depth);
      } else if choice == 3 {
        var throws: bool := *;
        Abort(id, flag, throws, depth);
      } else if choice == 4 {
        Dispose(depth);
      } else if choice == 5 {
        HelloAccepted(depth);
      } else if choice == 6 && link.Connected? {
        var result: int, throws: bool := *, *;
        HandleResponse(id, flag, result, throws, depth);
      } else if link.Connected? {
        HandleAttachment(value, flag, depth);
      } else {
        StaysConsistent(Now());
      }
    }

    /** `connect`; the state listeners run once the attempt is current. */
    method Connect(depth: nat)
      requires Valid()
      modifies this
      ensures Valid() && Returns(old(Now()), Now())
      ensures if old(disposed || !link.Disconnected?) then Now() == old(Now()) else old(epoch) < epoch
      ensures !old(disposed) && old(link.Disconnected?) && depth == 0 ==>
                Now() == old(Now()).(link := Connecting, epoch := old(epoch) + 1)
      decreases depth, 1
    {
      hide Consistent, Sound, Evolves;
      ConsistentIsSound(Now());
      if disposed || !link.Disconnected? {
        return;
      }
      ConnectingIsConsistent(Now());
      epoch, link := epoch + 1, Connecting;
      label Told:
      Callback(depth);
      EvolvesTransitively(old(Now()), old@Told(Now()), Now());
    }

    /** The connection accepts the server's hello, in a task that began after the attempt was made. */
    method HelloAccepted(depth: nat)
      requires Valid()
      modifies this
      ensures Valid() && Returns(old(Now()), Now())
      ensures old(link.Connecting? && epoch <= taskStart) && depth == 0 ==> Now() == old(Now()).(link := Connected)
      decreases depth, 1
    {
      hide Consistent, Sound, Evolves;
      ConsistentIsSound(Now());
      if link.Connecting? && epoch <= taskStart {
        HelloIsConsistent(Now());
        link := Connected;
        label Told:
        Callback(depth);
        EvolvesTransitively(old(Now()), old@Told(Now()), Now());
      }
    }

    /** The connection fails or is disconnected. */
    method Fail(depth: nat)
      requires Sound(Now())
      modifies this
      ensures Valid() && Returns(old(Now()), Now())
      ensures Down(Now()) && (old(link.Connected?) ==> LostIn(old(Now()), Now()))
      ensures !old(link.Disconnected?) && depth == 0 ==> Now() == Drained(old(Now()).(link := Disconnected))
      decreases depth, 3
    {
      hide Consistent, Sound, Evolves;
      StaysConsistent(Now());
      if link.Disconnected? {
        return;
      }
      LostIsConsistent(Now());
      link := Disconnected;
      label Lost:
      HandleDisconnected(depth);
      EvolvesTransitively(old(Now()), old@Lost(Now()), Now());
    }

    /** `#handleConnectionStateChange` for a lost connection. */
    method HandleDisconnected(depth: nat)
      requires link.Disconnected? && Consistent(Now().(draining := draining + 1))
      modifies this
      ensures Valid() && Returns(old(Now()), Now()) && LostIn(old(Now()), Now())
      ensures depth == 0 ==> Now() == Drained(old(Now()))
      decreases depth, 2
    {
      hide Consistent, Sound, Evolves;
      draining := draining + 1;
      label Begin:
      SetAttachment(None, depth);
      label Told:
      ghost var drained := Drained(Now());
      DrainedLoses(old@Begin(Now()), Now());
      ConsistentIsSound(Now());
      DrainedIsConsistent(Now());
      EvolvesTransitively(old@Begin(Now()), Now(), drained);
      RejectPendingRequests();
      draining := draining - 1;
      IgnoresDraining(old@Begin(Now()), drained, old(draining));
      label Rejected:
      assert Now() == drained.(draining := old(draining));
      Callback(depth);
      LostStays(old(Now()), old@Rejected(Now()), Now());
      EvolvesTransitively(old(Now()), old@Rejected(Now()), Now());
    }

    /** `#rejectPendingRequests`: abort listeners go, and every promise not yet settled is rejected. */
    method RejectPendingRequests()
      requires PendingKnown(Now())
      modifies this`pending, this`requests
      ensures Now() == Drained(old(Now()))
    {
      ghost var all := pending;
      var rest := pending;
      pending := {};
      while rest != {}
        invariant pending == {} && rest <= all && forall id | id in all :: id in requests
        invariant requests == RejectAll(old(requests), all - rest)
      {
        var id :| id in rest;
        rest := rest - {id};
        requests := requests[id := Reject(requests[id])];
      }
      assert all - rest == all;
    }

    /** `#setAttachment`: listeners hear of a change. */
    method SetAttachment(value: Option<nat>, depth: nat)
      requires Valid()
      modifies this
      ensures Valid() && Returns(old(Now()), Now())
      ensures depth == 0 ==> attachment == value && Now() == old(Now())
      decreases depth, 1
    {
      if attachment == value {
        return;
      }
      attachment := value;
      Callback(depth);
    }

    /** `dispose`: what is pending is rejected before the connection is told to go. */
    method Dispose(depth: nat)
      requires Valid()
      modifies this
      ensures Valid() && Returns(old(Now()), Now()) && disposed && link.Disconnected?
      ensures !old(disposed) ==> LostIn(old(Now()), Now())
      decreases depth, 3
    {
      hide Consistent, Sound, Evolves;
      ConsistentIsSound(Now());
      if disposed {
        return;
      }
      DisposedIsConsistent(Now());
      disposed := true;
      RejectPendingRequests();
      if !link.Disconnected? {
        link := Disconnected;
        label Lost:
        HandleDisconnected(depth);
        DisposedStays(old@Lost(Now()), Now());
        EvolvesTransitively(old(Now()), old@Lost(Now()), Now());
        LostStays(old(Now()), old@Lost(Now()), Now());
      }
      label Gone:
      SetAttachment(None, depth);
      EvolvesTransitively(old(Now()), old@Gone(Now()), Now());
      LostStays(old(Now()), old@Gone(Now()), Now());
      DisposedStays(old@Gone(Now()), Now());
      ConsistentIsSound(Now());
    }

    /** `Connection.send`; a transport that throws at once ends the connection. */
    method Send(f: Frame, throws: bool, depth: nat)
      requires Consistent(Now().(wire := wire + [f])) && link.Connected?
      modifies this
      ensures Valid() && Returns(old(Now().(wire := wire + [f])), Now())
      ensures throws ==> Down(Now())
      ensures !throws && depth == 0 ==> Now() == old(Now().(wire := wire + [f]))
      decreases depth, 4
    {
      wire := wire + [f];
      label Given:
      Callback(depth);
      label Called:
      if throws {
        Fail(depth);
        EvolvesTransitively(old@Given(Now()), old@Called(Now()), Now());
      }
    }

    /** `#request`: `None` is a promise that is rejected at once.  The request may not be encodable, and the
        transport may throw. */
    method Request(cancellable: bool, alreadyAborted: bool, encodes: bool, throws: bool, depth: nat)
        returns (id: Option<nat>)
      requires Valid()
      modifies this
      ensures Valid() && Returns(old(Now()), Now())
      ensures id.Some? <==> !old(disposed) && old(link.Connected?) && !(cancellable && alreadyAborted)
      ensures id.Some? ==> id.value == old(sequence) + 1 && id.value in requests && requests[id.value].epoch == old(epoch)
      ensures id.Some? ==>
                if requests[id.value].sent then requests[id.value].called
                else requests[id.value].answer.Unencodable? && requests[id.value].outcome.Failed?
      ensures id.None? ==> Now() == old(Now())
      ensures id.Some? && encodes && throws ==> Down(Now())
      ensures id.Some? && !encodes ==> Now() == Unencoded(old(Now()), cancellable)
      ensures id.Some? && encodes && !throws && depth == 0 ==>
                Now() == Sent(Requested(old(Now()), cancellable), id.value)
      decreases depth, 7
    {
      hide Consistent, Sound, Evolves;
      ConsistentIsSound(Now());
      if disposed || !link.Connected? || (cancellable && alreadyAborted) {
        return None;
      }
      id := Some(sequence + 1);
      if encodes {
        SendRequest(cancellable, throws, depth);
      } else {
        UnencodedIsConsistent(Now(), cancellable);
        sequence := sequence + 1;
        requests := requests[sequence := Tracked(epoch, cancellable, false, false, false, false, Unencodable, Failed)];
      }
    }

    method SendRequest(cancellable: bool, throws: bool, depth: nat)
      requires Valid() && link.Connected?
      modifies this
      ensures Valid() && Returns(old(Now()), Now())
      ensures var id := old(sequence) + 1;
              id in requests && requests[id].epoch == old(epoch) && requests[id].cancellable == cancellable &&
              requests[id].called && requests[id].sent &&
              (requests[id].aborted && link.Connected? ==> Cancel(id, epoch) in wire)
      ensures throws ==> Down(Now())
      ensures !throws && depth == 0 ==> Now() == Sent(Requested(old(Now()), cancellable), old(sequence) + 1)
      decreases depth, 6
    {
      hide Consistent, Sound, Owes, Evolves, LostIn;
      RequestedIsConsistent(Now(), cancellable);
      ghost var given := Requested(Now(), cancellable);
      sequence := sequence + 1;
      var id := sequence;
      pending := pending + {id};
      requests := requests[id := Tracked(epoch, cancellable, false, false, true, false, NoAnswer, Unsettled)];
      Send(Call(id, epoch), throws, depth);
      RequestReturned(old(Now()), cancellable, Now());
      requests := requests[id := requests[id].(sent := true)];
      label Marked:
      CancelLate(id, depth);
      EvolvesTransitively(old(Now()), old@Marked(Now()), Now());
      if throws {
        DownStays(old@Marked(Now()), Now());
      }
    }

    /** The cancel of a request that was aborted while it was being sent. */
    method CancelLate(id: nat, depth: nat)
      requires Owes(Now(), id) && (id in requests && !requests[id].aborted ==> Valid())
      requires id in requests && requests[id].called && requests[id].sent && !requests[id].cancelled
      requires link.Connected? ==> requests[id].epoch == epoch
      modifies this
      ensures Valid() && Returns(old(Now()), Now())
      ensures id in requests && requests[id].epoch == old(requests)[id].epoch
      ensures requests[id].cancellable == old(requests)[id].cancellable && requests[id].called && requests[id].sent
      ensures requests[id].aborted && link.Connected? ==> Cancel(id, epoch) in wire
      ensures !old(requests)[id].aborted ==> Now() == old(Now())
      decreases depth, 6, 0
    {
      if !requests[id].aborted {
        StaysConsistent(Now());
      }
      hide Consistent, Sound, Owes, Evolves, LostIn;
      if requests[id].aborted {
        var encodes: bool, throws: bool := *, *;
        SendCancel(id, encodes, throws, depth);
        RequestStays(old(Now()), Now(), id);
      }
      if requests[id].aborted && link.Connected? {
        AbortedIsCancelled(Now(), id);
      }
    }

    /** `sendCancel`: nothing is sent before the request, or after the connection is lost. */
    method SendCancel(id: nat, encodes: bool, throws: bool, depth: nat)
      requires Owes(Now(), id) && id in requests && requests[id].aborted && !requests[id].cancelled
      requires requests[id].sent && link.Connected? ==> requests[id].epoch == epoch
      modifies this
      ensures Valid() && Returns(old(Now()), Now())
      ensures !old(requests)[id].sent || !old(link.Connected?) ==> Now() == old(Now())
      ensures old(requests)[id].sent && old(link.Connected?) && (throws || !encodes) ==> Down(Now())
      ensures old(requests)[id].sent && old(link.Connected?) && encodes && !throws && depth == 0 ==>
                Now() == Cancelled(old(Now()), id)
      decreases depth, 5
    {
      assert Sound(Now());
      hide Consistent, Sound, Owes, Evolves;
      StaysConsistent(Now());
      if !requests[id].sent || !link.Connected? {
        NothingOwed(Now(), id);
        return;
      }
      if encodes {
        CancelledIsConsistent(Now(), id);
        ghost var given := Cancelled(Now(), id);
        requests := requests[id := requests[id].(cancelled := true)];
        Send(Cancel(id, epoch), throws, depth);
        EvolvesTransitively(old(Now()), given, Now());
      } else {
        Fail(depth);
      }
    }

    /** The abort signal of request `id` fires; its listener is there until the request is answered. */
    method Abort(id: nat, encodes: bool, throws: bool, depth: nat)
      requires Valid()
      modifies this
      ensures Valid() && Returns(old(Now()), Now())
      ensures id in old(pending) && id in old(requests) && old(requests)[id].cancellable ==>
                id in requests && requests[id].aborted && !requests[id].outcome.Unsettled?
      ensures Listening(old(Now()), id) && encodes && !throws && depth == 0 ==>
                var after := Aborted(old(Now()), id);
                Now() == if old(link.Connected?) && old(requests)[id].sent then Cancelled(after, id) else after
      ensures !Listening(old(Now()), id) ==> Now() == old(Now())
      decreases depth, 6
    {
      if id in pending && id in requests && requests[id].cancellable && !requests[id].aborted {
        AbortedIsConsistent(Now(), id);
        requests := requests[id := Reject(requests[id]).(aborted := true)];
        label Rejected:
        SendCancel(id, encodes, throws, depth);
        EvolvesTransitively(old(Now()), old@Rejected(Now()), Now());
      }
    }

    /** A response; `throws` says that the request has a transform and that it rejects the result. */
    method HandleResponse(id: nat, ok: bool, result: int, throws: bool, depth: nat)
      requires Valid() && link.Connected?
      modifies this
      ensures Valid() && Returns(old(Now()), Now())
      ensures id !in old(pending) || (ok && throws) ==> LostIn(old(Now()), Now())
      ensures id in old(pending) && !(ok && throws) && id in old(requests) ==>
                Now() == Concluded(Matched(old(Now()), id, ok, result), id, if ok then Succeeded(result) else Failed,
                                   old(answering))
      ensures id in old(pending) && ok && throws && depth == 0 && id in old(requests) ==>
                Now() == Concluded(Drained(Matched(old(Now()), id, ok, result).(link := Disconnected)), id, Failed,
                                   old(answering))
      decreases depth, 4
    {
      hide Consistent, Sound, Evolves, LostIn;
      ConsistentIsSound(Now());
      if id !in pending {
        Fail(depth);
        return;
      }
      MatchedIsConsistent(Now(), id, ok, result);
      ghost var outer := answering;
      pending := pending - {id};
      requests := requests[id := requests[id].(answer := Answered(ok, result))];
      answering := answering + {id};
      label Taken:
      ConsistentIsSound(Now());
      if ok && throws {
        Fail(depth);
      }
      AnsweredStays(old(Now()), id, ok, result, Now());
      label Ready:
      Conclude(id, if ok && !throws then Succeeded(result) else Failed, outer);
      EvolvesTransitively(old(Now()), old@Ready(Now()), Now());
      if ok && throws {
        LostWithResponse(old(Now()), id, ok, result, old@Ready(Now()), Now());
      }
    }

    /** Settle the promise of an answered request; an abort may have settled it before. */
    method Conclude(id: nat, outcome: Outcome, ghost outer: set<nat>)
      requires Valid() && id in requests && answering == outer + {id} && !outcome.Unsettled?
      requires outcome.Succeeded? ==> requests[id].answer == Answered(true, outcome.result)
      modifies this
      ensures Valid() && Evolves(old(Now()), Now())
      ensures Now() == Concluded(old(Now()), id, outcome, outer)
    {
      hide Consistent, Sound, Evolves;
      ConcludedIsConsistent(Now(), id, outcome, outer);
      if requests[id].outcome.Unsettled? {
        requests := requests[id := requests[id].(outcome := outcome)];
      }
      answering := outer;
      assert Now() == Concluded(old(Now()), id, outcome, outer);
    }

    /** An attachment update; one of another server ends the connection. */
    method HandleAttachment(value: Option<nat>, foreign: bool, depth: nat)
      requires Valid() && link.Connected?
      modifies this
      ensures Valid() && Returns(old(Now()), Now())
      ensures foreign ==> LostIn(old(Now()), Now())
      decreases depth, 4
    {
      if foreign {
        Fail(depth);
      } else {
        SetAttachment(value, depth);
      }
    }

    /** Any number of tasks of the event loop. */
    method EventLoop(tasks: nat)
      requires Valid() && AtRest()
      modifies this
      ensures Valid() && AtRest() && RequestsAdvance(old(requests), requests) && old(wire) <= wire
    {
      hide Consistent;
      for i := 0 to tasks
        invariant Valid() && AtRest() && RequestsAdvance(old(requests), requests) && old(wire) <= wire
      {
        Task();
      }
    }

    /** One task of the event loop. */
    method Task()
      requires Valid() && AtRest()
      modifies this
      ensures Valid() && AtRest() && RequestsAdvance(old(requests), requests) && old(wire) <= wire
    {
      hide Consistent;
      var depth: nat := *;
      TaskBegins(Now());
      taskStart := epoch;
      Callback(depth);
    }
  }

  /** A late response to an aborted request is absorbed: its answer is recorded, and nothing else changes. */
  lemma LateResponseIsAbsorbed(s: Snapshot, id: nat, ok: bool, result: int, outcome: Outcome)
    requires Consistent(s) && id in s.pending && id in s.requests && s.requests[id].aborted
    ensures Concluded(Matched(s, id, ok, result), id, outcome, s.answering) ==
            s.(pending := s.pending - {id}, requests := s.requests[id := s.requests[id].(answer := Answered(ok, result))])
  {
    assert RequestOk(s.requests[id]);
  }

  const ABORTED_REQUEST: Snapshot := Snapshot(
    Connected, 1, false, 1, {1}, map[1 := Tracked(1, true, true, true, true, true, NoAnswer, Failed)],
    [Call(1, 1), Cancel(1, 1)], 1, 0, {})

  lemma AbortedRequestWire()
    ensures WireOk(ABORTED_REQUEST.wire, ABORTED_REQUEST.requests)
  {
    var sent := Tracked(1, true, true, true, true, false, NoAnswer, Failed);
    assert WireOk([], map[]);
    hide WireOk;
    CallSent([], map[], 1, sent);
    CancelSent([] + [Call(1, 1)], map[][1 := sent], 1);
    assert [] + [Call(1, 1)] + [Cancel(1, 1)] == ABORTED_REQUEST.wire;
    assert map[][1 := sent][1 := sent.(cancelled := true)] == ABORTED_REQUEST.requests;
  }

  lemma AbortedRequestIsConsistent()
    ensures Consistent(ABORTED_REQUEST)
  {
    AbortedRequestWire();
    hide WireOk;
  }

  /** The late response of a request with a transform: accepted, it is absorbed; rejected, it takes the
      connection down, although the promise has long been settled. */
  lemma RejectedLateResponse()
    ensures var matched := Matched(ABORTED_REQUEST, 1, true, 7);
            var accepted := Concluded(matched, 1, Succeeded(7), {});
            var rejected := Concluded(Drained(matched.(link := Disconnected)), 1, Failed, {});
            && Consistent(ABORTED_REQUEST)
            && accepted.link.Connected? && rejected.link.Disconnected?
            && accepted.pending == rejected.pending == {}
            && accepted.requests[1].outcome == rejected.requests[1].outcome == ABORTED_REQUEST.requests[1].outcome
  {
    AbortedRequestIsConsistent();
    LateResponseIsAbsorbed(ABORTED_REQUEST, 1, true, 7, Succeeded(7));
  }

  /** A client's whole life, seen between two tasks. */
  method Run(tasks: nat) returns (c: Client)
    ensures fresh(c) && Consistent(c.Now()) && c.AtRest()
    ensures c.disposed ==> c.link.Disconnected?
    ensures c.link.Connected? ==> forall id: nat :: id in c.pending <==> Unanswered(c.Now(), id)
    ensures !c.link.Connected? ==> c.pending == {}
    ensures forall id | id in c.requests && c.requests[id].outcome.Unsettled? :: id in c.pending
    ensures forall id | id in c.requests && c.requests[id].outcome.Succeeded? ::
              c.requests[id].answer == Answered(true, c.requests[id].outcome.result) && !c.requests[id].aborted
    ensures WireOrdered(c.wire)
    ensures forall f | f in c.wire :: f.id in c.requests && f.epoch == c.requests[f.id].epoch
    ensures forall f | f in c.wire && f.Cancel? :: c.requests[f.id].aborted
    ensures forall id | id in c.requests && c.requests[id].aborted && c.requests[id].sent &&
                        c.requests[id].epoch == c.epoch && c.link.Connected? :: Cancel(id, c.epoch) in c.wire
  {
    c := new Client();
    c.EventLoop(tasks);
    forall id | id in c.requests && c.requests[id].aborted && c.requests[id].sent && c.requests[id].epoch == c.epoch &&
                c.link.Connected?
      ensures Cancel(id, c.epoch) in c.wire
    {
      AbortedIsCancelled(c.Now(), id);
    }
  }
}
