/** The connection lifecycle of the RPC client, with callbacks that re-enter it.

  Every call into the environment (`onStateChange`, `onHandshake`, `onMessage`, the transport and
  its factory) may call back: connect, disconnect, fail, send, or deliver data, close and error
  events of any attempt.  `Callback(depth)` stands for such a call: any number of nested
  operations, nested up to any finite depth, chosen nondeterministically; at depth 0 it does nothing.
 */
module RpcConnection {
  import opened Wrappers

  type ServerId = string

  datatype ServerMessage = Hello(serverId: ServerId) | HelloError | Other(tag: int)

  /** Attempt `id` calls the transport factory once, so `id` also names its transport. */
  datatype Lifecycle =
    | Disconnected
    | Connecting(id: nat, transport: bool)
    | Connected(id: nat, handshake: bool)

  /** A `connect` promise; `origin` is the attempt whose transport delivered the hello. */
  datatype Settlement = Pending | Resolved(serverId: ServerId, origin: nat) | Rejected

  datatype Note = NowConnecting | NowConnected | NowDisconnected

  /** What the environment sees, in order: calls of `onStateChange`, the factory, `onHandshake`, `onMessage` and a
      transport's `close`, and promises that settle. */
  datatype Act =
    | Told(note: Note)
    | FactoryCalled(id: nat)
    | Greeted
    | Passed(message: ServerMessage)
    | Closed(id: nat)
    | Settled(id: nat, settlement: Settlement)

  predicate Active(l: Lifecycle) {
    !l.Disconnected?
  }

  predicate Awaited(l: Lifecycle, id: nat) {
    Active(l) && l.id == id && (l.Connecting? || l.handshake)
  }

  predicate HoldsTransport(l: Lifecycle, id: nat) {
    Active(l) && l.id == id && (l.Connecting? ==> l.transport)
  }

  /** The state a listener has been told about last. */
  function LastNote(notes: seq<Note>): Note {
    if notes == [] then NowDisconnected else notes[|notes| - 1]
  }

  predicate MayFollow(before: Note, next: Note) {
    match next
    case NowConnecting => before.NowDisconnected?
    case NowConnected => before.NowConnecting?
    case NowDisconnected => !before.NowDisconnected?
  }

  /** Notifications start from disconnected and follow the lifecycle. */
  predicate LegalNotes(notes: seq<Note>) {
    notes == [] || (LegalNotes(notes[..|notes| - 1]) && MayFollow(LastNote(notes[..|notes| - 1]), notes[|notes| - 1]))
  }

  datatype Snapshot = Snapshot(
    lifecycle: Lifecycle, stamp: nat, sequence: nat, promises: map<nat, Settlement>,
    opening: set<nat>, returned: set<nat>, closed: set<nat>, terminal: set<nat>,
    starting: set<nat>, closing: set<nat>, shaking: set<nat>, notes: seq<Note>, received: seq<ServerMessage>,
    trace: seq<Act>, taskStart: nat)

  /** What a frame and everything it re-enters can do to the state. */
  ghost predicate Grows(a: Snapshot, b: Snapshot) {
    && a.sequence <= b.sequence && a.notes <= b.notes && a.received <= b.received && a.trace <= b.trace
    && a.opening <= b.opening && a.closed <= b.closed && a.terminal <= b.terminal && b.returned == a.returned
    && b.starting == a.starting && b.closing == a.closing && b.shaking == a.shaking && b.taskStart == a.taskStart
    && (forall id | id in a.promises ::
          id in b.promises && (!a.promises[id].Pending? ==> b.promises[id] == a.promises[id]))
    && a.stamp <= b.stamp && (b.stamp == a.stamp ==> b.lifecycle == a.lifecycle && b.notes == a.notes)
    && (Active(a.lifecycle) ==> a.lifecycle.id <= a.sequence)
    && (Active(b.lifecycle) && b.lifecycle.id <= a.sequence ==>
          Active(a.lifecycle) && a.lifecycle.id == b.lifecycle.id)
  }

  predicate SameAttempt(a: Lifecycle, b: Lifecycle) {
    Active(a) && Active(b) && a.id == b.id
  }

  predicate InHandshake(l: Lifecycle) {
    l.Connected? && l.handshake
  }

  /** What a call from outside can do; only the frame that made a connection changes it without ending it. */
  ghost predicate Evolves(a: Snapshot, b: Snapshot) {
    && Grows(a, b)
    && (a.lifecycle.Connected? && SameAttempt(a.lifecycle, b.lifecycle) ==> b.stamp == a.stamp)
    // and resolves its promise, which is rejected if the attempt ends before
    && (InHandshake(a.lifecycle) && !SameAttempt(a.lifecycle, b.lifecycle) ==>
          a.lifecycle.id in b.promises && b.promises[a.lifecycle.id] == Rejected)
  }

  /** The invariant, also at every point where the environment runs. */
  ghost predicate Consistent(s: Snapshot, expected: ServerId) {
    && s.taskStart <= s.sequence
    && (forall id: nat :: id in s.promises <==> 1 <= id <= s.sequence)
    && (Active(s.lifecycle) ==> 1 <= s.lifecycle.id <= s.sequence)
    // a promise is pending exactly while its attempt is being made
    && (forall id | id in s.promises :: s.promises[id].Pending? <==> Awaited(s.lifecycle, id))
    // a resolved promise got the expected server's hello from its own transport
    && (forall id | id in s.promises && s.promises[id].Resolved? ::
          s.promises[id].serverId == expected && s.promises[id].origin == id)
    // no transport is forgotten
    && (forall t | t in s.returned ::
          HoldsTransport(s.lifecycle, t) || t in s.closed || t in s.terminal || t in s.closing)
    && (forall t | HoldsTransport(s.lifecycle, t) :: t in s.returned)
    && (forall id | id in s.opening :: 1 <= id <= s.sequence && id !in s.returned)
    // an attempt without a transport waits for its factory, which a frame on the stack may be about to call
    && (s.lifecycle.Connecting? && !s.lifecycle.transport ==> s.lifecycle.id in s.opening + s.starting)
    // what has ended or been closed is not current, and never will be again
    && (forall t | t in s.closed + s.terminal :: 1 <= t <= s.sequence)
    && (Active(s.lifecycle) ==> s.lifecycle.id !in s.closed + s.terminal)
    // an attempt made during the current task has no transport yet
    && (forall t | t in s.returned :: t <= s.taskStart)
    && LegalNotes(s.notes)
    && (match s.lifecycle
        case Disconnected => LastNote(s.notes).NowDisconnected?
        case Connecting(_, _) => LastNote(s.notes).NowConnecting?
        case Connected(_, handshake) =>
          if handshake then s.stamp in s.shaking && !LastNote(s.notes).NowDisconnected?
          else LastNote(s.notes).NowConnected? && s.promises[s.lifecycle.id].Resolved?)
  }

  lemma EvolvesTransitively(a: Snapshot, b: Snapshot, c: Snapshot)
    requires Evolves(a, b) && Evolves(b, c)
    ensures Evolves(a, c)
  {
  }

  lemma EvolvedFrames(a: Snapshot, b: Snapshot)
    requires Evolves(a, b)
    ensures b.starting == a.starting && b.taskStart == a.taskStart && a.sequence <= b.sequence
  {
  }

  lemma GrowsTransitively(a: Snapshot, b: Snapshot, c: Snapshot)
    requires Grows(a, b) && Grows(b, c)
    ensures Grows(a, c)
  {
  }

  lemma ConnectEvolves(a: Snapshot, told: Snapshot, b: Snapshot)
    requires Evolves(a, told.(starting := a.starting)) && Evolves(told, b)
    ensures Evolves(a, b.(starting := a.starting))
  {
  }

  lemma StaysConsistent(s: Snapshot, expected: ServerId)
    requires Consistent(s, expected)
    ensures Evolves(s, s) && s.taskStart <= s.sequence
  {
  }

  lemma NotesGrow(notes: seq<Note>, next: Note)
    requires LegalNotes(notes) && MayFollow(LastNote(notes), next)
    ensures LegalNotes(notes + [next]) && LastNote(notes + [next]) == next
  {
    assert (notes + [next])[..|notes|] == notes;
  }

  /** The attempt that was current in `a` has ended in `b`; its promise, if still pending, was rejected. */
  ghost predicate EndedIn(a: Snapshot, b: Snapshot) {
    Active(a.lifecycle) ==>
      && !SameAttempt(a.lifecycle, b.lifecycle) && a.stamp < b.stamp
      && (Awaited(a.lifecycle, a.lifecycle.id) ==>
            a.lifecycle.id in b.promises && b.promises[a.lifecycle.id] == Rejected)
  }

  /** A listener is told. */
  function Hears(s: Snapshot, note: Note): Snapshot {
    s.(notes := s.notes + [note], trace := s.trace + [Told(note)])
  }

  /** The factory is called, and returns its promise. */
  function Called(s: Snapshot, id: nat): Snapshot {
    s.(opening := s.opening + {id}, trace := s.trace + [FactoryCalled(id)])
  }

  /** The state in which listeners hear that a new attempt is being made. */
  function Begun(s: Snapshot): Snapshot {
    var id := s.sequence + 1;
    Hears(s.(sequence := id, promises := s.promises[id := Pending], lifecycle := Connecting(id, false),
             stamp := s.stamp + 1, starting := s.starting + {id}), NowConnecting)
  }

  lemma BegunIsConsistent(s: Snapshot, expected: ServerId)
    requires Consistent(s, expected) && s.lifecycle.Disconnected?
    ensures Consistent(Begun(s), expected) && Evolves(s, Begun(s).(starting := s.starting))
  {
    NotesGrow(s.notes, NowConnecting);
  }

  /** The factory has been called, or its attempt is over. */
  lemma StartedIsConsistent(s: Snapshot, expected: ServerId, id: nat, outer: set<nat>)
    requires Consistent(s, expected) && s.starting == outer + {id}
    requires s.lifecycle == Connecting(id, false) ==> id in s.opening
    ensures Consistent(s.(starting := outer), expected)
  {
  }

  /** The attempt is over, and its promise rejected if it was pending. */
  function Retired(s: Snapshot, reported: set<nat>): Snapshot
    requires Active(s.lifecycle)
  {
    var id := s.lifecycle.id;
    var gone := s.(terminal := s.terminal + reported, lifecycle := Disconnected, stamp := s.stamp + 1);
    if Awaited(s.lifecycle, id) then gone.(promises := s.promises[id := Rejected], trace := s.trace + [Settled(id, Rejected)])
    else gone
  }

  /** The state in which listeners hear that the connection is gone. */
  function Ended(s: Snapshot, reported: set<nat>): Snapshot
    requires Active(s.lifecycle)
  {
    Hears(Retired(s, reported), NowDisconnected)
  }

  lemma EndedIsConsistent(s: Snapshot, expected: ServerId, reported: set<nat>)
    requires Consistent(s, expected) && Active(s.lifecycle)
    requires forall t | HoldsTransport(s.lifecycle, t) :: t in s.closing || t in reported
    requires reported <= {s.lifecycle.id}
    ensures Consistent(Ended(s, reported), expected)
    ensures var id := s.lifecycle.id; Awaited(s.lifecycle, id) ==> id in s.promises && s.promises[id].Pending?
  {
    NotesGrow(s.notes, NowDisconnected);
  }

  lemma EndedIsEvolution(s: Snapshot, expected: ServerId, reported: set<nat>)
    requires Consistent(s, expected) && Active(s.lifecycle)
    ensures Evolves(s, Ended(s, reported))
  {
    assert Awaited(s.lifecycle, s.lifecycle.id) ==> s.promises[s.lifecycle.id].Pending?;
    hide LegalNotes, LastNote;
  }

  /** Whatever listeners do once they are told, the attempt has ended. */
  lemma EndedEvolves(a: Snapshot, reported: set<nat>, b: Snapshot)
    requires Active(a.lifecycle) && Evolves(a, Ended(a, reported)) && Evolves(Ended(a, reported), b)
    requires Awaited(a.lifecycle, a.lifecycle.id) ==> a.lifecycle.id in a.promises
    ensures Evolves(a, b) && EndedIn(a, b) && reported <= b.terminal
  {
  }

  lemma ClosingIsConsistent(s: Snapshot, expected: ServerId, t: nat)
    requires Consistent(s, expected)
    ensures Consistent(s.(closing := s.closing + {t}), expected)
  {
  }

  /** After the attempt has ended, its transport may be closed. */
  lemma ClosesAfter(a: Snapshot, marked: Snapshot, b: Snapshot, expected: ServerId, t: nat)
    requires Consistent(a, expected) && HoldsTransport(a.lifecycle, t) && marked == a.(closing := a.closing + {t})
    requires Consistent(b, expected) && Evolves(marked, b) && EndedIn(marked, b)
    ensures var restored := b.(closing := a.closing);
            && Evolves(a, restored) && EndedIn(a, restored) && restored.closing == a.closing
            && Consistent(Shut(restored, t), expected)
  {
    hide LegalNotes, LastNote;
  }

  lemma EndedStays(a: Snapshot, b: Snapshot, c: Snapshot)
    requires Evolves(a, b) && EndedIn(a, b) && Evolves(b, c)
    ensures EndedIn(a, c) && b.terminal <= c.terminal
  {
  }

  lemma LinkedIsConsistent(s: Snapshot, expected: ServerId)
    requires Consistent(s, expected) && s.lifecycle.Connecting? && s.lifecycle.transport
    ensures var t := s.(lifecycle := Connected(s.lifecycle.id, true), stamp := s.stamp + 1,
                        shaking := s.shaking + {s.stamp + 1});
            Consistent(t, expected) && Evolves(s, t.(shaking := s.shaking))
    ensures s.lifecycle.id in s.returned
  {
  }

  /** The frame that linked the connection returns. */
  lemma LinkedEvolves(a: Snapshot, linked: Snapshot, b: Snapshot, expected: ServerId)
    requires Evolves(a, linked.(shaking := a.shaking)) && a.lifecycle.Connecting?
    requires linked.shaking == a.shaking + {linked.stamp}
    requires Consistent(b, expected) && Grows(linked, b) && linked.stamp < b.stamp
    ensures Consistent(b.(shaking := a.shaking), expected) && Evolves(a, b.(shaking := a.shaking))
  {
    hide LegalNotes, LastNote;
  }

  lemma AnnouncedIsConsistent(s: Snapshot, expected: ServerId)
    requires Consistent(s, expected) && s.lifecycle.Connected? && LastNote(s.notes).NowConnecting?
    ensures Consistent(Hears(s, NowConnected), expected)
  {
    NotesGrow(s.notes, NowConnected);
  }

  /** The factory's transport becomes that of its attempt. */
  lemma AdoptedIsConsistent(s: Snapshot, expected: ServerId, id: nat)
    requires Consistent(s, expected) && s.taskStart == s.sequence
    requires s.lifecycle.Connecting? && s.lifecycle.id == id && id in s.opening
    ensures Consistent(s.(opening := s.opening - {id}, returned := s.returned + {id},
                          lifecycle := Connecting(id, true), stamp := s.stamp + 1), expected)
  {
  }

  /** The transport of an attempt that is no longer current is closed. */
  lemma RefusedIsConsistent(s: Snapshot, expected: ServerId, id: nat)
    requires Consistent(s, expected) && s.taskStart == s.sequence && id in s.opening
    requires !(s.lifecycle.Connecting? && s.lifecycle.id == id)
    ensures Consistent(Shut(s.(opening := s.opening - {id}, returned := s.returned + {id}), id), expected)
    ensures !(Active(s.lifecycle) && s.lifecycle.id == id)
  {
    assert HoldsTransport(s.lifecycle, id) ==> id in s.returned;
  }

  /** The promise of an attempt resolves while nothing has intervened since its handshake. */
  lemma HandshakeDoneIsConsistent(s: Snapshot, expected: ServerId, from: nat)
    requires Consistent(s, expected) && s.lifecycle == Connected(from, true) && LastNote(s.notes).NowConnected?
    ensures from in s.promises && s.promises[from].Pending?
    ensures var t := s.(lifecycle := Connected(from, false), stamp := s.stamp + 1,
                        promises := s.promises[from := Resolved(expected, from)],
                        trace := s.trace + [Settled(from, Resolved(expected, from))]);
            Consistent(t, expected) && Grows(s, t)
  {
  }

  /** While listeners hear of a connection, nobody else resolves its promise. */
  lemma OutcomeOfTelling(told: Snapshot, b: Snapshot, from: nat)
    requires Evolves(told, b) && told.lifecycle == Connected(from, true)
    ensures Grows(told, b)
    ensures if b.stamp == told.stamp then b.lifecycle == told.lifecycle
            else from in b.promises && b.promises[from] == Rejected
  {
  }

  lemma GrowsPastNote(a: Snapshot, note: Note, b: Snapshot)
    requires Grows(Hears(a, note), b) && a.stamp < b.stamp
    ensures Grows(a, b)
  {
  }

  /** What any number of tasks keep: a promise settles once, and nothing already done is undone. */
  ghost predicate Progresses(a: Snapshot, b: Snapshot) {
    && a.sequence <= b.sequence && a.notes <= b.notes && a.received <= b.received && a.trace <= b.trace
    && a.returned <= b.returned
    && a.closed <= b.closed && a.terminal <= b.terminal
    && (forall id | id in a.promises ::
          id in b.promises && (!a.promises[id].Pending? ==> b.promises[id] == a.promises[id]))
  }

  lemma EvolvesMeansProgress(a: Snapshot, b: Snapshot, c: Snapshot)
    requires Evolves(b, c) && a.promises == b.promises && a.sequence == b.sequence && a.notes == b.notes && a.received == b.received
    requires a.trace == b.trace
    requires a.returned <= b.returned && a.closed == b.closed && a.terminal == b.terminal
    ensures Progresses(a, c) && c.returned == b.returned && c.taskStart == b.taskStart
    ensures c.starting == b.starting && c.closing == b.closing && c.shaking == b.shaking
  {
  }

  /** Listeners see whole connection cycles: nothing is announced connected that was not connecting,
      and nothing begins connecting before the previous connection is announced gone. */
  lemma {:induction false} NotesFollowTheLifecycle(notes: seq<Note>, i: nat)
    requires LegalNotes(notes) && i < |notes|
    ensures notes[i].NowConnected? ==> i > 0 && notes[i - 1].NowConnecting?
    ensures notes[i].NowConnecting? ==> i == 0 || notes[i - 1].NowDisconnected?
    ensures notes[i].NowDisconnected? ==> i > 0 && !notes[i - 1].NowDisconnected?
  {
    var last := |notes| - 1;
    if i < last {
      NotesFollowTheLifecycle(notes[..last], i);
    }
  }

  /** The end of a transport that is not current is only noted. */
  lemma TerminalIsNoted(s: Snapshot, expected: ServerId, id: nat)
    requires Consistent(s, expected) && 1 <= id <= s.sequence && !(Active(s.lifecycle) && s.lifecycle.id == id)
    ensures Consistent(s.(terminal := s.terminal + {id}), expected) && Evolves(s, s.(terminal := s.terminal + {id}))
  {
    hide LegalNotes, LastNote;
  }

  lemma OpeningIsConsistent(s: Snapshot, expected: ServerId, id: nat)
    requires Consistent(s, expected) && s.taskStart < id <= s.sequence
    ensures Consistent(s.(opening := s.opening + {id}), expected) && Evolves(s, s.(opening := s.opening + {id}))
  {
    hide LegalNotes, LastNote;
  }

  lemma FreshHoldsNothing(s: Snapshot, expected: ServerId, id: nat)
    requires Consistent(s, expected) && s.taskStart < id && Active(s.lifecycle) && s.lifecycle.id == id
    ensures forall t :: !HoldsTransport(s.lifecycle, t)
  {
  }

  lemma TraceIsFree(s: Snapshot, expected: ServerId, act: Act)
    requires Consistent(s, expected)
    ensures Consistent(s.(trace := s.trace + [act]), expected) && Evolves(s, s.(trace := s.trace + [act]))
  {
    hide LegalNotes, LastNote;
  }

  /** A transport is closed. */
  function Shut(s: Snapshot, t: nat): Snapshot {
    s.(closed := s.closed + {t}, trace := s.trace + [Closed(t)])
  }

  /** `onHandshake` is called. */
  function Greet(s: Snapshot): Snapshot {
    s.(trace := s.trace + [Greeted])
  }

  /** The connection is lost: the attempt ends, listeners hear of it, and then its transport is closed. */
  function Dropped(s: Snapshot, reported: set<nat>): Snapshot {
    if s.lifecycle.Disconnected? then s
    else if HoldsTransport(s.lifecycle, s.lifecycle.id) then Shut(Ended(s, reported), s.lifecycle.id)
    else Ended(s, reported)
  }

  /** The hello is accepted, and `onHandshake` is about to run. */
  function Linked(s: Snapshot): Snapshot
    requires s.lifecycle.Connecting?
  {
    s.(lifecycle := Connected(s.lifecycle.id, true), stamp := s.stamp + 1)
  }

  /** Listeners know of the connection, and the promise of its attempt has got the server. */
  function Completed(s: Snapshot, expected: ServerId): Snapshot
    requires s.lifecycle.Connected?
  {
    var id := s.lifecycle.id;
    s.(lifecycle := Connected(id, false), stamp := s.stamp + 1, notes := s.notes + [NowConnected],
       promises := s.promises[id := Resolved(expected, id)],
       trace := s.trace + [Told(NowConnected), Settled(id, Resolved(expected, id))])
  }

  /** `onMessage` is called. */
  function Pass(s: Snapshot, message: ServerMessage): Snapshot {
    s.(received := s.received + [message], trace := s.trace + [Passed(message)])
  }

  /** What one message does when no callback uses the connection; `throws` says that `onHandshake` throws. */
  function Handled(s: Snapshot, message: ServerMessage, throws: bool, expected: ServerId): Snapshot {
    match s.lifecycle
    case Disconnected => s
    case Connecting(_, transport) =>
      if message != Hello(expected) || !transport then Dropped(s, {})
      else if throws then Dropped(Greet(Linked(s)), {})
      else Completed(Greet(Linked(s)), expected)
    case Connected(_, _) =>
      if message.Other? then Pass(s, message) else Dropped(s, {})
  }

  /** The frame of the handshake leaves no trace of its own. */
  lemma HandshakeIsHandled(a: Snapshot, linked: Snapshot, throws: bool, expected: ServerId)
    requires a.lifecycle.Connecting? && a.lifecycle.transport && linked == Linked(a).(shaking := linked.shaking)
    ensures (if throws then Dropped(Greet(linked), {}) else Completed(Greet(linked), expected)).(shaking := a.shaking) ==
            Handled(a, Hello(expected), throws, expected)
  {
  }

  /** The messages of a chunk, one after the other. */
  function HandledAll(s: Snapshot, messages: seq<ServerMessage>, throws: bool, expected: ServerId): Snapshot
    decreases |messages|
  {
    if messages == [] then s else HandledAll(Handled(s, messages[0], throws, expected), messages[1..], throws, expected)
  }

  /** A chunk is what comes before its first handshake message, and the rest. */
  function Leading(messages: seq<ServerMessage>): (n: nat)
    ensures n <= |messages| && NoHandshake(messages[..n]) && (n < |messages| ==> !messages[n].Other?)
  {
    if messages == [] || !messages[0].Other? then 0
    else
      var n := Leading(messages[1..]);
      assert forall i | 1 <= i < n + 1 :: messages[i] == messages[1..][i - 1];
      n + 1
  }

  /** Attempt `id` is connected, its promise has got the server, and listeners know. */
  predicate Completes(s: Snapshot, id: nat, expected: ServerId) {
    && s.lifecycle == Connected(id, false) && LastNote(s.notes).NowConnected?
    && id in s.promises && s.promises[id] == Resolved(expected, id)
  }

  predicate NoHandshake(messages: seq<ServerMessage>) {
    forall i | 0 <= i < |messages| :: messages[i].Other?
  }

  function Passes(messages: seq<ServerMessage>): seq<Act> {
    seq(|messages|, i requires 0 <= i < |messages| => Passed(messages[i]))
  }

  lemma {:induction false} NothingHandledOnceGone(s: Snapshot, messages: seq<ServerMessage>, throws: bool, expected: ServerId)
    requires s.lifecycle.Disconnected?
    ensures HandledAll(s, messages, throws, expected) == s
    decreases |messages|
  {
    if messages != [] {
      NothingHandledOnceGone(s, messages[1..], throws, expected);
    }
  }

  /** A connection passes on the messages of a chunk in order, and a handshake message among them ends
      it: everything before that message has been passed on, and nothing after it is. */
  lemma {:induction false} MessagesInOrder(
      s: Snapshot, before: seq<ServerMessage>, after: seq<ServerMessage>, throws: bool, expected: ServerId)
    requires s.lifecycle.Connected? && NoHandshake(before) && (after == [] || !after[0].Other?)
    ensures HandledAll(s, before + after, throws, expected) ==
            var heard := s.(received := s.received + before, trace := s.trace + Passes(before));
            if after == [] then heard else Dropped(heard, {})
    decreases |before|
  {
    var messages := before + after;
    if before == [] {
      assert messages == after && s.received + before == s.received && s.trace + Passes(before) == s.trace;
      if after != [] {
        NothingHandledOnceGone(Dropped(s, {}), after[1..], throws, expected);
      }
    } else {
      assert messages[1..] == before[1..] + after;
      var next := Pass(s, before[0]);
      MessagesInOrder(next, before[1..], after, throws, expected);
      assert next.received + before[1..] == s.received + before;
      assert Passes(before) == [Passed(before[0])] + Passes(before[1..]);
      assert next.trace + Passes(before[1..]) == s.trace + Passes(before);
    }
  }

  /** The first chunk of a connecting attempt: the attempt ends unless the chunk begins with the expected
      server's hello, and after an accepted hello the rest is handled as by a connection. */
  lemma FirstMessageDecides(s: Snapshot, messages: seq<ServerMessage>, throws: bool, expected: ServerId)
    requires s.lifecycle.Connecting? && s.lifecycle.transport && messages != []
    ensures HandledAll(s, messages, throws, expected) ==
            if messages[0] != Hello(expected) then Dropped(s, {})
            else if throws then Dropped(Greet(Linked(s)), {})
            else HandledAll(Completed(Greet(Linked(s)), expected), messages[1..], throws, expected)
  {
    if messages[0] != Hello(expected) || throws {
      NothingHandledOnceGone(Handled(s, messages[0], throws, expected), messages[1..], throws, expected);
    }
  }

  /** A chunk holding just the expected server's hello completes the attempt. */
  lemma HelloCompletes(s: Snapshot, expected: ServerId)
    requires s.lifecycle.Connecting? && s.lifecycle.transport
    ensures Completes(HandledAll(s, [Hello(expected)], false, expected), s.lifecycle.id, expected)
  {
    FirstMessageDecides(s, [Hello(expected)], false, expected);
  }

  /** The attempt survives a chunk exactly when the chunk holds one handshake message, the expected
      server's hello at its beginning, and `onHandshake` does not throw. */
  lemma SurvivesExactly(s: Snapshot, messages: seq<ServerMessage>, throws: bool, expected: ServerId)
    requires s.lifecycle.Connecting? && s.lifecycle.transport && messages != []
    ensures Active(HandledAll(s, messages, throws, expected).lifecycle) <==>
            messages[0] == Hello(expected) && !throws && NoHandshake(messages[1..])
  {
    FirstMessageDecides(s, messages, throws, expected);
    var rest := messages[1..];
    var n := Leading(rest);
    assert rest == rest[..n] + rest[n..];
    MessagesInOrder(Completed(Greet(Linked(s)), expected), rest[..n], rest[n..], throws, expected);
    assert NoHandshake(rest) <==> n == |rest|;
  }

  class Connection {
    const serverId: ServerId

    var lifecycle: Lifecycle
    var stamp: nat                       // identity of the current lifecycle object
    var sequence: nat

    var promises: map<nat, Settlement>
    var opening: set<nat>                // attempts whose factory promise is unsettled
    var returned: set<nat>               // transports the factory has returned
    var closed: set<nat>                 // transports this client has closed
    ghost var terminal: set<nat>         // transports that reported close or error
    ghost var starting: set<nat>         // attempts whose factory a frame on the stack is about to call
    ghost var closing: set<nat>          // transports that a frame on the stack is about to close
    ghost var shaking: set<nat>          // lifecycle objects whose handshake a frame on the stack is completing
    ghost var notes: seq<Note>           // what `onStateChange` was told
    ghost var received: seq<ServerMessage>  // what was passed to `onMessage`
    ghost var trace: seq<Act>            // what the environment has seen
    ghost var taskStart: nat             // `sequence` when the current task of the event loop began

    ghost function Now(): Snapshot
      reads this
    {
      Snapshot(lifecycle, stamp, sequence, promises, opening, returned, closed, terminal,
               starting, closing, shaking, notes, received, trace, taskStart)
    }

    ghost predicate Valid()
      reads this
    {
      Consistent(Now(), serverId)
    }

    /** No frame is on the stack: between two tasks of the event loop. */
    ghost predicate AtRest()
      reads this
    {
      starting == {} && closing == {} && shaking == {}
    }

    constructor (expected: ServerId)
      ensures Valid() && AtRest() && promises == map[] && serverId == expected
    {
      serverId := expected;
      lifecycle, stamp, sequence, promises := Disconnected, 0, 0, map[];
      opening, returned, closed, terminal := {}, {}, {}, {};
      starting, closing, shaking := {}, {}, {};
      notes, received, trace, taskStart := [], [], [], 0;
    }

    predicate IsCurrent(id: nat)
      reads this
    {
      Active(lifecycle) && lifecycle.id == id
    }

    /** Any re-entrant use of this connection by the environment. */
    method Callback(depth: nat)
      requires Valid()
      modifies this
      ensures Valid() && Evolves(old(Now()), Now())
      ensures depth == 0 ==> Now() == old(Now())
      decreases depth, 0, 0
    {
      if depth == 0 {
        return;
      }
      var calls: nat := *;
      while calls > 0
        invariant Valid() && Evolves(old(Now()), Now())
      {
        label Before:
        var id: nat, choice: nat := *, *;
        if choice == 0 {
          var throws: bool := *;
          var _ := Connect(throws, depth - 1);
        } else if choice == 1 {
          Disconnect(depth - 1);
        } else if choice == 2 {
          FailAndClose({}, depth - 1);
        } else if choice == 3 {
          var throws: bool := *;
          var _ := Send(throws, depth - 1);
        } else if choice == 4 {
          var chunk: Option<seq<ServerMessage>> := *;
          var throws: bool := *;
          HandleData(id, chunk, throws, depth - 1);
        } else if choice == 5 && 1 <= id <= sequence {
          OnClose(id, depth - 1);
        } else if 1 <= id <= sequence {
          OnError(id, depth - 1);
        }
        EvolvesTransitively(old(Now()), old@Before(Now()), Now());
        calls := calls - 1;
      }
    }

    /** A call into the environment, which may use this connection again before it returns. */
    method Observed(act: Act, depth: nat)
      requires Valid()
      modifies this
      ensures Valid() && Evolves(old(Now()), Now())
      ensures depth == 0 ==> Now() == old(Now()).(trace := old(trace) + [act])
      decreases depth, 0, 1
    {
      TraceIsFree(Now(), serverId, act);
      hide Consistent, LegalNotes, Evolves;
      trace := trace + [act];
      label Called:
      Callback(depth);
      EvolvesTransitively(old(Now()), old@Called(Now()), Now());
    }

    /** `onStateChange`: record the notification, then let the listener run. */
    method Notify(note: Note, depth: nat)
      requires Consistent(Hears(Now(), note), serverId)
      modifies this
      ensures Valid() && Evolves(old(Hears(Now(), note)), Now()) && old(sequence) <= sequence
      ensures depth == 0 ==> Now() == old(Hears(Now(), note))
      decreases depth, 0, 1
    {
      notes, trace := notes + [note], trace + [Told(note)];
      Callback(depth);
    }

    /** Settle the promise of an attempt; it must not have been settled before. */
    method Settle(id: nat, settlement: Settlement)
      requires id in promises && promises[id].Pending? && !settlement.Pending?
      modifies this`promises, this`trace
      ensures promises == old(promises)[id := settlement] && trace == old(trace) + [Settled(id, settlement)]
    {
      promises, trace := promises[id := settlement], trace + [Settled(id, settlement)];
    }

    /** `#fail`; the transport of the current attempt, if it has one, has just `reported` its end or is
        about to be closed by the caller. */
    method Fail(ghost reported: set<nat>, depth: nat)
      requires Valid()
      requires forall t | HoldsTransport(lifecycle, t) :: t in closing || t in reported
      requires if Active(lifecycle) then reported <= {lifecycle.id} else reported == {}
      modifies this
      ensures Valid() && Evolves(old(Now()), Now()) && EndedIn(old(Now()), Now()) && reported <= terminal
      ensures depth == 0 ==> Now() == if old(Active(lifecycle)) then Ended(old(Now()), reported) else old(Now())
      decreases depth, 1
    {
      StaysConsistent(Now(), serverId);
      hide Consistent, LegalNotes, Evolves;
      if lifecycle.Disconnected? {
        return;
      }
      EndedIsConsistent(Now(), serverId, reported);
      EndedIsEvolution(Now(), serverId, reported);
      Retire(reported);
      assert Hears(Now(), NowDisconnected) == Ended(old(Now()), reported);
      hide Ended, Retired, Hears;
      Notify(NowDisconnected, depth);
      EndedEvolves(old(Now()), reported, Now());
    }

    /** The lifecycle is disconnected and the promise of its attempt, if it was pending, rejected. */
    method Retire(ghost reported: set<nat>)
      requires Active(lifecycle)
      requires Awaited(lifecycle, lifecycle.id) ==> lifecycle.id in promises && promises[lifecycle.id].Pending?
      modifies this`lifecycle, this`stamp, this`terminal, this`promises, this`trace
      ensures Now() == Retired(old(Now()), reported)
    {
      var previous := lifecycle;
      lifecycle, stamp, terminal := Disconnected, stamp + 1, terminal + reported;
      if Awaited(previous, previous.id) {
        Settle(previous.id, Rejected);
      }
    }

    /** `transport.close()`, which may call the transport's handlers before it returns. */
    method CloseTransport(t: nat, depth: nat)
      requires Consistent(Shut(Now(), t), serverId)
      modifies this
      ensures Valid() && Evolves(old(Now()), Now()) && t in closed
      ensures depth == 0 ==> Now() == Shut(old(Now()), t)
      decreases depth, 0, 1
    {
      closed, trace := closed + {t}, trace + [Closed(t)];
      label Closed:
      Callback(depth);
      EvolvesTransitively(old(Now()), old@Closed(Now()), Now());
    }

    /** `#failAndClose`: the transport is closed after the listeners have run. */
    method FailAndClose(ghost reported: set<nat>, depth: nat)
      requires Valid()
      requires if Active(lifecycle) then reported <= {lifecycle.id} else reported == {}
      modifies this
      ensures Valid() && Evolves(old(Now()), Now()) && EndedIn(old(Now()), Now()) && reported <= terminal
      ensures forall t | old(HoldsTransport(lifecycle, t)) :: t in closed
      ensures depth == 0 ==> Now() == Dropped(old(Now()), reported)
      decreases depth, 2
    {
      hide Consistent, LegalNotes, Evolves;
      if Active(lifecycle) && HoldsTransport(lifecycle, lifecycle.id) {
        var t := lifecycle.id;
        ghost var outer := closing;
        ClosingIsConsistent(Now(), serverId, t);
        closing := closing + {t};
        label Marked:
        Fail(reported, depth);
        ClosesAfter(old(Now()), old@Marked(Now()), Now(), serverId, t);
        closing := outer;
        label Restored:
        CloseTransport(t, depth);
        EndedStays(old(Now()), old@Restored(Now()), Now());
        EvolvesTransitively(old(Now()), old@Restored(Now()), Now());
      } else {
        Fail(reported, depth);
      }
    }

    /** `connect`; `None` is the promise that is rejected at once because a connection is active. */
    method Connect(throws: bool, depth: nat) returns (attempt: Option<nat>)
      requires Valid()
      modifies this
      ensures Valid() && Evolves(old(Now()), Now())
      ensures attempt.Some? <==> old(lifecycle).Disconnected?
      ensures attempt.Some? ==> attempt.value == old(sequence) + 1 <= sequence
      ensures attempt.Some? && !throws && depth == 0 ==>
                Now() == Called(Begun(old(Now())), attempt.value).(starting := old(starting))
      ensures attempt.Some? && throws ==> !IsCurrent(attempt.value)
      decreases depth, 6
    {
      StaysConsistent(Now(), serverId);
      hide Consistent, Evolves, LegalNotes, Begun, Called;
      if !lifecycle.Disconnected? {
        return None;
      }
      var id := NewAttempt(throws, depth);
      return Some(id);
    }

    /** The attempt that `connect` makes when none is active. */
    method NewAttempt(throws: bool, depth: nat) returns (id: nat)
      requires Valid() && lifecycle.Disconnected?
      modifies this
      ensures Valid() && Evolves(old(Now()), Now()) && id == old(sequence) + 1 <= sequence
      ensures !throws && depth == 0 ==> Now() == Called(Begun(old(Now())), id).(starting := old(starting))
      ensures throws ==> !IsCurrent(id)
      decreases depth, 5, 1
    {
      hide Consistent, Evolves, LegalNotes;
      StaysConsistent(Now(), serverId);
      BegunIsConsistent(Now(), serverId);
      ghost var told, outer := Begun(Now()), starting;
      id := Begin();
      AnnounceConnecting(id, throws, depth);
      StartedIsConsistent(Now(), serverId, id, outer);
      ConnectEvolves(old(Now()), told, Now());
      starting := outer;
    }

    method Begin() returns (id: nat)
      modifies this`sequence, this`promises, this`lifecycle, this`stamp, this`starting
      ensures Hears(Now(), NowConnecting) == Begun(old(Now())) && id == sequence == old(sequence) + 1
      ensures starting == old(starting) + {id}
    {
      sequence := sequence + 1;
      id := sequence;
      promises := promises[id := Pending];
      lifecycle, stamp, starting := Connecting(id, false), stamp + 1, starting + {id};
    }

    method AnnounceConnecting(id: nat, throws: bool, depth: nat)
      requires Consistent(Hears(Now(), NowConnecting), serverId) && taskStart < id <= sequence
      modifies this
      ensures Valid() && Evolves(old(Hears(Now(), NowConnecting)), Now())
      ensures starting == old(starting) && old(sequence) <= sequence
      ensures if throws then !IsCurrent(id) else id in opening
      ensures !throws && depth == 0 ==>
                Now() == Called(Hears(old(Now()), NowConnecting), id)
      decreases depth, 5, 0
    {
      hide Consistent, Evolves, LegalNotes;
      ghost var told := Hears(Now(), NowConnecting);
      Notify(NowConnecting, depth);
      label Told:
      EvolvedFrames(told, Now());
      StartOpening(id, throws, depth);
      EvolvesTransitively(told, old@Told(Now()), Now());
      EvolvedFrames(told, Now());
    }

    /** The synchronous part of `#openTransport`: call the factory, which may throw. */
    method StartOpening(id: nat, throws: bool, depth: nat)
      requires Valid() && taskStart < id <= sequence
      modifies this
      ensures Valid() && Evolves(old(Now()), Now()) && old(sequence) <= sequence
      ensures if throws then !IsCurrent(id) else id in opening
      ensures !throws && depth == 0 ==> Now() == Called(old(Now()), id)
      ensures throws && depth == 0 ==>
                if old(IsCurrent(id)) then EndedIn(old(Now()), Now())
                else Now() == old(Now()).(trace := old(trace) + [FactoryCalled(id)])
      decreases depth, 4
    {
      hide Consistent, LegalNotes, Evolves;
      Observed(FactoryCalled(id), depth);
      label Called:
      EvolvedFrames(old(Now()), Now());
      if !throws {
        OpeningIsConsistent(Now(), serverId, id);
        opening := opening + {id};
      } else if IsCurrent(id) {
        FreshHoldsNothing(Now(), serverId, id);
        Fail({}, depth);
      } else {
        StaysConsistent(Now(), serverId);
      }
      EvolvesTransitively(old(Now()), old@Called(Now()), Now());
      EvolvedFrames(old(Now()), Now());
    }

    method Disconnect(depth: nat)
      requires Valid()
      modifies this
      ensures Valid() && Evolves(old(Now()), Now()) && EndedIn(old(Now()), Now())
      ensures forall t | old(HoldsTransport(lifecycle, t)) :: t in closed
      decreases depth, 4
    {
      if lifecycle.Disconnected? {
        return;
      }
      FailAndClose({}, depth);
    }

    /** `send`: false when not connected; a transport that throws at once ends the connection. */
    method Send(throws: bool, depth: nat) returns (accepted: bool)
      requires Valid()
      modifies this
      ensures Valid() && Evolves(old(Now()), Now())
      ensures accepted <==> old(lifecycle).Connected?
      ensures !accepted ==> Now() == old(Now())
      ensures accepted && throws ==> !SameAttempt(old(lifecycle), lifecycle)
      ensures accepted && throws && depth == 0 ==> EndedIn(old(Now()), Now())
      ensures accepted && !throws && depth == 0 ==> Now() == old(Now())
      decreases depth, 4
    {
      if !lifecycle.Connected? {
        return false;
      }
      accepted := true;
      Callback(depth);
      label Called:
      if throws {
        FailAndClose({}, depth);
        EvolvesTransitively(old(Now()), old@Called(Now()), Now());
      }
    }

    /** The close event of the transport of attempt `id`; one of another attempt is only noted. */
    method OnClose(id: nat, depth: nat)
      requires Valid() && 1 <= id <= sequence
      modifies this
      ensures Valid() && Evolves(old(Now()), Now()) && id in terminal
      ensures if old(IsCurrent(id)) then EndedIn(old(Now()), Now())
              else Now() == old(Now()).(terminal := old(terminal) + {id})
      decreases depth, 4
    {
      hide Consistent, LegalNotes, Evolves;
      if IsCurrent(id) {
        Fail({id}, depth);
        assert terminal + {id} == terminal;
      } else {
        TerminalIsNoted(Now(), serverId, id);
      }
      terminal := terminal + {id};
    }

    /** The error event of the transport of attempt `id`; one of another attempt is only noted. */
    method OnError(id: nat, depth: nat)
      requires Valid() && 1 <= id <= sequence
      modifies this
      ensures Valid() && Evolves(old(Now()), Now()) && id in terminal
      ensures if old(IsCurrent(id)) then EndedIn(old(Now()), Now()) && (old(HoldsTransport(lifecycle, id)) ==> id in closed)
              else Now() == old(Now()).(terminal := old(terminal) + {id})
      decreases depth, 4
    {
      hide Consistent, LegalNotes, Evolves;
      if IsCurrent(id) {
        FailAndClose({id}, depth);
        assert terminal + {id} == terminal;
      } else {
        TerminalIsNoted(Now(), serverId, id);
      }
      terminal := terminal + {id};
    }

    /** While data of attempt `from` is handled, any other attempt was made during this very task,
        and so holds no transport. */
    ghost predicate OnlyFrom(from: nat)
      reads this
    {
      Active(lifecycle) && lifecycle.id <= taskStart ==> lifecycle.id == from
    }

    /** `#handleData`; `None` is a chunk the decoder rejects, and `throws` says that `onHandshake` throws. */
    method HandleData(id: nat, chunk: Option<seq<ServerMessage>>, throws: bool, depth: nat)
      requires Valid()
      modifies this
      ensures Valid() && Evolves(old(Now()), Now())
      ensures !old(IsCurrent(id)) ==> Now() == old(Now())
      ensures old(IsCurrent(id)) && (!old(HoldsTransport(lifecycle, id)) || chunk.None?) ==> EndedIn(old(Now()), Now())
      ensures old(IsCurrent(id)) && depth == 0 ==>
                Now() == if old(HoldsTransport(lifecycle, id)) && chunk.Some?
                         then HandledAll(old(Now()), chunk.value, throws, serverId) else Dropped(old(Now()), {})
      decreases depth, 7
    {
      StaysConsistent(Now(), serverId);
      hide Consistent, LegalNotes, Evolves, HandledAll, Dropped, EndedIn;
      if lifecycle.Disconnected? || lifecycle.id != id {
        return;
      }
      if (lifecycle.Connecting? && !lifecycle.transport) || chunk.None? {
        FailAndClose({}, depth);
        return;
      }
      HandleMessages(chunk.value, id, throws, depth);
    }

    /** The loop over the messages of a chunk; a message may end the connection. */
    method HandleMessages(messages: seq<ServerMessage>, from: nat, throws: bool, depth: nat)
      requires Valid() && OnlyFrom(from)
      modifies this
      ensures Valid() && Evolves(old(Now()), Now())
      ensures depth == 0 ==> Now() == HandledAll(old(Now()), messages, throws, serverId)
      decreases depth, 6
    {
      StaysConsistent(Now(), serverId);
      hide Consistent, LegalNotes, Evolves, Handled, Dropped, EndedIn;
      var i := 0;
      while i < |messages| && Active(lifecycle)
        invariant 0 <= i <= |messages|
        invariant Valid() && Evolves(old(Now()), Now()) && OnlyFrom(from)
        invariant depth == 0 ==>
                    HandledAll(Now(), messages[i..], throws, serverId) == HandledAll(old(Now()), messages, throws, serverId)
      {
        label Before:
        HandleMessage(messages[i], from, throws, depth);
        EvolvesTransitively(old(Now()), old@Before(Now()), Now());
        i := i + 1;
      }
      if lifecycle.Disconnected? {
        NothingHandledOnceGone(Now(), messages[i..], throws, serverId);
      }
    }

    /** `#handleMessage`, for a message that the transport of attempt `from` delivered. */
    method HandleMessage(message: ServerMessage, from: nat, throws: bool, depth: nat)
      requires Valid() && OnlyFrom(from)
      modifies this
      ensures Valid() && Evolves(old(Now()), Now()) && OnlyFrom(from)
      ensures old(lifecycle).Connecting? && message != Hello(serverId) ==> EndedIn(old(Now()), Now())
      ensures old(lifecycle).Connected? && !message.Other? ==> EndedIn(old(Now()), Now())
      ensures old(lifecycle) == Connecting(from, true) && message == Hello(serverId) && throws ==> !IsCurrent(from)
      ensures old(lifecycle) == Connecting(from, true) && message == Hello(serverId) && !throws && depth == 0 ==>
                Completes(Now(), from, serverId)
      ensures depth == 0 ==> Now() == Handled(old(Now()), message, throws, serverId)
      decreases depth, 5
    {
      if lifecycle.Connecting? {
        if !message.Hello? || message.serverId != serverId || !lifecycle.transport {
          FailAndClose({}, depth);
        } else {
          CompleteHandshake(message.serverId, from, throws, depth);
        }
      } else if lifecycle.Connected? {
        if message.Other? {
          PassOn(message, depth);
        } else {
          FailAndClose({}, depth);
        }
      }
    }

    /** `onMessage`: record the message, then let the listener run. */
    method PassOn(message: ServerMessage, depth: nat)
      requires Valid()
      modifies this
      ensures Valid() && Evolves(old(Now()), Now())
      ensures depth == 0 ==> Now() == Pass(old(Now()), message)
      decreases depth, 0, 1
    {
      received, trace := received + [message], trace + [Passed(message)];
      label Recorded:
      Callback(depth);
      EvolvesTransitively(old(Now()), old@Recorded(Now()), Now());
    }

    /** The accepted hello: `onHandshake` runs first, and anything it does may end the attempt. */
    method CompleteHandshake(hello: ServerId, from: nat, throws: bool, depth: nat)
      requires Valid() && OnlyFrom(from) && lifecycle.Connecting? && lifecycle.transport && hello == serverId
      modifies this
      ensures Valid() && Evolves(old(Now()), Now())
      ensures throws ==> !IsCurrent(from)
      ensures depth == 0 ==> Now() == Handled(old(Now()), Hello(hello), throws, serverId)
      ensures from in promises && (promises[from].Resolved? ==> lifecycle == Connected(from, false))
      decreases depth, 4
    {
      assert HoldsTransport(lifecycle, lifecycle.id);
      LinkedIsConsistent(Now(), serverId);
      ghost var outer := shaking;
      assert lifecycle.id == from && LastNote(notes).NowConnecting?;
      hide Consistent, LegalNotes, Evolves, Grows;
      var id, connected := lifecycle.id, stamp + 1;
      lifecycle, stamp, shaking := Connected(id, true), connected, shaking + {connected};
      label Shaking:
      HandshakeIsHandled(old(Now()), Now(), throws, serverId);
      hide Handled, Dropped, Completed, Linked;
      RunHandshake(hello, from, throws, depth);
      LinkedEvolves(old(Now()), old@Shaking(Now()), Now(), serverId);
      shaking := outer;
    }

    /** `throws` says that `onHandshake` throws. */
    method RunHandshake(hello: ServerId, from: nat, throws: bool, depth: nat)
      requires Valid() && hello == serverId && lifecycle == Connected(from, true) && LastNote(notes).NowConnecting?
      modifies this
      ensures Valid() && Grows(old(Now()), Now()) && old(stamp) < stamp
      ensures throws ==> !IsCurrent(from)
      ensures depth == 0 ==>
                Now() == if throws then Dropped(Greet(old(Now())), {}) else Completed(Greet(old(Now())), serverId)
      ensures from in promises && (promises[from].Resolved? ==> lifecycle == Connected(from, false))
      decreases depth, 3
    {
      var connected := stamp;
      Observed(Greeted, depth);
      label Shaken:
      if stamp != connected {
        return;
      }
      if throws {
        FailAndClose({}, depth);
      } else {
        AnnounceConnected(hello, from, depth);
      }
      GrowsTransitively(old(Now()), old@Shaken(Now()), Now());
    }

    /** `onStateChange`, and then the promise if the listeners left the connection alone. */
    method AnnounceConnected(hello: ServerId, from: nat, depth: nat)
      requires Valid() && hello == serverId && LastNote(notes).NowConnecting?
      requires lifecycle == Connected(from, true)
      modifies this
      ensures Valid() && Grows(old(Now()), Now()) && old(stamp) < stamp
      ensures depth == 0 ==> Now() == Completed(old(Now()), serverId)
      ensures from in promises && (promises[from].Resolved? ==> lifecycle == Connected(from, false))
      decreases depth, 2
    {
      hide Consistent, LegalNotes, Evolves;
      var connected := stamp;
      ghost var told := Hears(Now(), NowConnected);
      AnnouncedIsConsistent(Now(), serverId);
      Notify(NowConnected, depth);
      label Told:
      OutcomeOfTelling(told, Now(), from);
      hide Grows;
      if stamp == connected {
        Resolve(hello, from);
        GrowsTransitively(told, old@Told(Now()), Now());
      }
      GrowsPastNote(old(Now()), NowConnected, Now());
    }

    /** The promise of an attempt gets the server that it has reached. */
    method Resolve(hello: ServerId, from: nat)
      requires Valid() && hello == serverId && lifecycle == Connected(from, true) && LastNote(notes).NowConnected?
      modifies this`lifecycle, this`stamp, this`promises, this`trace
      ensures Valid() && Grows(old(Now()), Now())
      ensures Now() == old(Now()).(lifecycle := Connected(from, false), stamp := old(stamp) + 1,
                                   promises := old(promises)[from := Resolved(hello, from)],
                                   trace := old(trace) + [Settled(from, Resolved(hello, from))])
    {
      HandshakeDoneIsConsistent(Now(), serverId, from);
      hide Consistent, LegalNotes, Grows;
      lifecycle, stamp := Connected(from, false), stamp + 1;
      Settle(from, Resolved(hello, from));
    }

    /** The rest of `#openTransport`, once the factory's promise is fulfilled. */
    method FactoryReturned(id: nat, throws: bool, depth: nat)
      requires Valid() && AtRest() && id in opening && taskStart == sequence
      modifies this
      ensures Valid() && AtRest() && Progresses(old(Now()), Now()) && taskStart == old(taskStart)
      ensures returned == old(returned) + {id}
      ensures !old(IsCurrent(id)) ==> id in closed
      ensures old(IsCurrent(id)) && throws ==> !IsCurrent(id)
      ensures old(IsCurrent(id)) && !throws && depth == 0 ==> lifecycle == Connecting(id, true)
    {
      if lifecycle.Connecting? && lifecycle.id == id {
        AdoptTransport(id, throws, depth);
      } else {
        RefusedIsConsistent(Now(), serverId, id);
        hide Consistent, LegalNotes, Evolves, Grows, Progresses;
        opening, returned := opening - {id}, returned + {id};
        label Changed:
        CloseTransport(id, depth);
        EvolvesMeansProgress(old(Now()), old@Changed(Now()), Now());
      }
    }

    /** The transport of the current attempt is kept, and the client hello is sent. */
    method AdoptTransport(id: nat, throws: bool, depth: nat)
      requires Valid() && AtRest() && id in opening && taskStart == sequence
      requires lifecycle.Connecting? && lifecycle.id == id
      modifies this
      ensures Valid() && AtRest() && Progresses(old(Now()), Now()) && taskStart == old(taskStart)
      ensures returned == old(returned) + {id}
      ensures if throws then !IsCurrent(id) else depth == 0 ==> lifecycle == Connecting(id, true)
    {
      AdoptedIsConsistent(Now(), serverId, id);
      hide Consistent, LegalNotes, Evolves, Grows, Progresses;
      opening, returned := opening - {id}, returned + {id};
      lifecycle, stamp := Connecting(id, true), stamp + 1;
      label Adopted:
      SendHello(id, throws, depth);
      EvolvesMeansProgress(old(Now()), old@Adopted(Now()), Now());
    }

    /** The synchronous part of sending the client hello. */
    method SendHello(id: nat, throws: bool, depth: nat)
      requires Valid()
      modifies this
      ensures Valid() && Evolves(old(Now()), Now())
      ensures throws ==> !IsCurrent(id)
      ensures !throws && depth == 0 ==> Now() == old(Now())
    {
      Callback(depth);
      label Called:
      if throws && IsCurrent(id) {
        FailAndClose({}, depth);
        EvolvesTransitively(old(Now()), old@Called(Now()), Now());
      }
    }

    /** The factory's promise is rejected. */
    method FactoryFailed(id: nat, depth: nat)
      requires Valid() && AtRest() && id in opening
      modifies this
      ensures Valid() && AtRest() && Progresses(old(Now()), Now())
      ensures returned == old(returned)
      ensures if old(IsCurrent(id)) then EndedIn(old(Now()), Now())
              else Now() == old(Now()).(opening := old(opening) - {id})
    {
      if IsCurrent(id) {
        Fail({}, depth);
      }
      opening := opening - {id};
    }

    /** The promise of a send on the transport of attempt `id` is rejected. */
    method SendFailed(id: nat, depth: nat)
      requires Valid() && AtRest()
      modifies this
      ensures Valid() && AtRest() && Progresses(old(Now()), Now())
      ensures returned == old(returned)
      ensures if old(HoldsTransport(lifecycle, id)) then EndedIn(old(Now()), Now()) && id in closed
              else Now() == old(Now())
    {
      if HoldsTransport(lifecycle, id) {
        FailAndClose({}, depth);
      }
    }

    /** One task of the event loop; a settled factory promise or failed send, or a call or event from outside. */
    method Task()
      requires Valid() && AtRest()
      modifies this
      ensures Valid() && AtRest() && Progresses(old(Now()), Now())
    {
      var depth: nat, id: nat, choice: nat := *, *, *;
      taskStart := sequence;
      if choice == 0 && id in opening {
        var throws: bool := *;
        FactoryReturned(id, throws, depth);
      } else if choice == 1 && id in opening {
        FactoryFailed(id, depth);
      } else if choice == 2 {
        SendFailed(id, depth);
      } else {
        Callback(depth);
      }
    }

    /** Any number of tasks, in any order. */
    method EventLoop(tasks: nat)
      requires Valid() && AtRest()
      modifies this
      ensures Valid() && AtRest() && Progresses(old(Now()), Now())
    {
      for i := 0 to tasks
        invariant Valid() && AtRest() && Progresses(old(Now()), Now())
      {
        Task();
      }
    }
  }

  /** A client's whole life: every promise and every transport is accounted for when it is at rest. */
  method Run(expected: ServerId, tasks: nat) returns (c: Connection)
    ensures fresh(c) && Consistent(c.Now(), expected) && c.AtRest()
    ensures forall id: nat :: (id in c.promises <==> 1 <= id <= c.sequence)
    ensures forall id | id in c.promises ::
              match c.promises[id]
              case Pending => c.lifecycle.Connecting? && c.lifecycle.id == id
              case Resolved(serverId, origin) => serverId == expected && origin == id
              case Rejected => !(c.lifecycle.Connecting? && c.lifecycle.id == id)
    ensures c.lifecycle.Connected? ==> c.promises[c.lifecycle.id] == Resolved(expected, c.lifecycle.id)
    ensures forall t | t in c.returned :: HoldsTransport(c.lifecycle, t) || t in c.closed || t in c.terminal
    ensures forall t | HoldsTransport(c.lifecycle, t) :: t in c.returned && t !in c.closed && t !in c.terminal
    ensures c.lifecycle.Connecting? && !c.lifecycle.transport ==> c.lifecycle.id in c.opening
    ensures LegalNotes(c.notes)
    ensures LastNote(c.notes) ==
            match c.lifecycle
            case Disconnected => NowDisconnected
            case Connecting(_, _) => NowConnecting
            case Connected(_, _) => NowConnected
  {
    c := new Connection(expected);
    c.EventLoop(tasks);
  }
}
