/** The byte transport over a Unix-domain socket: a bounded queue of writes, and the socket's events. */
module UnixTransport {
  import opened Wrappers

  /** A write waits for its predecessors, then is at the socket, then settles.  At the socket, it needs
      its callback, and a drain event if the socket asked for one; `requiresDrain` is not known while the
      socket's `write` has not returned. */
  datatype Stage =
    | Waiting
    | Writing(called: bool, drained: bool, requiresDrain: Option<bool>)
    | Resolved
    | Rejected

  /** `released` says that the write's bytes no longer count as pending. */
  datatype Write = Write(bytes: seq<int>, stage: Stage, released: bool)

  predicate Ready(s: Stage) {
    s.Writing? && s.called && s.requiresDrain.Some? && (s.requiresDrain.value ==> s.drained)
  }

  predicate Settled(s: Stage) {
    s.Resolved? || s.Rejected?
  }

  /** `finish`. */
  function Finish(s: Stage): Stage {
    if Ready(s) then Resolved else s
  }

  /** `fail`, which does nothing to a settled write. */
  function Fail(s: Stage): Stage {
    if Settled(s) then s else Rejected
  }

  function PendingSize(w: Write): nat {
    if w.released then 0 else |w.bytes|
  }

  function PendingTotal(writes: seq<Write>): nat {
    if writes == [] then 0 else PendingTotal(writes[..|writes| - 1]) + PendingSize(writes[|writes| - 1])
  }

  lemma {:induction false} PendingTotalUpdate(writes: seq<Write>, i: nat, w: Write)
    requires i < |writes|
    ensures PendingTotal(writes[i := w]) + PendingSize(writes[i]) == PendingTotal(writes) + PendingSize(w)
  {
    var last := |writes| - 1;
    if i < last {
      assert writes[i := w][..last] == writes[..last][i := w];
      PendingTotalUpdate(writes[..last], i, w);
    } else {
      assert writes[i := w][..last] == writes[..last];
    }
  }

  lemma PendingTotalAppend(writes: seq<Write>, w: Write)
    ensures PendingTotal(writes + [w]) == PendingTotal(writes) + PendingSize(w)
  {
    assert (writes + [w])[..|writes|] == writes;
  }

  /** Writes go to the socket one after the other: one begins when its predecessors are done. */
  ghost predicate InTurn(writes: seq<Write>) {
    && (forall i, j | 0 <= i < j < |writes| && !writes[j].stage.Waiting? :: writes[i].released)
    && (forall i | 0 <= i < |writes| && writes[i].released :: Settled(writes[i].stage))
    && (forall i | 0 <= i < |writes| :: !Ready(writes[i].stage))
  }

  /** What the socket was given: writes that have begun, in the order in which they were sent. */
  ghost predicate Given(wire: seq<nat>, writes: seq<Write>) {
    && (forall k | 0 <= k < |wire| :: wire[k] < |writes| && !writes[wire[k]].stage.Waiting?)
    && (forall k, m | 0 <= k < m < |wire| :: wire[k] < wire[m])
    && (forall i | 0 <= i < |writes| && (writes[i].stage.Writing? || writes[i].stage.Resolved?) :: i in wire)
  }

  predicate StageAdvances(a: Stage, b: Stage) {
    && (Settled(a) ==> b == a)
    && (a.Writing? ==> !b.Waiting?)
  }

  /** Bytes are those accepted, and a write that has settled stays as it is. */
  ghost predicate Advances(a: seq<Write>, b: seq<Write>) {
    |a| <= |b| && forall i | 0 <= i < |a| ::
      b[i].bytes == a[i].bytes && StageAdvances(a[i].stage, b[i].stage) && (a[i].released ==> b[i].released)
  }

  ghost predicate Turn(writes: seq<Write>, i: nat) {
    i < |writes| && forall j | 0 <= j < i :: writes[j].released
  }

  function WithStage(writes: seq<Write>, i: nat, stage: Stage): seq<Write>
    requires i < |writes|
  {
    writes[i := writes[i].(stage := stage)]
  }

  lemma StageKeeps(writes: seq<Write>, wire: seq<nat>, i: nat, stage: Stage)
    requires InTurn(writes) && Given(wire, writes) && Turn(writes, i) && !Ready(stage) && !stage.Waiting?
    requires StageAdvances(writes[i].stage, stage) && (stage.Writing? || stage.Resolved? ==> i in wire)
    ensures var after := WithStage(writes, i, stage);
            && InTurn(after) && Given(wire, after) && Advances(writes, after)
            && PendingTotal(after) == PendingTotal(writes)
  {
    PendingTotalUpdate(writes, i, writes[i].(stage := stage));
  }

  lemma HandOverKeeps(writes: seq<Write>, wire: seq<nat>, i: nat)
    requires InTurn(writes) && Given(wire, writes) && Turn(writes, i) && writes[i].stage.Waiting?
    ensures var after := WithStage(writes, i, Writing(false, false, None));
            && InTurn(after) && Given(wire + [i], after) && Advances(writes, after)
            && PendingTotal(after) == PendingTotal(writes) && Turn(after, i)
  {
    assert forall k | 0 <= k < |wire| :: wire[k] < i by {
      assert forall j | i < j < |writes| :: writes[j].stage.Waiting?;
    }
    PendingTotalUpdate(writes, i, writes[i].(stage := Writing(false, false, None)));
  }

  lemma ReleaseKeeps(writes: seq<Write>, wire: seq<nat>, i: nat)
    requires InTurn(writes) && Given(wire, writes) && i < |writes| && Settled(writes[i].stage) && !writes[i].released
    ensures var after := writes[i := writes[i].(released := true)];
            && InTurn(after) && Given(wire, after) && Advances(writes, after)
            && PendingTotal(after) + |writes[i].bytes| == PendingTotal(writes)
  {
    PendingTotalUpdate(writes, i, writes[i].(released := true));
  }

  lemma BegunIsInTurn(writes: seq<Write>, i: nat)
    requires InTurn(writes) && i < |writes|
    requires !writes[i].stage.Waiting? || (i > 0 ==> writes[i - 1].released)
    ensures Turn(writes, i)
  {
  }

  lemma AdvancesTransitively(a: seq<Write>, b: seq<Write>, c: seq<Write>)
    requires Advances(a, b) && Advances(b, c)
    ensures Advances(a, c)
  {
  }

  lemma StageTwice(writes: seq<Write>, i: nat, a: Stage, b: Stage)
    requires i < |writes|
    ensures WithStage(WithStage(writes, i, a), i, b) == WithStage(writes, i, b)
  {
  }

  // ---------- What the socket has said ----------

  /** What the socket has said about each write before it settled: whether its `write` asked for a drain,
      whether it called back without an error, whether it drained, and whether it failed. */
  datatype Signals = Signals(asked: map<nat, bool>, called: set<nat>, drained: set<nat>, failed: set<nat>)

  const NO_SIGNALS := Signals(map[], {}, {}, {})

  /** A write is done when its `write` has returned, it was called back, and it drained if that was asked for. */
  predicate Done(s: Signals, i: nat) {
    i in s.called && i in s.asked && (s.asked[i] ==> i in s.drained)
  }

  predicate Silent(s: Signals, i: nat) {
    i !in s.asked && i !in s.called && i !in s.drained && i !in s.failed
  }

  /** The stage of a write is what the socket has said about it. */
  predicate Justified(stage: Stage, s: Signals, i: nat) {
    && (stage.Resolved? <==> Done(s, i)) && (stage.Rejected? <==> i in s.failed)
    && match stage
       case Waiting => Silent(s, i)
       case Writing(called, drained, requiresDrain) =>
         (called <==> i in s.called) && (drained <==> i in s.drained) && requiresDrain == Lookup(s.asked, i)
       case _ => true
  }

  predicate JustifiedAt(writes: seq<Write>, s: Signals, i: nat) {
    if i < |writes| then Justified(writes[i].stage, s, i) else Silent(s, i)
  }

  ghost predicate AllJustified(writes: seq<Write>, s: Signals) {
    forall i: nat :: JustifiedAt(writes, s, i)
  }

  lemma OneMoreIsJustified(writes: seq<Write>, s: Signals, bytes: seq<int>)
    requires AllJustified(writes, s)
    ensures AllJustified(writes + [Write(bytes, Waiting, false)], s)
  {
    var more := writes + [Write(bytes, Waiting, false)];
    forall j: nat ensures JustifiedAt(more, s, j) {
      assert JustifiedAt(writes, s, j);
    }
  }

  lemma ReleasedIsJustified(writes: seq<Write>, s: Signals, i: nat)
    requires AllJustified(writes, s) && i < |writes|
    ensures AllJustified(writes[i := writes[i].(released := true)], s)
  {
    var after := writes[i := writes[i].(released := true)];
    forall j: nat ensures JustifiedAt(after, s, j) {
      assert JustifiedAt(writes, s, j);
    }
  }

  predicate SameAt(a: Signals, b: Signals, i: nat) {
    && Lookup(a.asked, i) == Lookup(b.asked, i) && (i in a.called <==> i in b.called)
    && (i in a.drained <==> i in b.drained) && (i in a.failed <==> i in b.failed)
  }

  /** What the socket says about one write concerns only that write. */
  lemma StageIsJustified(writes: seq<Write>, a: Signals, i: nat, stage: Stage, b: Signals)
    requires i < |writes| && AllJustified(writes, a) && Justified(stage, b, i)
    requires forall j: nat | j != i :: SameAt(a, b, j)
    ensures AllJustified(WithStage(writes, i, stage), b)
  {
    forall j: nat ensures JustifiedAt(WithStage(writes, i, stage), b, j) {
      assert JustifiedAt(writes, a, j) && (j != i ==> SameAt(a, b, j));
    }
  }

  /** The socket's `write` of write `i`, or the refusal to call it. */
  function Written(s: Signals, i: nat, given: bool, throws: bool, callsBack: Option<bool>, accepted: bool): Signals {
    if !given || throws || callsBack == Some(false) then s.(failed := s.failed + {i})
    else s.(asked := s.asked[i := !accepted], called := if callsBack.Some? then s.called + {i} else s.called)
  }

  /** Where the socket's `write` leaves a write when it returns. */
  function WrittenStage(throws: bool, callsBack: Option<bool>, accepted: bool): (stage: Stage)
    ensures stage.Resolved? <==> !throws && callsBack.Some? && callsBack.value && accepted
    ensures stage.Rejected? <==> throws || (callsBack.Some? && !callsBack.value)
    ensures !Ready(stage) && !stage.Waiting?
  {
    if throws || (callsBack.Some? && !callsBack.value) then Rejected
    else Finish(Writing(callsBack.Some?, false, Some(!accepted)))
  }

  lemma WrittenIsJustified(s: Signals, i: nat, given: bool, throws: bool, callsBack: Option<bool>, accepted: bool)
    requires Silent(s, i)
    ensures var said := Written(s, i, given, throws, callsBack, accepted);
            && Justified(if given then WrittenStage(throws, callsBack, accepted) else Rejected, said, i)
            && forall j: nat | j != i :: SameAt(s, said, j)
  {
  }

  function CalledBack(s: Signals, i: nat, ok: bool): Signals {
    if ok then s.(called := s.called + {i}) else s.(failed := s.failed + {i})
  }

  function FirstUnreleased(writes: seq<Write>): (i: nat)
    requires exists i :: 0 <= i < |writes| && !writes[i].released
    ensures i < |writes| && !writes[i].released && forall j | 0 <= j < i :: writes[j].released
  {
    if !writes[0].released then 0 else
    assert forall j | 1 <= j < |writes| :: writes[1..][j - 1] == writes[j];
    1 + FirstUnreleased(writes[1..])
  }

  class UnixByteTransport {
    const maxPendingBytes: nat
    var pendingBytes: nat
    var closed: bool
    var writes: seq<Write>
    ghost var wire: seq<nat>
    ghost var signals: Signals

    ghost predicate Valid()
      reads this
    {
      && pendingBytes == PendingTotal(writes) && pendingBytes <= maxPendingBytes
      && InTurn(writes) && Given(wire, writes) && AllJustified(writes, signals)
    }

    twostate predicate Extends()
      reads this
    {
      Advances(old(writes), writes) && old(wire) <= wire && (old(closed) ==> closed)
    }

    constructor (maxPendingBytes: nat)
      ensures Valid() && writes == [] && wire == [] && !closed && this.maxPendingBytes == maxPendingBytes
      ensures signals == NO_SIGNALS
    {
      this.maxPendingBytes := maxPendingBytes;
      pendingBytes, closed, writes, wire, signals := 0, false, [], [], NO_SIGNALS;
    }

    /** `send`: a refused chunk is a promise that is rejected at once. */
    method Send(bytes: seq<int>) returns (accepted: bool)
      requires Valid()
      modifies this
      ensures Valid() && Extends() && closed == old(closed) && wire == old(wire) && signals == old(signals)
      ensures accepted == (!old(closed) && PendingTotal(old(writes)) + |bytes| <= maxPendingBytes)
      ensures writes == if accepted then old(writes) + [Write(bytes, Waiting, false)] else old(writes)
    {
      if closed || pendingBytes + |bytes| > maxPendingBytes {
        return false;
      }
      pendingBytes := pendingBytes + |bytes|;
      PendingTotalAppend(writes, Write(bytes, Waiting, false));
      OneMoreIsJustified(writes, signals, bytes);
      hide AllJustified;
      writes := writes + [Write(bytes, Waiting, false)];
      return true;
    }

    /** The write chain reaches write `i`, whose predecessor has been released. */
    predicate Next(i: nat)
      reads this
    {
      i < |writes| && writes[i].stage.Waiting? && (i > 0 ==> writes[i - 1].released)
    }

    /** Give a write that has had its turn a new stage; its bytes stay pending. */
    method Enter(i: nat, stage: Stage, ghost said: Signals)
      requires Justified(stage, said, i) && forall j: nat | j != i :: SameAt(signals, said, j)
      requires Valid() && Turn(writes, i) && !Ready(stage) && !stage.Waiting?
      requires StageAdvances(writes[i].stage, stage)
      requires stage.Writing? || stage.Resolved? ==> i in wire
      modifies this`writes, this`signals
      ensures Valid() && Advances(old(writes), writes) && writes == WithStage(old(writes), i, stage) && signals == said
    {
      StageIsJustified(writes, signals, i, stage, said);
      signals := said;
      hide InTurn, Given, Advances, AllJustified;
      StageKeeps(writes, wire, i, stage);
      writes := writes[i := writes[i].(stage := stage)];
    }

    /** `#write`: the socket may be unwritable, may throw, may call back at once with or without an error,
        and may ask to be drained. */
    method Begin(i: nat, writable: bool, throws: bool, callsBack: Option<bool>, accepted: bool)
      requires Valid() && Next(i)
      modifies this`writes, this`wire, this`signals
      ensures Valid() && Advances(old(writes), writes)
      ensures writes ==
              WithStage(old(writes), i, if closed || !writable then Rejected else WrittenStage(throws, callsBack, accepted))
      ensures wire == if closed || !writable then old(wire) else old(wire) + [i]
      ensures signals == Written(old(signals), i, !closed && writable, throws, callsBack, accepted)
    {
      assert JustifiedAt(writes, signals, i);
      WrittenIsJustified(signals, i, !closed && writable, throws, callsBack, accepted);
      hide InTurn, Given, Advances, AllJustified, Justified, SameAt, Written, Silent;
      ghost var said := Written(signals, i, !closed && writable, throws, callsBack, accepted);
      BegunIsInTurn(writes, i);
      if closed || !writable {
        Enter(i, Rejected, said);
        return;
      }
      HandOver(i);
      label HandedOver:
      var stage := WrittenStage(throws, callsBack, accepted);
      Enter(i, stage, said);
      AdvancesTransitively(old(writes), old@HandedOver(writes), writes);
      StageTwice(old(writes), i, Writing(false, false, None), stage);
    }

    /** The socket's `write` is called. */
    method HandOver(i: nat)
      requires Valid() && Turn(writes, i) && writes[i].stage.Waiting?
      modifies this`writes, this`wire
      ensures Valid() && Advances(old(writes), writes) && wire == old(wire) + [i] && Turn(writes, i)
      ensures writes == WithStage(old(writes), i, Writing(false, false, None))
    {
      assert JustifiedAt(writes, signals, i);
      StageIsJustified(writes, signals, i, Writing(false, false, None), signals);
      hide InTurn, Given, Advances, AllJustified;
      HandOverKeeps(writes, wire, i);
      wire := wire + [i];
      writes := WithStage(writes, i, Writing(false, false, None));
    }

    /** The socket's callback for write `i`; a settled write ignores it. */
    method CallBack(i: nat, ok: bool)
      requires Valid() && i < |writes| && !writes[i].stage.Waiting?
      modifies this`writes, this`signals
      ensures Valid() && Extends()
      ensures var stage := old(writes)[i].stage;
              var after := if Settled(stage) then stage
                           else if !ok then Rejected
                           else if stage.requiresDrain == Some(false) || (stage.requiresDrain.Some? && stage.drained) then Resolved
                           else stage.(called := true);
              && writes == WithStage(old(writes), i, after)
              && signals == if Settled(stage) then old(signals) else CalledBack(old(signals), i, ok)
    {
      BegunIsInTurn(writes, i);
      assert JustifiedAt(writes, signals, i);
      hide AllJustified, InTurn, Given;
      var stage := writes[i].stage;
      if Settled(stage) {
        assert writes == writes[i := writes[i].(stage := stage)];
      } else if !ok {
        Enter(i, Fail(stage), CalledBack(signals, i, ok));
      } else {
        IsGiven(i);
        Enter(i, Finish(stage.(called := true)), CalledBack(signals, i, ok));
      }
    }

    /** A write at the socket has been given to it. */
    lemma IsGiven(i: nat)
      requires Valid() && i < |writes| && writes[i].stage.Writing?
      ensures i in wire && !Ready(writes[i].stage)
    {
    }

    /** The socket is drained; only a write that is waiting for this listens. */
    method Drain(i: nat)
      requires Valid() && i < |writes| && writes[i].stage.Writing? && writes[i].stage.requiresDrain == Some(true)
      modifies this`writes, this`signals
      ensures Valid() && Extends()
      ensures var stage := old(writes)[i].stage;
              writes == WithStage(old(writes), i, if stage.called then Resolved else stage.(drained := true))
      ensures signals == old(signals).(drained := old(signals).drained + {i})
    {
      BegunIsInTurn(writes, i);
      assert JustifiedAt(writes, signals, i);
      hide AllJustified, InTurn, Given;
      IsGiven(i);
      Enter(i, Finish(writes[i].stage.(drained := true)), signals.(drained := signals.drained + {i}));
    }

    /** The socket closes under write `i`. */
    method SocketClosed(i: nat)
      requires Valid() && i < |writes| && writes[i].stage.Writing?
      modifies this`writes, this`signals
      ensures Valid() && Extends()
      ensures writes == WithStage(old(writes), i, Rejected)
      ensures signals == old(signals).(failed := old(signals).failed + {i})
    {
      BegunIsInTurn(writes, i);
      assert JustifiedAt(writes, signals, i);
      hide AllJustified, InTurn, Given;
      Enter(i, Rejected, signals.(failed := signals.failed + {i}));
    }

    /** `finally`: the bytes of a settled write are no longer pending. */
    method Release(i: nat)
      requires Valid() && i < |writes| && Settled(writes[i].stage) && !writes[i].released
      modifies this`writes, this`pendingBytes
      ensures Valid() && Extends()
      ensures pendingBytes == old(pendingBytes) - |old(writes)[i].bytes|
      ensures writes == old(writes)[i := old(writes)[i].(released := true)]
    {
      ReleasedIsJustified(writes, signals, i);
      hide InTurn, Given, Advances, AllJustified;
      ReleaseKeeps(writes, wire, i);
      pendingBytes := pendingBytes - |writes[i].bytes|;
      writes := writes[i := writes[i].(released := true)];
    }

    /** The writes never get stuck: the first one that still counts is settled, at the socket, or may begin. */
    lemma SomeWriteGoesOn()
      requires Valid() && exists i :: 0 <= i < |writes| && !writes[i].released
      ensures exists i ::
                && 0 <= i < |writes| && !writes[i].released && (forall j | 0 <= j < i :: writes[j].released)
                && (Settled(writes[i].stage) || writes[i].stage.Writing? || Next(i))
    {
      var i := FirstUnreleased(writes);
      assert i > 0 ==> writes[i - 1].released;
    }

    method Close()
      requires Valid()
      modifies this`closed
      ensures Valid() && Extends() && closed
    {
      closed := true;
    }

    method Event()
      requires Valid()
      modifies this
      ensures Valid() && Extends()
    {
      hide InTurn, Given, AllJustified;
      var choice: nat, i: nat, flag: bool := *, *, *;
      if choice == 0 {
        var bytes: seq<int> := *;
        var _ := Send(bytes);
      } else if choice == 1 {
        Close();
      } else if i < |writes| {
        WriteEvent(choice, i, flag);
      }
    }

    method WriteEvent(choice: nat, i: nat, flag: bool)
      requires Valid() && i < |writes|
      modifies this
      ensures Valid() && Extends()
    {
      hide InTurn, Given, AllJustified;
      var stage := writes[i].stage;
      if choice == 2 && Next(i) {
        var writable: bool, throws: bool, callsBack: Option<bool> := *, *, *;
        Begin(i, writable, throws, callsBack, flag);
      } else if choice == 3 && !stage.Waiting? {
        CallBack(i, flag);
      } else if choice == 4 && stage.Writing? && stage.requiresDrain == Some(true) {
        Drain(i);
      } else if choice == 5 && stage.Writing? {
        SocketClosed(i);
      } else if choice == 6 && Settled(stage) && !writes[i].released {
        Release(i);
      }
    }

    method Live(events: nat)
      requires Valid()
      modifies this
      ensures Valid() && Extends()
    {
      hide InTurn, Given, AllJustified;
      for k := 0 to events
        invariant Valid() && Extends()
      {
        Event();
      }
    }
  }

  /** A transport's whole life: pending bytes are the accepted unfinished ones and within the limit, one
      write is at the socket at a time, in send order; a write has succeeded if and only if it was called back
      without error and drained when that was asked for, and has failed if and only if something failed it. */
  method Transmit(maxPendingBytes: nat, events: nat) returns (t: UnixByteTransport)
    ensures fresh(t) && t.pendingBytes == PendingTotal(t.writes) <= maxPendingBytes
    ensures forall i, j | 0 <= i < j < |t.writes| && !t.writes[j].stage.Waiting? :: Settled(t.writes[i].stage)
    ensures forall i | 0 <= i < |t.writes| :: !Ready(t.writes[i].stage)
    ensures forall k, m | 0 <= k < m < |t.wire| :: t.wire[k] < t.wire[m]
    ensures forall i | 0 <= i < |t.writes| && t.writes[i].stage.Resolved? :: i in t.wire
    ensures forall i: nat | i < |t.writes| ::
              && (t.writes[i].stage.Resolved? <==> Done(t.signals, i))
              && (t.writes[i].stage.Rejected? <==> i in t.signals.failed)
  {
    t := new UnixByteTransport(maxPendingBytes);
    t.Live(events);
    forall i: nat | i < |t.writes| ensures Justified(t.writes[i].stage, t.signals, i) {
      assert JustifiedAt(t.writes, t.signals, i);
    }
  }

  // ---------- The socket's events ----------

  /** What the client's handlers are told, and how the promise of the connection settles. */
  datatype Report = Opened | NotOpened | Received(bytes: seq<int>) | Closed | Errored

  /** After the socket has opened, data until one end; the local side may stop listening at any time. */
  ghost predicate Orderly(reports: seq<Report>) {
    && (forall k | 0 <= k < |reports| :: reports[k].Opened? || reports[k].NotOpened? ==> k == 0)
    && (forall k | 0 <= k < |reports| && (reports[k].Received? || reports[k].Closed? || reports[k].Errored?) ::
          k > 0 && reports[0].Opened?)
    && (forall k | 0 <= k < |reports| && (reports[k].NotOpened? || reports[k].Closed? || reports[k].Errored?) ::
          k == |reports| - 1)
  }

  class UnixSocket {
    var connected: bool
    var terminal: bool
    ghost var local: bool        // the transport was closed by this side
    ghost var reports: seq<Report>

    ghost predicate Valid()
      reads this
    {
      && Orderly(reports)
      && (connected <==> reports != [] && reports[0].Opened?)
      && (!connected ==> (terminal <==> reports == [NotOpened]) && !local)
      && (!terminal ==> reports == [] || reports[|reports| - 1].Opened? || reports[|reports| - 1].Received?)
      && (terminal && !local ==>
            reports != [] && var last := reports[|reports| - 1]; last.NotOpened? || last.Closed? || last.Errored?)
    }

    constructor ()
      ensures Valid() && reports == [] && !terminal && !connected
    {
      connected, terminal, local, reports := false, false, false, [];
    }

    method OnConnect()
      requires Valid() && !connected       // registered with `once`
      modifies this
      ensures Valid() && reports == if old(terminal) then old(reports) else [Opened]
    {
      if !terminal {
        connected := true;
        reports := reports + [Opened];
      }
    }

    /** Data comes only after the connection has been made. */
    method OnData(bytes: seq<int>)
      requires Valid() && (connected || terminal)
      modifies this
      ensures Valid() && reports == if old(terminal) then old(reports) else old(reports) + [Received(bytes)]
    {
      if !terminal {
        reports := reports + [Received(bytes)];
      }
    }

    /** The end and close events. */
    method OnClose()
      requires Valid()
      modifies this
      ensures Valid() && terminal
      ensures reports == if old(terminal) then old(reports)
                         else old(reports) + [if old(connected) then Closed else NotOpened]
    {
      if !terminal {
        terminal := true;
        reports := reports + [if connected then Closed else NotOpened];
      }
    }

    method OnError()
      requires Valid()
      modifies this
      ensures Valid() && terminal
      ensures reports == if old(terminal) then old(reports)
                         else old(reports) + [if old(connected) then Errored else NotOpened]
    {
      if !terminal {
        terminal := true;
        reports := reports + [if connected then Errored else NotOpened];
      }
    }

    /** The transport, which exists once the connection has been made, is closed by this side: nothing
        more is reported. */
    method MarkLocalClose()
      requires Valid() && connected
      modifies this
      ensures Valid() && terminal && reports == old(reports)
    {
      terminal := true;
      local := true;
    }
  }

  /** A socket's whole life, with events in any order: opening or its failure is reported first and once, data
      only between opening and the end, and one end, after which nothing is reported. */
  method Listen(events: nat) returns (s: UnixSocket)
    ensures fresh(s)
    ensures forall k | 0 < k < |s.reports| :: !s.reports[k].Opened? && !s.reports[k].NotOpened?
    ensures |s.reports| > 0 ==> s.reports[0].Opened? || s.reports == [NotOpened]
    ensures forall k | 0 <= k < |s.reports| - 1 :: !s.reports[k].Closed? && !s.reports[k].Errored?
    ensures !s.terminal ==> forall k | 0 < k < |s.reports| :: s.reports[k].Received?
  {
    s := new UnixSocket();
    for i := 0 to events
      invariant fresh(s) && s.Valid()
    {
      var choice: nat, bytes: seq<int> := *, *;
      if choice == 0 && !s.connected {
        s.OnConnect();
      } else if choice == 1 && (s.connected || s.terminal) {
        s.OnData(bytes);
      } else if choice == 2 {
        s.OnClose();
      } else if choice == 3 {
        s.OnError();
      } else if choice == 4 && s.connected {
        s.MarkLocalClose();
      }
    }
  }
}
