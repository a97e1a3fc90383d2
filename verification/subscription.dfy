/** The buffering of one service subscription of the RPC client: raw updates wait for the snapshot,
    decoded updates wait for `start`, and deliveries wait for the listener. */
module ServiceSubscriptions {
  import opened Wrappers

  /** A stateful decoder: a snapshot starts it, and each update advances it; both may be rejected. */
  datatype Codec<!D, !W, !S, !U> = Codec(
    snapshot: W -> Option<(D, S)>,
    update: (D, W) -> Option<(D, U)>)
  {
    /** What a decoder in state `d` makes of `wires`, up to the first one it rejects. */
    ghost function Decoded(d: D, wires: seq<W>): seq<U> {
      if wires == [] then [] else
      match update(d, wires[0])
      case None => []
      case Some((next, u)) => [u] + Decoded(next, wires[1..])
    }

    /** The state after all of `wires`, if none is rejected. */
    ghost function After(d: D, wires: seq<W>): Option<D> {
      if wires == [] then Some(d) else
      match update(d, wires[0])
      case None => None
      case Some((next, _)) => After(next, wires[1..])
    }

    /** Decoding is incremental: one more update adds at most one more result at the end. */
    lemma {:induction false} DecodedAppend(d: D, wires: seq<W>, w: W)
      ensures match After(d, wires)
              case None => After(d, wires + [w]) == None && Decoded(d, wires + [w]) == Decoded(d, wires)
              case Some(e) =>
                match update(e, w)
                case None => After(d, wires + [w]) == None && Decoded(d, wires + [w]) == Decoded(d, wires)
                case Some((next, u)) =>
                  After(d, wires + [w]) == Some(next) && Decoded(d, wires + [w]) == Decoded(d, wires) + [u]
    {
      if wires == [] {
        assert [w][1..] == [];
      } else {
        assert (wires + [w])[1..] == wires[1..] + [w];
        match update(d, wires[0])
        case None =>
        case Some((next, _)) => DecodedAppend(next, wires[1..], w);
      }
    }

    /** What is decoded of a prefix stays decoded, and once an update is rejected nothing follows. */
    lemma {:induction false} DecodedPrefix(d: D, wires: seq<W>, k: nat)
      requires k <= |wires|
      ensures Decoded(d, wires[..k]) <= Decoded(d, wires)
      ensures After(d, wires[..k]).None? ==> Decoded(d, wires[..k]) == Decoded(d, wires)
    {
      if k < |wires| {
        var init := wires[..|wires| - 1];
        DecodedPrefix(d, init, k);
        DecodedAppend(d, init, wires[|wires| - 1]);
        assert init[..k] == wires[..k];
        assert init + [wires[|wires| - 1]] == wires;
        if k < |init| && After(d, wires[..k]).None? {
          RejectionStays(d, wires, k, |init|);
        }
      } else {
        assert wires[..k] == wires;
      }
    }

    lemma {:induction false} RejectionStays(d: D, wires: seq<W>, k: nat, n: nat)
      requires k <= n <= |wires| && After(d, wires[..k]).None?
      ensures After(d, wires[..n]).None?
    {
      if k < n {
        RejectionStays(d, wires, k, n - 1);
        DecodedAppend(d, wires[..n - 1], wires[n - 1]);
        assert wires[..n] == wires[..n - 1] + [wires[n - 1]];
      }
    }
  }

  lemma Appends<U>(a: seq<U>, b: seq<U>, c: seq<U>, x: U)
    ensures a + b + (c + [x]) == a + b + c + [x]
    ensures c == [] ==> a + (b + [x]) + c == a + b + c + [x]
  {
  }

  class Subscription<!D, W, S, U> {
    const codec: Codec<D, W, S, U>

    var attached: bool               // the subscription is in the client's listener map
    var decoder: Option<D>
    var queuedWireUpdates: seq<W>
    var queued: seq<U>
    var deliveryTail: seq<U>         // deliveries whose listener call has not begun
    var running: bool                // the last listener call has not settled
    var hydrated: bool
    var ready: bool
    var offered: Option<S>           // the snapshot given to the subscriber
    var disposed: bool

    ghost var result: Option<W>      // the response from which the snapshot was decoded
    ghost var origin: Option<D>      // the decoder state made by the snapshot
    ghost var arrivals: seq<W>       // updates that reached the client while this was attached
    ghost var calls: seq<U>          // the arguments of the listener calls, in order
    ghost var cleared: bool          // `dispose` has emptied the queues

    /** Everything decoded so far: one stream, whatever stage each update is in. */
    ghost function Stream(): seq<U>
      reads this
    {
      if origin.None? then [] else codec.Decoded(origin.value, arrivals)
    }

    /** The decoder state and the snapshot that offers can be made of come from one response. */
    ghost predicate Decodes(snapshot: S)
      reads this
    {
      origin.Some? && result.Some? && codec.snapshot(result.value) == Some((origin.value, snapshot))
    }

    /** The stages hold the stream, in order. */
    ghost predicate StagesOk()
      reads this
    {
      if cleared then calls + deliveryTail <= Stream() else calls + deliveryTail + queued == Stream()
    }

    ghost predicate Valid()
      reads this
    {
      && hydrated == origin.Some?
      && (!hydrated ==> queued == [] && queuedWireUpdates == (if cleared then [] else arrivals))
      && (hydrated ==> queuedWireUpdates == [])
      && (hydrated && attached ==> decoder.Some? && codec.After(origin.value, arrivals) == decoder)
      && StagesOk()
      && (ready ==> queued == [] && offered.Some?)
      && (!ready ==> calls == [] && deliveryTail == [] && !running)
      && (offered.Some? ==> Decodes(offered.value))
      && (cleared ==> disposed && queued == [])
      && (disposed ==> !attached && offered.Some?)
    }

    /** Nothing that has happened is undone. */
    twostate predicate Extends()
      reads this
    {
      && old(arrivals) <= arrivals && old(calls) <= calls
      && (old(origin).Some? ==> origin == old(origin) && result == old(result))
      && (old(offered).Some? ==> offered == old(offered))
      && (!old(attached) ==> !attached && arrivals == old(arrivals))
    }

    constructor (codec: Codec<D, W, S, U>)
      ensures Valid() && this.codec == codec && attached && arrivals == [] && calls == [] && origin.None?
    {
      this.codec := codec;
      attached, decoder, queuedWireUpdates, queued, deliveryTail := true, None, [], [], [];
      running, hydrated, ready, offered, disposed := false, false, false, None, false;
      result, origin, arrivals, calls, cleared := None, None, [], [], false;
    }

    /** `#handleMessage` for a service update; one the decoder rejects ends the connection. */
    method HandleUpdate(update: W)
      requires Valid()
      modifies this
      ensures Valid() && Extends() && calls == old(calls) && origin == old(origin)
      ensures arrivals == if old(attached) then old(arrivals) + [update] else old(arrivals)
      ensures attached == (old(attached) && (!hydrated || codec.After(origin.value, arrivals).Some?))
    {
      if !attached {
        return;
      }
      if hydrated {
        DecodeUpdate(update);
      } else {
        arrivals := arrivals + [update];
        queuedWireUpdates := queuedWireUpdates + [update];
      }
    }

    /** An update of a subscription whose decoder has its snapshot. */
    method DecodeUpdate(update: W)
      requires Valid() && attached && hydrated
      modifies this
      ensures Valid() && Extends() && calls == old(calls) && origin == old(origin)
      ensures arrivals == old(arrivals) + [update] && hydrated
      ensures attached == codec.After(origin.value, arrivals).Some?
    {
      match codec.update(decoder.value, update) {
        case None =>
          codec.DecodedAppend(origin.value, arrivals, update);
          hide Codec.Decoded, Codec.After;
          arrivals, attached := arrivals + [update], false;
        case Some((next, decoded)) =>
          AcceptUpdate(update, next, decoded);
      }
    }

    method AcceptUpdate(update: W, next: D, decoded: U)
      requires Valid() && attached && hydrated && codec.update(decoder.value, update) == Some((next, decoded))
      modifies this`arrivals, this`decoder, this`deliveryTail, this`queued
      ensures Valid() && decoder == Some(next) && arrivals == old(arrivals) + [update]
    {
      codec.DecodedAppend(origin.value, arrivals, update);
      hide Codec.Decoded, Codec.After;
      Appends(calls, deliveryTail, queued, decoded);
      arrivals, decoder := arrivals + [update], Some(next);
      Deliver(decoded);
    }

    /** A decoded update goes to the delivery chain, or waits for `start`. */
    method Deliver(decoded: U)
      modifies this`deliveryTail, this`queued
      ensures if ready then deliveryTail == old(deliveryTail) + [decoded] && queued == old(queued)
              else queued == old(queued) + [decoded] && deliveryTail == old(deliveryTail)
    {
      if ready {
        deliveryTail := deliveryTail + [decoded];
      } else {
        queued := queued + [decoded];
      }
    }

    /** The transform of the subscribe response: decode the snapshot, then what has been waiting for it.
        A result or an update that is rejected ends the connection. */
    method Hydrate(response: W) returns (snapshot: Option<S>)
      requires Valid() && !hydrated && !disposed
      modifies this
      ensures Valid() && Extends() && calls == old(calls) && arrivals == old(arrivals)
      ensures snapshot.Some? ==> Decodes(snapshot.value)
      ensures match codec.snapshot(response)
              case None => snapshot == None && origin == None && !attached
              case Some((d, s)) =>
                && origin == Some(d)
                && snapshot == (if codec.After(d, arrivals).Some? then Some(s) else None)
                && attached == (old(attached) && snapshot.Some?)
    {
      match codec.snapshot(response) {
        case None =>
          attached := false;
          return None;
        case Some((d, s)) =>
          var ok := StartDecoder(response, d, s);
          return if ok then Some(s) else None;
      }
    }

    /** The decoder takes up the snapshot and then what has been waiting for it. */
    method StartDecoder(response: W, d: D, s: S) returns (ok: bool)
      requires Valid() && !hydrated && !disposed && codec.snapshot(response) == Some((d, s))
      modifies this`decoder, this`origin, this`result, this`hydrated, this`queuedWireUpdates, this`queued, this`attached
      ensures Valid() && origin == Some(d) && Decodes(s)
      ensures ok == codec.After(d, arrivals).Some? && attached == (old(attached) && ok)
    {
      hide Codec.Decoded, Codec.After;
      var waiting := queuedWireUpdates;
      decoder, origin, result, hydrated, queuedWireUpdates := Some(d), Some(d), Some(response), true, [];
      ok := DecodeWaiting(d, waiting);
      if !ok {
        attached := false;
      }
      assert calls + deliveryTail + queued == queued;
    }

    /** The updates that waited for the snapshot, up to the first one that is rejected. */
    method DecodeWaiting(d: D, waiting: seq<W>) returns (ok: bool)
      requires decoder == Some(d) && queued == []
      modifies this`decoder, this`queued
      ensures queued == codec.Decoded(d, waiting)
      ensures ok == codec.After(d, waiting).Some?
      ensures ok ==> decoder == codec.After(d, waiting)
    {
      for i := 0 to |waiting|
        invariant decoder.Some? && codec.After(d, waiting[..i]) == decoder
        invariant queued == codec.Decoded(d, waiting[..i])
      {
        codec.DecodedAppend(d, waiting[..i], waiting[i]);
        assert waiting[..i] + [waiting[i]] == waiting[..i + 1];
        match codec.update(decoder.value, waiting[i]) {
          case None =>
            codec.DecodedPrefix(d, waiting, i + 1);
            codec.RejectionStays(d, waiting, i + 1, |waiting|);
            assert waiting[..|waiting|] == waiting;
            return false;
          case Some((next, decoded)) =>
            decoder := Some(next);
            queued := queued + [decoded];
        }
      }
      assert waiting[..|waiting|] == waiting;
      return true;
    }

    /** `subscribeService` resumes with the decoded snapshot; a connection lost meanwhile wins. */
    method Offer(snapshot: S) returns (ok: bool)
      requires Valid() && Decodes(snapshot) && offered.None?
      modifies this`offered
      ensures Valid() && Extends() && ok == attached
      ensures offered == if ok then Some(snapshot) else None
    {
      ok := attached;
      if ok {
        offered := Some(snapshot);
      }
    }

    /** The listener map loses this entry: connection lost, request failed, or client disposed. */
    method Detach()
      requires Valid()
      modifies this`attached
      ensures Valid() && Extends() && !attached
    {
      attached := false;
    }

    /** `start`: what has been decoded is scheduled for delivery. */
    method Start()
      requires Valid() && offered.Some?
      modifies this
      ensures Valid() && Extends() && calls == old(calls) && arrivals == old(arrivals)
      ensures ready == (old(ready) || !disposed) && disposed == old(disposed) && attached == old(attached)
    {
      if disposed || ready {
        return;
      }
      ready := true;
      var updates := queued;
      queued := [];
      for i := 0 to |updates|
        invariant deliveryTail == updates[..i]
        invariant unchanged(this`attached, this`decoder, this`queuedWireUpdates, this`running, this`hydrated)
        invariant unchanged(this`offered, this`disposed, this`result, this`origin, this`arrivals, this`calls, this`cleared)
        invariant ready && queued == []
      {
        deliveryTail := deliveryTail + [updates[i]];
      }
      assert calls + deliveryTail + queued == updates;
    }

    /** `dispose`, up to the unsubscribe request. */
    method BeginDispose()
      requires Valid() && offered.Some?
      modifies this
      ensures Valid() && Extends() && disposed && !attached && calls == old(calls)
    {
      if !disposed {
        disposed, attached := true, false;
      }
    }

    /** The end of `dispose`, after the unsubscribe request has failed or the deliveries have settled. */
    method EndDispose()
      requires Valid() && disposed
      modifies this
      ensures Valid() && Extends() && calls == old(calls) && queued == []
      ensures Stream() == old(Stream()) && deliveryTail == old(deliveryTail)
      ensures !old(cleared) ==> Stream() == calls + deliveryTail + old(queued) && (ready ==> old(queued) == [])
    {
      queuedWireUpdates, queued, cleared := [], [], true;
    }

    /** The next link of the delivery chain calls the listener. */
    method CallListener()
      requires Valid() && !running && deliveryTail != []
      modifies this`calls, this`deliveryTail, this`running
      ensures Valid() && Extends() && running && ready
      ensures calls == old(calls) + [old(deliveryTail)[0]] && deliveryTail == old(deliveryTail)[1..]
    {
      var update := deliveryTail[0];
      assert calls + deliveryTail == (calls + [update]) + deliveryTail[1..];
      assert Stream() == old(Stream());
      calls, deliveryTail, running := calls + [update], deliveryTail[1..], true;
    }

    /** The listener's promise settles; its failure is reported, and the chain goes on. */
    method ListenerSettled()
      requires Valid() && running
      modifies this`running
      ensures Valid() && Extends() && !running
    {
      running := false;
    }

    /** One message, response, call or settlement; `wire` is what arrives, if something does. */
    method Step(wire: W, response: Option<S>) returns (next: Option<S>)
      requires Valid() && (response.Some? ==> Decodes(response.value))
      modifies this
      ensures Valid() && Extends() && (next.Some? ==> Decodes(next.value))
    {
      next := response;
      var choice: nat := *;
      if choice == 0 {
        HandleUpdate(wire);
      } else if choice == 1 && !hydrated && !disposed {
        next := Hydrate(wire);
      } else if choice == 2 && response.Some? && offered.None? {
        var _ := Offer(response.value);
      } else if choice == 3 {
        Detach();
      } else if choice == 4 && offered.Some? {
        Start();
      } else if choice == 5 && offered.Some? {
        BeginDispose();
      } else if choice == 6 && disposed {
        EndDispose();
      } else if choice == 7 && !running && deliveryTail != [] {
        CallListener();
      } else if choice == 8 && running {
        ListenerSettled();
      }
    }

    /** Any number of steps, in any order. */
    method Live(wires: seq<W>)
      requires Valid()
      modifies this
      ensures Valid() && Extends()
    {
      var response: Option<S> := None;
      for i := 0 to |wires|
        invariant Valid() && Extends() && (response.Some? ==> Decodes(response.value))
      {
        response := Step(wires[i], response);
      }
    }
  }

  /** A whole subscription: however its stages interleave, the listener is called with a prefix of one
      stream, the snapshot's decoder applied to the updates in the order they arrived, and with all of
      it once nothing is left to deliver. */
  method Subscribe<D, W, S, U>(codec: Codec<D, W, S, U>, wires: seq<W>) returns (s: Subscription<D, W, S, U>)
    ensures fresh(s) && s.Valid() && s.codec == codec
    ensures s.calls <= s.Stream()
    ensures !s.ready || s.origin.None? ==> s.calls == []
    ensures s.ready && !s.cleared && s.deliveryTail == [] ==> s.calls == s.Stream()
    ensures s.offered.Some? ==> s.Decodes(s.offered.value)
    ensures s.attached && s.hydrated ==> s.codec.After(s.origin.value, s.arrivals).Some?
  {
    s := new Subscription(codec);
    s.Live(wires);
  }
}
