/** A recording session's fan-out: one event stream in, any number of dashboards out. */
module Session {
  import opened Results
  import opened RunTable

  datatype Snapshot = Snapshot(currentRPS: real, totalRequests: int, totalErrors: int)

  datatype Event = Metrics(snapshot: Snapshot) | Status(status: RunStatus) | End(finalStatus: RunStatus)

  /** Dashboard channels are buffered. */
  const CAPACITY := 64

  /** `a` can be read off `b`, in order, by skipping elements. */
  predicate Subsequence<T(==)>(a: seq<T>, b: seq<T>) {
    if a == [] then true
    else if b == [] then false
    else (a[|a| - 1] == b[|b| - 1] && Subsequence(a[..|a| - 1], b[..|b| - 1])) || Subsequence(a, b[..|b| - 1])
  }

  lemma SubsequenceExtends<T>(a: seq<T>, b: seq<T>, x: T)
    requires Subsequence(a, b)
    ensures Subsequence(a, b + [x]) && Subsequence(a + [x], b + [x])
  {
    assert (b + [x])[..|b + [x]| - 1] == b && (a + [x])[..|a + [x]| - 1] == a;
  }

  /**
   What a channel has carried: the catch-up snapshot, the events that got through out of
   those published at positions `since` to `upTo`, and the end; and whether any did not get through.
   */
  datatype History = History(received: seq<Event>, catchUp: seq<Event>, delivered: seq<Event>, ended: seq<Event>,
                             since: nat, upTo: nat, dropped: bool)

  class Channel {
    var buffer: seq<Event>
    var closed: bool
    ghost var history: History

    constructor (ghost position: nat)
      ensures buffer == [] && !closed && history == History([], [], [], [], position, position, false)
    {
      buffer, closed, history := [], false, History([], [], [], [], position, position, false);
    }

    /** A send that must not block. */
    method Send(snapshot: Snapshot)
      requires !closed && buffer == [] && history.catchUp == history.delivered == history.ended == []
      modifies this
      ensures buffer == [Metrics(snapshot)] && !closed
      ensures history == old(history).(catchUp := [Metrics(snapshot)])
    {
      buffer := buffer + [Metrics(snapshot)];
      history := history.(catchUp := [Metrics(snapshot)]);
    }

    /** A select with a default case. */
    method TrySend(ev: Event)
      requires !closed
      modifies this
      ensures !closed && buffer == Buffered(old(buffer), ev)
      ensures history == Offered(old(history), ev, |old(buffer)| < CAPACITY)
    {
      history := Offered(history, ev, |buffer| < CAPACITY);
      if |buffer| < CAPACITY {
        buffer := buffer + [ev];
      }
    }

    method Close()
      requires !closed
      modifies this`closed
      ensures closed
    {
      closed := true;
    }

    /** The dashboard reads the next event; None when there is nothing to read now. */
    method Receive() returns (ev: Option<Event>)
      modifies this
      ensures closed == old(closed)
      ensures old(buffer) == [] ==> ev == None && buffer == [] && history == old(history)
      ensures old(buffer) != [] ==> ev == Some(old(buffer)[0]) && buffer == old(buffer)[1..]
      ensures old(buffer) != [] ==> history == old(history).(received := old(history).received + [old(buffer)[0]])
    {
      if buffer == [] {
        return None;
      }
      ev := Some(buffer[0]);
      history := history.(received := history.received + [buffer[0]]);
      buffer := buffer[1..];
    }
  }

  function Buffered(buffer: seq<Event>, ev: Event): seq<Event> {
    if |buffer| < CAPACITY then buffer + [ev] else buffer
  }

  /** A channel has room for 64 events, keeps what it holds, and takes a further one at the end or not at all. */
  lemma BufferedFields(buffer: seq<Event>, ev: Event)
    ensures |buffer| < 64 ==> Buffered(buffer, ev) == buffer + [ev]
    ensures |buffer| >= 64 ==> Buffered(buffer, ev) == buffer
  {
  }

  /** An event is offered to a channel that has room for it, or has not. */
  ghost function Offered(h: History, ev: Event, room: bool): History {
    if ev.End? then
      if room then h.(ended := [ev]) else h.(dropped := true)
    else if room then h.(delivered := h.delivered + [ev], upTo := h.upTo + 1)
    else h.(upTo := h.upTo + 1, dropped := true)
  }

  /** The fan-out contract of one channel, given everything published so far. */
  ghost predicate InOrder(buffer: seq<Event>, closed: bool, h: History, published: seq<Event>) {
    && |buffer| <= CAPACITY
    && h.received + buffer == h.catchUp + h.delivered + h.ended
    && |h.catchUp| <= 1 && (forall e :: e in h.catchUp ==> e.Metrics?)
    && |h.ended| <= 1 && (forall e :: e in h.ended ==> e.End?)
    && h.since <= h.upTo <= |published|
    && Subsequence(h.delivered, published[h.since..h.upTo])
    && (!h.dropped ==> h.delivered == published[h.since..h.upTo])
    && (!closed ==> h.upTo == |published| && h.ended == [])
  }

  lemma PublishedNext(published: seq<Event>, since: nat, ev: Event)
    requires since <= |published|
    ensures (published + [ev])[since..|published| + 1] == published[since..|published|] + [ev]
  {
  }

  /** An open channel has no end yet, so what it still holds grows at the same place as what it was given. */
  lemma TakenNext(h: History, buffer: seq<Event>, ev: Event)
    requires h.received + buffer == h.catchUp + h.delivered + h.ended && h.ended == []
    ensures h.received + (buffer + [ev]) == h.catchUp + (h.delivered + [ev]) + h.ended
  {
    assert h.received + (buffer + [ev]) == (h.received + buffer) + [ev];
  }

  lemma TakenKeepsOrder(buffer: seq<Event>, h: History, published: seq<Event>, ev: Event)
    requires InOrder(buffer, false, h, published) && !ev.End? && |buffer| < CAPACITY
    ensures InOrder(buffer + [ev], false, Offered(h, ev, true), published + [ev])
  {
    SubsequenceExtends(h.delivered, published[h.since..h.upTo], ev);
    PublishedNext(published, h.since, ev);
    TakenNext(h, buffer, ev);
  }

  lemma RefusedKeepsOrder(buffer: seq<Event>, h: History, published: seq<Event>, ev: Event)
    requires InOrder(buffer, false, h, published) && !ev.End?
    ensures InOrder(buffer, false, Offered(h, ev, false), published + [ev])
  {
    SubsequenceExtends(h.delivered, published[h.since..h.upTo], ev);
    PublishedNext(published, h.since, ev);
  }

  lemma OfferKeepsOrder(buffer: seq<Event>, h: History, published: seq<Event>, ev: Event)
    requires InOrder(buffer, false, h, published) && !ev.End?
    ensures InOrder(Buffered(buffer, ev), false, Offered(h, ev, |buffer| < CAPACITY), published + [ev])
  {
    if |buffer| < CAPACITY {
      TakenKeepsOrder(buffer, h, published, ev);
    } else {
      RefusedKeepsOrder(buffer, h, published, ev);
    }
  }

  lemma EndKeepsOrder(buffer: seq<Event>, h: History, published: seq<Event>, ev: Event)
    requires InOrder(buffer, false, h, published) && ev.End?
    ensures InOrder(Buffered(buffer, ev), true, Offered(h, ev, |buffer| < CAPACITY), published)
  {
    assert h.received + (buffer + [ev]) == (h.received + buffer) + [ev];
  }

  lemma ReceiveKeepsOrder(buffer: seq<Event>, closed: bool, h: History, published: seq<Event>)
    requires InOrder(buffer, closed, h, published) && buffer != []
    ensures InOrder(buffer[1..], closed, h.(received := h.received + [buffer[0]]), published)
  {
    assert h.received + [buffer[0]] + buffer[1..] == h.received + buffer;
  }

  /** A closed channel's view of the past does not change when more is published. */
  lemma ClosedKeepsOrder(buffer: seq<Event>, h: History, published: seq<Event>, ev: Event)
    requires InOrder(buffer, true, h, published)
    ensures InOrder(buffer, true, h, published + [ev])
  {
    assert (published + [ev])[h.since..h.upTo] == published[h.since..h.upTo];
  }

  /** What a dashboard reads: nothing comes after an end, and an open channel carries none. */
  lemma EndIsLast(buffer: seq<Event>, closed: bool, h: History, published: seq<Event>, i: nat)
    requires InOrder(buffer, closed, h, published) && (forall e :: e in published ==> !e.End?)
    requires i < |h.received| && h.received[i].End?
    ensures closed && i == |h.received| - 1 && buffer == []
  {
    SubsequenceMembers(h.delivered, published[h.since..h.upTo]);
    var before := h.catchUp + h.delivered;
    forall j | 0 <= j < |before| ensures !before[j].End? {
      assert before[j] in h.catchUp || before[j] in h.delivered;
    }
    assert (before + h.ended)[i] == (h.received + buffer)[i];
  }

  lemma {:induction false} SubsequenceMembers<T>(a: seq<T>, b: seq<T>)
    requires Subsequence(a, b)
    ensures forall x :: x in a ==> x in b
  {
    if a != [] {
      if a[|a| - 1] == b[|b| - 1] && Subsequence(a[..|a| - 1], b[..|b| - 1]) {
        SubsequenceMembers(a[..|a| - 1], b[..|b| - 1]);
      } else {
        SubsequenceMembers(a, b[..|b| - 1]);
      }
      assert a == a[..|a| - 1] + [a[|a| - 1]];
    }
  }

  class Session {
    var subs: set<Channel>
    var closed: bool
    var last: Option<Snapshot>
    var peakRPS: real
    ghost var published: seq<Event>
    ghost var channels: set<Channel>      // every channel ever handed out

    ghost predicate Valid()
      reads this, channels
    {
      && subs <= channels
      && (closed ==> subs == {})
      && (forall e :: e in published ==> !e.End?)
      && (forall c :: c in channels ==> (c in subs <==> !c.closed))
      && (forall c :: c in channels ==> InOrder(c.buffer, c.closed, c.history, published))
    }

    constructor ()
      ensures Valid() && !closed && channels == {} && published == [] && last == None
    {
      subs, closed, last, peakRPS, published, channels := {}, false, None, 0.0, [], {};
    }

    /** Records the newest metrics; publishing them is a separate step. */
    method Observe(snapshot: Snapshot)
      requires Valid()
      modifies this`last, this`peakRPS
      ensures Valid() && last == Some(snapshot)
      ensures peakRPS == if snapshot.currentRPS > old(peakRPS) then snapshot.currentRPS else old(peakRPS)
    {
      last := Some(snapshot);
      if snapshot.currentRPS > peakRPS {
        peakRPS := snapshot.currentRPS;
      }
    }

    /** A new dashboard gets the newest metrics at once; one that comes after the end gets a closed channel. */
    method Subscribe() returns (ch: Channel)
      requires Valid()
      modifies this`subs, this`channels
      ensures Valid() && fresh(ch) && channels == old(channels) + {ch}
      ensures ch.closed == closed && subs == if closed then old(subs) else old(subs) + {ch}
      ensures ch.buffer == if closed || last.None? then [] else [Metrics(last.value)]
      ensures ch.history == History([], ch.buffer, [], [], |published|, |published|, false)
    {
      ch := new Channel(|published|);
      channels := channels + {ch};
      if closed {
        ch.Close();
        return;
      }
      subs := subs + {ch};
      if last.Some? {
        ch.Send(last.value);
      }
    }

    /** The function returned by subscribe; calling it again does nothing. */
    method Unsubscribe(ch: Channel)
      requires Valid() && ch in channels
      modifies this`subs, ch`closed
      ensures Valid() && subs == old(subs) - {ch} && ch.closed
    {
      if ch in subs {
        subs := subs - {ch};
        ch.Close();
      }
    }

    method Receive(ch: Channel) returns (ev: Option<Event>)
      requires Valid() && ch in channels
      modifies ch
      ensures Valid() && ch.closed == old(ch.closed)
      ensures ev == if old(ch.buffer) == [] then None else Some(old(ch.buffer)[0])
      ensures ch.history.received == old(ch.history.received) + if ev.Some? then [ev.value] else []
    {
      if ch.buffer != [] {
        ReceiveKeepsOrder(ch.buffer, ch.closed, ch.history, published);
      }
      ev := ch.Receive();
    }

    /** Offers an event to every open channel; a stalled dashboard just misses it. */
    method Publish(ev: Event)
      requires Valid() && !ev.End?
      modifies this`published, subs
      ensures Valid() && subs == old(subs)
      ensures published == if closed then old(published) else old(published) + [ev]
      ensures !closed ==> forall c :: c in old(subs) ==>
          c.history == Offered(old(c.history), ev, |old(c.buffer)| < CAPACITY)
    {
      if closed {
        return;
      }
      Broadcast(subs, ev);
      published := published + [ev];
      forall c | c in channels ensures InOrder(c.buffer, c.closed, c.history, published) {
        if c in old(subs) {
          OfferKeepsOrder(old(c.buffer), old(c.history), old(published), ev);
        } else {
          ClosedKeepsOrder(c.buffer, c.history, old(published), ev);
        }
      }
    }

    /** Offers the end to every open channel and closes it; a second call does nothing. */
    method Close(final: Event)
      requires Valid() && final.End?
      modifies this`subs, this`closed, subs
      ensures Valid() && closed && subs == {}
      ensures forall c :: c in old(subs) ==>
          c.closed && c.history == Offered(old(c.history), final, |old(c.buffer)| < CAPACITY)
    {
      if closed {
        return;
      }
      closed := true;
      BroadcastEnd(subs, final);
      forall c | c in old(subs) ensures InOrder(c.buffer, c.closed, c.history, published) {
        EndKeepsOrder(old(c.buffer), old(c.history), published, final);
      }
      subs := {};
    }
  }

  /** The loop of publish: one non-blocking send per open channel, in any order. */
  method Broadcast(targets: set<Channel>, ev: Event)
    requires forall c :: c in targets ==> !c.closed
    modifies targets
    ensures forall c :: c in targets ==> !c.closed && c.buffer == Buffered(old(c.buffer), ev)
    ensures forall c :: c in targets ==> c.history == Offered(old(c.history), ev, |old(c.buffer)| < CAPACITY)
  {
    var rest := targets;
    while rest != {}
      invariant rest <= targets
      invariant forall c :: c in targets ==> !c.closed
      invariant forall c :: c in rest ==> c.buffer == old(c.buffer) && c.history == old(c.history)
      invariant forall c :: c in targets && c !in rest ==> c.buffer == Buffered(old(c.buffer), ev)
      invariant forall c :: c in targets && c !in rest ==>
          c.history == Offered(old(c.history), ev, |old(c.buffer)| < CAPACITY)
      decreases |rest|
    {
      var c :| c in rest;
      rest := rest - {c};
      c.TrySend(ev);
    }
  }

  /** The loop of close: one last non-blocking send per open channel, which is then closed. */
  method BroadcastEnd(targets: set<Channel>, final: Event)
    requires forall c :: c in targets ==> !c.closed
    modifies targets
    ensures forall c :: c in targets ==> c.closed && c.buffer == Buffered(old(c.buffer), final)
    ensures forall c :: c in targets ==> c.history == Offered(old(c.history), final, |old(c.buffer)| < CAPACITY)
  {
    var rest := targets;
    while rest != {}
      invariant rest <= targets
      invariant forall c :: c in rest ==> !c.closed && c.buffer == old(c.buffer) && c.history == old(c.history)
      invariant forall c :: c in targets && c !in rest ==> c.closed && c.buffer == Buffered(old(c.buffer), final)
      invariant forall c :: c in targets && c !in rest ==>
          c.history == Offered(old(c.history), final, |old(c.buffer)| < CAPACITY)
      decreases |rest|
    {
      var c :| c in rest;
      rest := rest - {c};
      c.TrySend(final);
      c.Close();
    }
  }
}
