/** One recording: the event loop that publishes, persists and finally ends a run. */
module Recorder {
  import opened Lists
  import opened Results
  import opened RunTable
  import opened Session

  datatype Poll = Poll(status: RunStatus, metrics: Option<Snapshot>)

  /** What the loop can wake up for; a failed status poll is `Polled(None)`. */
  datatype Input = Deadline | Streamed(snapshot: Snapshot) | StreamClosed | Polled(reply: Option<Poll>)

  datatype Ending = Ending(status: RunStatus, last: Option<Snapshot>, peakRPS: real)

  /** What the recorder does about the end of a run, as the store and the queue observe it. */
  datatype Action =
    | FinishRunCalled(ending: Ending)
    | SessionClosed(status: RunStatus)
    | OnDoneCalled(status: RunStatus)
    | SessionRemoved

  /** The order in which `finish`, and then the deferred removal, act. */
  function EndActions(e: Ending): seq<Action> {
    [FinishRunCalled(e), SessionClosed(e.status), OnDoneCalled(e.status), SessionRemoved]
  }

  predicate IsTerminal(s: RunStatus) {
    s == Completed || s == Failed || s == Stopped
  }

  /** The inputs after which recording is over. */
  predicate Ends(i: Input) {
    match i
    case Deadline => true
    case StreamClosed => true
    case Streamed(_) => false
    case Polled(reply) => reply.Some? && IsTerminal(reply.value.status)
  }

  /** A successful status poll. */
  predicate Answered(i: Input) {
    i.Polled? && i.reply.Some?
  }

  /** The status of the latest successful poll; RUNNING before the first. */
  function LastPolled(inputs: seq<Input>): RunStatus {
    if inputs == [] then Running
    else
      var last := inputs[|inputs| - 1];
      if last.Polled? && last.reply.Some? then last.reply.value.status else LastPolled(inputs[..|inputs| - 1])
  }

  /** How a recording that the last of these inputs ends is recorded. */
  function EndStatus(inputs: seq<Input>): RunStatus
    requires inputs != []
  {
    if inputs[|inputs| - 1] == Deadline then Failed else LastPolled(inputs)
  }

  /** The metrics that came down the stream. */
  function StreamedIn(inputs: seq<Input>): seq<Snapshot> {
    if inputs == [] then []
    else
      var init, last := StreamedIn(inputs[..|inputs| - 1]), inputs[|inputs| - 1];
      if last.Streamed? then init + [last.snapshot] else init
  }

  /** The final reading that comes with a terminal status. */
  function FinalReading(i: Input): seq<Snapshot> {
    if i.Polled? && i.reply.Some? && IsTerminal(i.reply.value.status) && i.reply.value.metrics.Some?
    then [i.reply.value.metrics.value] else []
  }

  /** What dashboards are shown for one input: streamed metrics, a polled status, and a final reading after it. */
  function Shows(i: Input): seq<Event> {
    match i
    case Deadline => []
    case StreamClosed => []
    case Streamed(m) => [Metrics(m)]
    case Polled(reply) =>
      if reply.None? then []
      else [Status(reply.value.status)]
           + if FinalReading(i) == [] then [] else [Metrics(FinalReading(i)[0])]
  }

  function ShownFor(inputs: seq<Input>): seq<Event> {
    if inputs == [] then [] else ShownFor(inputs[..|inputs| - 1]) + Shows(inputs[|inputs| - 1])
  }

  lemma NextInput(inputs: seq<Input>, i: nat)
    requires i < |inputs|
    ensures ShownFor(inputs[..i + 1]) == ShownFor(inputs[..i]) + Shows(inputs[i])
    ensures StreamedIn(inputs[..i + 1]) == StreamedIn(inputs[..i])
            + if inputs[i].Streamed? then [inputs[i].snapshot] else []
    ensures LastPolled(inputs[..i + 1])
            == if Answered(inputs[i]) then inputs[i].reply.value.status else LastPolled(inputs[..i])
  {
    assert inputs[..i + 1][..i] == inputs[..i];
  }

  function MetricsIn(events: seq<Event>): seq<Snapshot> {
    if events == [] then []
    else
      var init, last := MetricsIn(events[..|events| - 1]), events[|events| - 1];
      if last.Metrics? then init + [last.snapshot] else init
  }

  lemma MetricsInSnoc(events: seq<Event>, e: Event)
    ensures MetricsIn(events + [e]) == if e.Metrics? then MetricsIn(events) + [e.snapshot] else MetricsIn(events)
  {
    assert (events + [e])[..|events + [e]| - 1] == events;
  }

  function LastOf(samples: seq<Snapshot>): Option<Snapshot> {
    if samples == [] then None else Some(samples[|samples| - 1])
  }

  /** The greatest current rate among the streamed metrics; 0 when there are none. */
  ghost predicate IsPeak(samples: seq<Snapshot>, peak: real) {
    && peak >= 0.0 && (forall s :: s in samples ==> s.currentRPS <= peak)
    && (peak != 0.0 ==> exists s :: s in samples && s.currentRPS == peak)
  }

  lemma PeakNext(samples: seq<Snapshot>, peak: real, s: Snapshot)
    requires IsPeak(samples, peak)
    ensures IsPeak(samples + [s], if s.currentRPS > peak then s.currentRPS else peak)
  {
    assert s in samples + [s];
    forall x | x in samples ensures x in samples + [s] {}
  }

  /** `finish`: writes the summary row, closes the session, and tells the queue. */
  method FinishRecording(status: RunStatus, last: Option<Snapshot>, peak: real)
    returns (ending: Ending, ghost actions: seq<Action>)
    ensures ending == Ending(status, last, peak)
    ensures actions == EndActions(ending)[..3]
  {
    ending := Ending(status, last, peak);
    actions := [FinishRunCalled(ending)];
    actions := actions + [SessionClosed(status)];
    actions := actions + [OnDoneCalled(status)];
  }

  /** `run`: whichever way the loop returns, the session is removed from the recorder's map last. */
  method Run(streamFails: bool, inputs: seq<Input>)
    returns (published: seq<Event>, samples: seq<Snapshot>, ending: Option<Ending>, used: nat,
             ghost actions: seq<Action>)
    ensures Recorded(streamFails, inputs, published, samples, ending, used)
    ensures actions == if ending.Some? then EndActions(ending.value) else []
  {
    published, samples, ending, used, actions := Loop(streamFails, inputs);
    if ending.Some? {
      actions := actions + [SessionRemoved];
    }
  }

  /**
   What a recording shows, stores and ends with. Dashboards are shown exactly the metrics that
   are stored, in the same order, and the summary row is made of the last of them; only the peak
   ignores the final reading.
   */
  ghost predicate Recorded(streamFails: bool, inputs: seq<Input>, published: seq<Event>, samples: seq<Snapshot>,
                           ending: Option<Ending>, used: nat)
  {
    && MetricsIn(published) == samples && used <= |inputs| && published == ShownFor(inputs[..used])
    && used <= |inputs| && (forall k :: 0 <= k < used - 1 ==> !Ends(inputs[k]))
    && if streamFails then used == 0 && samples == [] && ending == Some(Ending(Failed, None, 0.0))
       else
         && (ending.Some? <==> used > 0 && Ends(inputs[used - 1]))
         && (ending.None? ==> used == |inputs| && samples == StreamedIn(inputs))
         && (ending.Some? ==>
             && samples == StreamedIn(inputs[..used]) + FinalReading(inputs[used - 1])
             && ending.value.status == EndStatus(inputs[..used])
             && ending.value.last == LastOf(samples)
             && IsPeak(StreamedIn(inputs[..used]), ending.value.peakRPS))
  }

  /** Before input `i`, none of which ended the recording. */
  ghost predicate Underway(inputs: seq<Input>, i: nat, published: seq<Event>, samples: seq<Snapshot>, status: RunStatus,
                           last: Option<Snapshot>, peak: real)
  {
    && i <= |inputs| && (forall k :: 0 <= k < i ==> !Ends(inputs[k]))
    && MetricsIn(published) == samples == StreamedIn(inputs[..i]) && published == ShownFor(inputs[..i])
    && status == LastPolled(inputs[..i]) && last == LastOf(samples) && IsPeak(samples, peak)
  }

  lemma MetricsShown(published: seq<Event>, i: Input)
    ensures MetricsIn(published + Shows(i))
            == MetricsIn(published) + (if i.Streamed? then [i.snapshot] else FinalReading(i))
  {
    if i.Streamed? {
      MetricsInSnoc(published, Metrics(i.snapshot));
    } else if Answered(i) {
      MetricsInSnoc(published, Status(i.reply.value.status));
      if FinalReading(i) != [] {
        MetricsInSnoc(published + [Status(i.reply.value.status)], Metrics(FinalReading(i)[0]));
        assert published + Shows(i) == published + [Status(i.reply.value.status)] + [Metrics(FinalReading(i)[0])];
      }
    } else {
      assert published + Shows(i) == published;
    }
  }

  lemma EndsHere(inputs: seq<Input>, i: nat, published: seq<Event>, samples: seq<Snapshot>, status: RunStatus,
                 last: Option<Snapshot>, peak: real, published': seq<Event>, samples': seq<Snapshot>, ending: Ending)
    requires Underway(inputs, i, published, samples, status, last, peak) && i < |inputs| && Ends(inputs[i])
    requires published' == published + Shows(inputs[i]) && samples' == samples + FinalReading(inputs[i])
    requires ending == Ending(if inputs[i] == Deadline then Failed
                              else if Answered(inputs[i]) then inputs[i].reply.value.status else status,
                              LastOf(samples'), peak)
    ensures Recorded(false, inputs, published', samples', Some(ending), i + 1)
  {
    NextInput(inputs, i);
    MetricsShown(published, inputs[i]);
  }

  lemma StreamGoesOn(inputs: seq<Input>, i: nat, published: seq<Event>, samples: seq<Snapshot>, status: RunStatus,
                     last: Option<Snapshot>, peak: real, m: Snapshot)
    requires Underway(inputs, i, published, samples, status, last, peak) && i < |inputs| && inputs[i] == Streamed(m)
    ensures Underway(inputs, i + 1, published + [Metrics(m)], samples + [m], status, Some(m),
                     if m.currentRPS > peak then m.currentRPS else peak)
  {
    NextInput(inputs, i);
    MetricsInSnoc(published, Metrics(m));
    PeakNext(samples, peak, m);
  }

  lemma PollGoesOn(inputs: seq<Input>, i: nat, published: seq<Event>, samples: seq<Snapshot>, status: RunStatus,
                   last: Option<Snapshot>, peak: real, polled: RunStatus)
    requires Underway(inputs, i, published, samples, status, last, peak) && i < |inputs| && Answered(inputs[i])
    requires inputs[i].reply.value.status == polled && !IsTerminal(polled)
    ensures Underway(inputs, i + 1, published + [Status(polled)], samples, polled, last, peak)
  {
    NextInput(inputs, i);
    MetricsInSnoc(published, Status(polled));
    assert samples + [] == samples;
  }

  lemma MissGoesOn(inputs: seq<Input>, i: nat, published: seq<Event>, samples: seq<Snapshot>, status: RunStatus,
                   last: Option<Snapshot>, peak: real)
    requires Underway(inputs, i, published, samples, status, last, peak) && i < |inputs| && inputs[i] == Polled(None)
    ensures Underway(inputs, i + 1, published, samples, status, last, peak)
  {
    NextInput(inputs, i);
    assert published + [] == published && samples + [] == samples;
  }

  /** The deadline and the end of the stream show and store nothing more. */
  lemma QuietEnd(inputs: seq<Input>, i: nat, published: seq<Event>, samples: seq<Snapshot>, status: RunStatus,
                 last: Option<Snapshot>, peak: real, final: RunStatus)
    requires Underway(inputs, i, published, samples, status, last, peak) && i < |inputs|
    requires (inputs[i] == Deadline && final == Failed) || (inputs[i] == StreamClosed && final == status)
    ensures Recorded(false, inputs, published, samples, Some(Ending(final, last, peak)), i + 1)
  {
    assert published + [] == published && samples + [] == samples;
    EndsHere(inputs, i, published, samples, status, last, peak, published, samples, Ending(final, last, peak));
  }

  lemma Begins(inputs: seq<Input>)
    ensures Underway(inputs, 0, [], [], Running, None, 0.0)
    ensures Recorded(true, inputs, [], [], Some(Ending(Failed, None, 0.0)), 0)
  {
  }

  lemma AllRead(inputs: seq<Input>, published: seq<Event>, samples: seq<Snapshot>, status: RunStatus,
                last: Option<Snapshot>, peak: real)
    requires Underway(inputs, |inputs|, published, samples, status, last, peak)
    ensures Recorded(false, inputs, published, samples, None, |inputs|)
  {
    assert inputs[..|inputs|] == inputs;
  }

  /** A poll that finds the test over: its status, one final reading if it brought one, and the end. */
  method EndByPoll(ghost inputs: seq<Input>, ghost i: nat, poll: Poll, published: seq<Event>, samples: seq<Snapshot>,
                   ghost status: RunStatus, last: Option<Snapshot>, peak: real)
    returns (published': seq<Event>, samples': seq<Snapshot>, ending: Ending, ghost actions: seq<Action>)
    requires Underway(inputs, i, published, samples, status, last, peak)
    requires i < |inputs| && inputs[i] == Polled(Some(poll)) && IsTerminal(poll.status)
    ensures Recorded(false, inputs, published', samples', Some(ending), i + 1)
    ensures actions == EndActions(ending)[..3]
  {
    published', samples' := published + [Status(poll.status)], samples;
    var last' := last;
    if poll.metrics.Some? {
      var final := poll.metrics.value;
      last' := Some(final);
      published', samples' := published' + [Metrics(final)], samples' + [final];
    }
    assert published' == published + Shows(inputs[i]) && samples' == samples + FinalReading(inputs[i]);
    ending, actions := FinishRecording(poll.status, last', peak);
    EndsHere(inputs, i, published, samples, status, last, peak, published', samples', ending);
  }

  /** The event loop, up to an input that ends the recording. */
  method Loop(streamFails: bool, inputs: seq<Input>)
    returns (published: seq<Event>, samples: seq<Snapshot>, ending: Option<Ending>, used: nat,
             ghost actions: seq<Action>)
    ensures Recorded(streamFails, inputs, published, samples, ending, used)
    ensures actions == if ending.Some? then EndActions(ending.value)[..3] else []
  {
    published, samples, ending, used, actions := [], [], None, 0, [];
    var status, last, peak: real := Running, None, 0.0;
    var e;
    Begins(inputs);
    if streamFails {
      e, actions := FinishRecording(Failed, last, peak);
      return published, samples, Some(e), 0, actions;
    }
    while used < |inputs|
      invariant Underway(inputs, used, published, samples, status, last, peak) && actions == [] && ending == None
    {
      var input := inputs[used];
      ghost var i, shown, stored, known, newest := used, published, samples, status, last;
      used := used + 1;
      match input {
        case Deadline =>
          e, actions := FinishRecording(Failed, last, peak);
          QuietEnd(inputs, i, shown, stored, known, newest, peak, Failed);
          return published, samples, Some(e), used, actions;
        case StreamClosed =>
          e, actions := FinishRecording(status, last, peak);
          QuietEnd(inputs, i, shown, stored, known, newest, peak, status);
          return published, samples, Some(e), used, actions;
        case Streamed(m) =>
          StreamGoesOn(inputs, i, shown, stored, known, newest, peak, m);
          last := Some(m);
          if m.currentRPS > peak {
            peak := m.currentRPS;
          }
          published, samples := published + [Metrics(m)], samples + [m];
        case Polled(reply) =>
          if reply.None? {
            MissGoesOn(inputs, i, shown, stored, known, newest, peak);
          } else {
            if IsTerminal(reply.value.status) {
              published, samples, e, actions :=
                EndByPoll(inputs, i, reply.value, published, samples, status, last, peak);
              return published, samples, Some(e), used, actions;
            }
            PollGoesOn(inputs, i, shown, stored, known, newest, peak, reply.value.status);
            status := reply.value.status;
            published := published + [Status(status)];
          }
      }
    }
    AllRead(inputs, published, samples, status, last, peak);
  }

  /** What ends a recording: the deadline, the end of the stream, or a poll that finds the test over. */
  lemma EndsOn(i: Input)
    ensures Ends(i) <==> i == Deadline || i == StreamClosed
                         || (Answered(i) && i.reply.value.status in {Completed, Failed, Stopped})
  {
  }

  /** `k` is the latest successful poll. */
  ghost predicate LatestAnswer(inputs: seq<Input>, k: nat) {
    k < |inputs| && Answered(inputs[k]) && forall j :: k < j < |inputs| ==> !Answered(inputs[j])
  }

  lemma {:induction false} LastPolledIs(inputs: seq<Input>)
    ensures forall k: nat :: LatestAnswer(inputs, k) ==> LastPolled(inputs) == inputs[k].reply.value.status
    ensures (forall j :: 0 <= j < |inputs| ==> !Answered(inputs[j])) ==> LastPolled(inputs) == Running
  {
    if inputs != [] {
      var init := inputs[..|inputs| - 1];
      LastPolledIs(init);
      forall k: nat | LatestAnswer(inputs, k) ensures LastPolled(inputs) == inputs[k].reply.value.status {
        assert k < |inputs| - 1 ==> LatestAnswer(init, k);
      }
    }
  }

  /**
   The status a recording leaves: FAILED for one that could not open its stream or met the deadline,
   the final status for one whose poll found the test over, and otherwise that of the latest
   successful poll, RUNNING before the first.
   */
  lemma EndingStatus(streamFails: bool, inputs: seq<Input>, published: seq<Event>, samples: seq<Snapshot>,
                     ending: Ending, used: nat)
    requires Recorded(streamFails, inputs, published, samples, Some(ending), used)
    ensures streamFails ==> ending.status == Failed && ending.last == None && used == 0
    ensures !streamFails ==> used > 0
    ensures !streamFails && inputs[used - 1] == Deadline ==> ending.status == Failed
    ensures !streamFails && Answered(inputs[used - 1]) ==> ending.status == inputs[used - 1].reply.value.status
    ensures !streamFails && inputs[used - 1] == StreamClosed ==>
      && (forall k: nat :: LatestAnswer(inputs[..used], k) ==> ending.status == inputs[k].reply.value.status)
      && ((forall j :: 0 <= j < used ==> !Answered(inputs[j])) ==> ending.status == Running)
  {
    if !streamFails {
      LastPolledIs(inputs[..used]);
    }
  }

  /**
   The final reading of a poll that ends the recording is stored last, and the last stored sample is
   what the summary is made of.
   */
  lemma EndingReading(inputs: seq<Input>, published: seq<Event>, samples: seq<Snapshot>, ending: Ending, used: nat)
    requires Recorded(false, inputs, published, samples, Some(ending), used)
    ensures used > 0
    ensures Answered(inputs[used - 1]) && inputs[used - 1].reply.value.metrics.Some? ==>
      samples == StreamedIn(inputs[..used]) + [inputs[used - 1].reply.value.metrics.value]
    ensures !Answered(inputs[used - 1]) || inputs[used - 1].reply.value.metrics.None? ==>
      samples == StreamedIn(inputs[..used])
    ensures samples == [] ==> ending.last == None
    ensures samples != [] ==> ending.last == Some(samples[|samples| - 1])
  {
  }

  /** The peak is the greatest rate that came down the stream, or zero. */
  lemma EndingPeak(inputs: seq<Input>, published: seq<Event>, samples: seq<Snapshot>, ending: Ending, used: nat)
    requires Recorded(false, inputs, published, samples, Some(ending), used)
    ensures forall k :: 0 <= k < used && inputs[k].Streamed? ==> inputs[k].snapshot.currentRPS <= ending.peakRPS
    ensures ending.peakRPS == 0.0
            || exists k :: 0 <= k < used && inputs[k].Streamed? && inputs[k].snapshot.currentRPS == ending.peakRPS
  {
    StreamedInMembers(inputs[..used]);
    if ending.peakRPS != 0.0 {
      var m :| m in StreamedIn(inputs[..used]) && m.currentRPS == ending.peakRPS;
      var k :| 0 <= k < used && inputs[..used][k] == Streamed(m);
      assert inputs[k].Streamed? && inputs[k].snapshot.currentRPS == ending.peakRPS;
    }
    forall k | 0 <= k < used && inputs[k].Streamed? ensures inputs[k].snapshot.currentRPS <= ending.peakRPS {
      assert inputs[..used][k] == Streamed(inputs[k].snapshot);
    }
  }

  lemma {:induction false} StreamedInMembers(inputs: seq<Input>)
    ensures forall m :: m in StreamedIn(inputs) <==> exists k :: 0 <= k < |inputs| && inputs[k] == Streamed(m)
  {
    if inputs != [] {
      var init, last := inputs[..|inputs| - 1], inputs[|inputs| - 1];
      StreamedInMembers(init);
      forall m ensures m in StreamedIn(inputs) <==> exists k :: 0 <= k < |inputs| && inputs[k] == Streamed(m) {
        if m in StreamedIn(init) {
          var k :| 0 <= k < |init| && init[k] == Streamed(m);
          assert inputs[k] == Streamed(m);
        }
        if k :| 0 <= k < |inputs| && inputs[k] == Streamed(m) {
          assert k < |init| ==> init[k] == Streamed(m);
        }
      }
    }
  }

  /** A poll is shown as its status, and a poll that ends the recording with its reading after that. */
  lemma ShowsFields(status: RunStatus, m: Snapshot)
    ensures Shows(Streamed(m)) == [Metrics(m)] && Shows(Polled(None)) == Shows(Deadline) == Shows(StreamClosed) == []
    ensures Shows(Polled(Some(Poll(status, None)))) == [Status(status)]
    ensures Shows(Polled(Some(Poll(status, Some(m)))))
            == if status in {Completed, Failed, Stopped} then [Status(status), Metrics(m)] else [Status(status)]
  {
  }

  lemma Associative<T>(a: seq<T>, b: seq<T>, c: seq<T>)
    ensures (a + b) + c == a + (b + c)
  {
  }

  /** What is shown goes input by input. */
  lemma {:induction false} ShownForConcat(a: seq<Input>, b: seq<Input>)
    ensures ShownFor(a + b) == ShownFor(a) + ShownFor(b)
  {
    if b == [] {
      assert a + b == a;
    } else {
      var init, last := b[..|b| - 1], b[|b| - 1];
      ShownForConcat(a, init);
      ConcatSnoc(a, b);
      Associative(ShownFor(a), ShownFor(init), Shows(last));
    }
  }

  /** Every streamed snapshot is stored, in the order of the stream. */
  lemma {:induction false} StreamedInConcat(a: seq<Input>, b: seq<Input>)
    ensures StreamedIn(a + b) == StreamedIn(a) + StreamedIn(b)
  {
    if b == [] {
      assert a + b == a;
    } else {
      StreamedInConcat(a, b[..|b| - 1]);
      ConcatSnoc(a, b);
    }
  }

  lemma StreamedInOne(i: Input)
    ensures StreamedIn([i]) == if i.Streamed? then [i.snapshot] else []
  {
    Snoc([], i);
    assert [] + [i] == [i];
  }

  /** Which statuses a recording can leave behind: a terminal one, unless the stream was lost. */
  lemma EndStatusIsTerminalUnlessStreamLost(inputs: seq<Input>)
    requires inputs != [] && Ends(inputs[|inputs| - 1])
    requires forall k :: 0 <= k < |inputs| - 1 ==> !Ends(inputs[k])
    ensures IsTerminal(EndStatus(inputs)) <==> inputs[|inputs| - 1] != StreamClosed
  {
    if inputs[|inputs| - 1] == StreamClosed {
      NotYetTerminal(inputs[..|inputs| - 1]);
    }
  }

  lemma {:induction false} NotYetTerminal(inputs: seq<Input>)
    requires forall k :: 0 <= k < |inputs| ==> !Ends(inputs[k])
    ensures !IsTerminal(LastPolled(inputs))
  {
    if inputs != [] {
      NotYetTerminal(inputs[..|inputs| - 1]);
    }
  }
}
