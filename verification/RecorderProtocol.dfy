/** What the recorder does at the end of a run, in its order, is what the queue protocol lets a session do. */
module RecorderProtocol {
  import opened RunTable
  import opened Lists
  import R = Recorder
  import opened Dispatcher
  import opened QueueProtocol

  /** The protocol step of one recorder action by session `i`; the store may fail the write. */
  function StepOf(i: nat, a: R.Action, at: int, summary: Summary, fails: bool): Step {
    match a
    case FinishRunCalled(e) => Record(i, Finish(e.status, at, summary, fails))
    case SessionClosed(_) => Record(i, Close)
    case OnDoneCalled(_) => Record(i, FireDone)
    case SessionRemoved => Record(i, Remove)
  }

  function StepsOf(i: nat, actions: seq<R.Action>, at: int, summary: Summary, fails: bool): seq<Step> {
    seq(|actions|, k requires 0 <= k < |actions| => StepOf(i, actions[k], at, summary, fails))
  }

  /** The row a session leaves behind. */
  function Written(rows: Rows, run: string, status: RunStatus, at: int, summary: Summary, fails: bool): Rows {
    if fails then rows else Finished(rows, run, status, at, summary)
  }

  lemma FinishStep(s: State, i: nat, run: string, status: RunStatus, at: int, summary: Summary, fails: bool)
    requires status != Queued && i in s.sessions && s.sessions[i] == Session(run, Recording)
    ensures Apply(s, Record(i, Finish(status, at, summary, fails)))
            == s.(sessions := s.sessions[i := Session(run, Stage.Written)],
                  rows := Written(s.rows, run, status, at, summary, fails))
  {
  }

  lemma CloseStep(s: State, i: nat, run: string)
    requires i in s.sessions && s.sessions[i] == Session(run, Stage.Written)
    ensures Apply(s, Record(i, Close)) == s.(sessions := s.sessions[i := Session(run, Closed)])
  {
  }

  lemma DoneStep(s: State, i: nat, run: string)
    requires i in s.sessions && s.sessions[i] == Session(run, Closed) && s.current == run
    ensures Apply(s, Record(i, FireDone))
            == s.(sessions := s.sessions[i := Session(run, Fired)], fired := Bump(s.fired, i), current := "",
                  holder := Nobody)
  {
  }

  lemma RemoveStep(s: State, i: nat, run: string)
    requires i in s.sessions && s.sessions[i] == Session(run, Fired)
    ensures Apply(s, Record(i, Remove)) == s.(sessions := s.sessions[i := Session(run, Gone)], live := s.live - {run})
  {
  }

  lemma FourSteps(s: State, a: Step, b: Step, c: Step, d: Step)
    ensures RunFrom(s, [a, b, c, d]) == Apply(Apply(Apply(Apply(s, a), b), c), d)
  {
    RunMore(s, [], a);
    RunMore(s, [a], b);
    RunMore(s, [a, b], c);
    RunMore(s, [a, b, c], d);
    assert [] + [a] == [a] && [a] + [b] == [a, b] && [a, b] + [c] == [a, b, c] && [a, b, c] + [d] == [a, b, c, d];
  }

  lemma EndSteps(s: State, i: nat, run: string, status: RunStatus, at: int, summary: Summary, fails: bool)
    requires status != Queued && i in s.sessions && s.sessions[i] == Session(run, Recording) && s.current == run
    ensures RunFrom(s, [Record(i, Finish(status, at, summary, fails)), Record(i, Close), Record(i, FireDone),
                        Record(i, Remove)])
            == s.(sessions := s.sessions[i := Session(run, Gone)], fired := Bump(s.fired, i), live := s.live - {run},
                  rows := Written(s.rows, run, status, at, summary, fails), current := "", holder := Nobody)
  {
    var write := Record(i, Finish(status, at, summary, fails));
    FourSteps(s, write, Record(i, Close), Record(i, FireDone), Record(i, Remove));
    FinishStep(s, i, run, status, at, summary, fails);
    var s1 := Apply(s, write);
    CloseStep(s1, i, run);
    var s2 := Apply(s1, Record(i, Close));
    DoneStep(s2, i, run);
    RemoveStep(Apply(s2, Record(i, FireDone)), i, run);
    SameKey(s.sessions, i, Session(run, Stage.Written), Session(run, Closed), Session(run, Fired));
    SameKey(s.sessions, i, Session(run, Fired), Session(run, Fired), Session(run, Gone));
  }

  lemma StepsOfEnd(i: nat, e: R.Ending, at: int, summary: Summary, fails: bool)
    ensures StepsOf(i, R.EndActions(e), at, summary, fails)
            == [Record(i, Finish(e.status, at, summary, fails)), Record(i, Close), Record(i, FireDone),
                Record(i, Remove)]
  {
  }

  /**
   However a recording ends, its actions are a run of the protocol: from a session that is recording
   they write the ending, close the session, release the slot by one onDone call, and forget the
   session, in this order; and no onDone call came before.
   */
  lemma RunFollowsProtocol(s: State, i: nat, run: string, e: R.Ending, at: int, summary: Summary, fails: bool)
    requires Reachable(s) && i in s.sessions && s.sessions[i] == Session(run, Recording) && e.status != Queued
    ensures s.current == run && s.holder == Recorder(i) && Tally(s.fired, i) == 0
    ensures RunFrom(s, StepsOf(i, R.EndActions(e), at, summary, fails))
            == s.(sessions := s.sessions[i := Session(run, Gone)], fired := Bump(s.fired, i), live := s.live - {run},
                  rows := Written(s.rows, run, e.status, at, summary, fails), current := "", holder := Nobody)
  {
    ReachableInv(s);
    assert SessionOk(s, i);
    EndSteps(s, i, run, e.status, at, summary, fails);
    StepsOfEnd(i, e, at, summary, fails);
  }
}
