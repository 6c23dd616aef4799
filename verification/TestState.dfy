/** The mutable state of one distributed test and its two atomic transitions. */
module TestState {

  datatype TestStatus = Pending | Running | Completed | Failed | Stopped

  /** Assigned virtual users per worker, status, and the workers that reported the test finished. */
  datatype TestView = TestView(workers: map<string, int>, status: TestStatus, done: set<string>)

  function WithStatus(t: TestView, status: TestStatus): TestView {
    t.(status := status)
  }

  /** Whether marking `workerID` done asks the caller to complete the test. */
  predicate FiresCompletion(t: TestView, workerID: string) {
    && workerID in t.workers
    && t.status == Running
    && |t.done + {workerID}| >= |t.workers|
  }

  function MarkDone(t: TestView, workerID: string): TestView {
    if workerID in t.workers then t.(done := t.done + {workerID}) else t
  }

  /** While `done` holds assigned workers only, completion fires exactly on the last missing one. */
  lemma FiresIffAllDone(t: TestView, workerID: string)
    requires t.done <= t.workers.Keys
    ensures FiresCompletion(t, workerID)
            <==> workerID in t.workers && t.status == Running && t.done + {workerID} == t.workers.Keys
  {
    if workerID in t.workers {
      var missing := t.workers.Keys - (t.done + {workerID});
      assert t.workers.Keys == (t.done + {workerID}) + missing;
      assert |t.workers| == |t.workers.Keys|;
    }
  }
}
