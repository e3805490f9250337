/** Timeouts over whole runs of one device: the application is told of a timeout only after the
true deadline, and none is pending past a cycle after it. */
module NodeTimeouts {
  import opened Words
  import opened Wire
  import opened Node
  import opened NodeRequests
  import RT = RequestTracker
  import RR = RequestRuns

  // -------------------------------------------------------------------- timely runs

  /** Times never go back, timeouts and the gaps between cycles stay below 2^31 ms. */
  ghost predicate TimelyAct(cfg: NodeConfig, a: TimedAct, now: nat, processed: nat) {
    && now <= a.at
    && (a.act.RequestAct? ==> RR.Effective(a.act.timeoutMs, cfg.requestTimeoutMs) < TWO_31)
    && (a.act.ProcessAct? ==> a.at - processed < TWO_31)
  }

  ghost function ProcessedBy(a: TimedAct, processed: nat): nat {
    if a.act.ProcessAct? then a.at else processed
  }

  ghost predicate TimelyActs(cfg: NodeConfig, run: seq<TimedAct>, now: nat, processed: nat)
    decreases |run|
  {
    run == [] || (TimelyAct(cfg, run[0], now, processed)
                  && TimelyActs(cfg, run[1..], run[0].at, ProcessedBy(run[0], processed)))
  }

  /** When the last cycle of the run was. */
  ghost function LastCycle(run: seq<TimedAct>, processed: nat): nat
    decreases |run|
  {
    if run == [] then processed else LastCycle(run[1..], ProcessedBy(run[0], processed))
  }

  /** The true deadlines of the requests that found a slot, in the order of `Entered`. */
  ghost function Deadlines(cfg: NodeConfig, setup: Setup, n: NodeState, run: seq<TimedAct>): seq<nat>
    decreases |run|
  {
    if run == [] then []
    else DeadlineOf(cfg, n, run[0]) + Deadlines(cfg, setup, Next(cfg, setup, n, run[0]), run[1..])
  }

  ghost function DeadlineOf(cfg: NodeConfig, n: NodeState, a: TimedAct): seq<nat> {
    if Enters(n, a.act) != [] then [a.at + RR.Effective(a.act.timeoutMs, cfg.requestTimeoutMs)] else []
  }

  /** When the application was told of each of its requests, in the order of `Told`. */
  ghost function ToldTimes(cfg: NodeConfig, setup: Setup, n: NodeState, run: seq<TimedAct>): seq<nat>
    decreases |run|
  {
    if run == [] then []
    else
      var n1 := Next(cfg, setup, n, run[0]);
      Copies(run[0].at, |Told(n1.app)| - |Told(n.app)|) + ToldTimes(cfg, setup, n1, run[1..])
  }

  ghost function Copies(at: nat, k: int): seq<nat> {
    if k <= 0 then [] else seq(k, _ => at)
  }

  /** A frame the device took from its queue answered request `id` with the return code of a
      timeout. */
  ghost predicate TimeoutHeard(cfg: NodeConfig, run: seq<TimedAct>, id: u32) {
    exists i :: 0 <= i < |run| && HearsTimeout(cfg, run[i].act, id)
  }

  // ----------------------------------------------------------------- what a run adds

  ghost function AllDue(issues: seq<RR.Issue>): seq<nat> {
    seq(|issues|, i requires 0 <= i < |issues| => issues[i].due)
  }

  /** The times of the completions that have a callback. */
  ghost function AnsweredTimes(done: seq<RR.Done>): seq<nat> {
    if done == [] then []
    else
      var last := done[|done| - 1];
      AnsweredTimes(done[..|done| - 1]) + (if last.completion.entry.callback.Some? then [last.at] else [])
  }

  lemma {:induction false} AnsweredTimesConcat(a: seq<RR.Done>, b: seq<RR.Done>)
    ensures AnsweredTimes(a + b) == AnsweredTimes(a) + AnsweredTimes(b)
    decreases |b|
  {
    if b == [] {
      assert a + b == a;
    } else {
      assert (a + b)[..|a + b| - 1] == a + b[..|b| - 1];
      AnsweredTimesConcat(a, b[..|b| - 1]);
    }
  }

  lemma {:induction false} AnsweredAtOnce(done: seq<RR.Done>, at: nat)
    requires forall d :: 0 <= d < |done| ==> done[d].at == at
    ensures AnsweredTimes(done) == Copies(at, |Completions(CompletionsOf(done))|)
    decreases |done|
  {
    if done != [] {
      AnsweredAtOnce(done[..|done| - 1], at);
    }
  }

  /** A completion is a timeout, or reports the answer the act handed over. */
  ghost predicate Explained(cfg: NodeConfig, a: Act, d: RR.Done) {
    d.timeout || (d.completion.rc == 6 ==> HearsTimeout(cfg, a, d.completion.entry.requestId))
  }

  /** The tracker's history from `w` to `w'` during one act. */
  ghost predicate Grows(cfg: NodeConfig, a: TimedAct, w: RR.World, w': RR.World) {
    && w.done <= w'.done
    && (forall d :: |w.done| <= d < |w'.done| ==> w'.done[d].at == a.at && Explained(cfg, a.act, w'.done[d]))
    && w.issues <= w'.issues
    && (forall i :: |w.issues| <= i < |w'.issues| ==> DueAfter(cfg, a, w'.issues[i]))
  }

  ghost predicate DueAfter(cfg: NodeConfig, a: TimedAct, issue: RR.Issue) {
    a.act.RequestAct? && issue.due == a.at + RR.Effective(a.act.timeoutMs, cfg.requestTimeoutMs)
  }

  lemma StepGrows(cfg: NodeConfig, a: TimedAct, w: RR.World, e: RR.Timed)
    requires RR.Shape(w) && Fits(cfg, a, e)
    ensures Grows(cfg, a, w, RR.Step(w, e, cfg.requestTimeoutMs))
  {
    hide HearsTimeout, Wrap32, RT.Expired, RT.AllocateIn;
    if e.op.EvictOp? {
      EvictedAt(w, e.at, |w.owner|);
    }
  }

  lemma {:induction false} EvictedAt(w: RR.World, at: nat, n: nat)
    requires RR.Shape(w) && n <= |w.owner|
    ensures forall d :: 0 <= d < |RR.TimeoutsOf(w, at, n)| ==>
      RR.TimeoutsOf(w, at, n)[d].at == at && RR.TimeoutsOf(w, at, n)[d].timeout
  {
    hide Wrap32, RT.Expired;
    if n > 0 {
      EvictedAt(w, at, n - 1);
    }
  }

  lemma GrowsTrans(cfg: NodeConfig, a: TimedAct, w: RR.World, w1: RR.World, w2: RR.World)
    requires Grows(cfg, a, w, w1) && Grows(cfg, a, w1, w2)
    ensures Grows(cfg, a, w, w2)
  {
    hide Explained, DueAfter;
    forall d | |w.done| <= d < |w2.done|
      ensures w2.done[d].at == a.at && Explained(cfg, a.act, w2.done[d])
    {
      if d < |w1.done| {
        assert w2.done[d] == w1.done[d];
      }
    }
    forall i | |w.issues| <= i < |w2.issues|
      ensures DueAfter(cfg, a, w2.issues[i])
    {
      if i < |w1.issues| {
        assert w2.issues[i] == w1.issues[i];
      }
    }
  }

  /** The operations of one act are timely, and the last eviction is the cycle's. */
  lemma {:induction false} OpsTimely(cfg: NodeConfig, a: TimedAct, w: RR.World, ops: seq<RR.Timed>)
    requires RR.Shape(w) && AllFit(cfg, a, ops) && TimelyAct(cfg, a, w.now, w.evictedAt)
    ensures RR.TimelyRun(w, ops, cfg.requestTimeoutMs)
    ensures var w' := RR.Run(w, ops, cfg.requestTimeoutMs);
      && Grows(cfg, a, w, w') && w'.now <= a.at
      && w'.evictedAt == (if exists i :: 0 <= i < |ops| && ops[i].op.EvictOp? then a.at else w.evictedAt)
    decreases |ops|
  {
    hide Grows, HearsTimeout, RT.AllocateIn, RT.CompleteIn, RT.EvictFrom;
    if ops == [] {
      GrowsSelf(cfg, a, w);
    } else {
      assert Fits(cfg, a, ops[0]);
      var w1 := RR.Step(w, ops[0], cfg.requestTimeoutMs);
      RR.StepShape(w, ops[0], cfg.requestTimeoutMs);
      StepGrows(cfg, a, w, ops[0]);
      OpsTimely(cfg, a, w1, ops[1..]);
      GrowsTrans(cfg, a, w, w1, RR.Run(w, ops, cfg.requestTimeoutMs));
      EvictsAmong(ops);
    }
  }

  lemma GrowsSelf(cfg: NodeConfig, a: TimedAct, w: RR.World)
    ensures Grows(cfg, a, w, w)
  {
  }

  lemma EvictsAmong(ops: seq<RR.Timed>)
    requires ops != []
    ensures (exists i :: 0 <= i < |ops| && ops[i].op.EvictOp?)
      <==> ops[0].op.EvictOp? || (exists i :: 0 <= i < |ops[1..]| && ops[1..][i].op.EvictOp?)
  {
    if i :| 0 <= i < |ops| && ops[i].op.EvictOp? {
      assert i > 0 ==> ops[1..][i - 1].op.EvictOp?;
    }
    if i :| 0 <= i < |ops[1..]| && ops[1..][i].op.EvictOp? {
      assert ops[i + 1].op.EvictOp?;
    }
  }

  /** What one act adds to the deadlines and the times of the answers. */
  lemma ActAdds(cfg: NodeConfig, n: NodeState, n': NodeState, a: TimedAct, w: RR.World, ops: seq<RR.Timed>)
    requires Shadows(n, w) && Follows(n', w, ops, cfg.requestTimeoutMs, Enters(n, a.act))
    requires Grows(cfg, a, w, RR.Run(w, ops, cfg.requestTimeoutMs))
    ensures var w' := RR.Run(w, ops, cfg.requestTimeoutMs);
      && AllDue(w'.issues) == AllDue(w.issues) + DeadlineOf(cfg, n, a)
      && AnsweredTimes(w'.done) == AnsweredTimes(w.done) + Copies(a.at, |Told(n'.app)| - |Told(n.app)|)
  {
    hide RR.Run, Enters, Told, Completions, CompletionsOf, Explained, AnsweredTimes, AskedBy;
    var w' := RR.Run(w, ops, cfg.requestTimeoutMs);
    SameSizes(n, w, w', Enters(n, a.act));
    EntersOne(n, a.act);
    var more := w'.done[|w.done|..];
    assert w'.done == w.done + more;
    AnsweredTimesConcat(w.done, more);
    AnsweredAtOnce(more, a.at);
    CompletionsOfConcat(w.done, more);
    CompletionsConcat(CompletionsOf(w.done), CompletionsOf(more));
    if |w'.issues| > |w.issues| {
      assert DueAfter(cfg, a, w'.issues[|w.issues|]);
    }
  }

  lemma SameSizes(n: NodeState, w: RR.World, w': RR.World, more: seq<Asked>)
    requires AllAsked(w'.issues) == AllAsked(w.issues) + more
    ensures |w'.issues| == |w.issues| + |more|
  {
    assert |AllAsked(w'.issues)| == |w'.issues|;
  }

  lemma EntersOne(n: NodeState, a: Act)
    ensures |Enters(n, a)| <= 1
  {
  }

  // ------------------------------------------------------------------ over whole runs

  ghost predicate ExplainedIn(cfg: NodeConfig, run: seq<TimedAct>, d: RR.Done) {
    d.timeout || (d.completion.rc == 6 ==> TimeoutHeard(cfg, run, d.completion.entry.requestId))
  }

  /** `ops` are a timely run of the tracker, and what they add is what the acts add. */
  ghost predicate Traces(cfg: NodeConfig, setup: Setup, n: NodeState, run: seq<TimedAct>, w: RR.World,
                         ops: seq<RR.Timed>)
    requires RR.Shape(w)
  {
    var w' := RR.Run(w, ops, cfg.requestTimeoutMs);
    && RR.TimelyRun(w, ops, cfg.requestTimeoutMs)
    && w'.evictedAt == LastCycle(run, w.evictedAt)
    && AllDue(w'.issues) == AllDue(w.issues) + Deadlines(cfg, setup, n, run)
    && AnsweredTimes(w'.done) == AnsweredTimes(w.done) + ToldTimes(cfg, setup, n, run)
    && w.done <= w'.done && (forall d :: |w.done| <= d < |w'.done| ==> ExplainedIn(cfg, run, w'.done[d]))
  }

  lemma {:induction false} TimelyConcat(w: RR.World, a: seq<RR.Timed>, b: seq<RR.Timed>, defaultMs: u32)
    requires RR.Shape(w) && RR.TimelyRun(w, a, defaultMs)
    requires RR.Shape(RR.Run(w, a, defaultMs)) && RR.TimelyRun(RR.Run(w, a, defaultMs), b, defaultMs)
    ensures RR.TimelyRun(w, a + b, defaultMs)
    decreases |a|
  {
    hide RR.Step, RR.Timely;
    if a == [] {
      assert a + b == b;
    } else {
      RR.StepShape(w, a[0], defaultMs);
      assert (a + b)[0] == a[0] && (a + b)[1..] == a[1..] + b;
      TimelyConcat(RR.Step(w, a[0], defaultMs), a[1..], b, defaultMs);
    }
  }

  lemma {:induction false} RunTraces(cfg: NodeConfig, setup: Setup, n: NodeState, run: seq<TimedAct>, w: RR.World,
                                     now: nat) returns (ops: seq<RR.Timed>)
    requires Shadows(n, w) && w.now <= now && TimelyActs(cfg, run, now, w.evictedAt)
    ensures Follows(After(cfg, setup, n, run), w, ops, cfg.requestTimeoutMs, Entered(cfg, setup, n, run))
    ensures Traces(cfg, setup, n, run, w, ops)
    decreases |run|
  {
    hide Shadows, RR.Run, RR.TimelyRun, Next, Enters, Rests, Grows, ExplainedIn, AllDue, AnsweredTimes, Told, Copies,
      DeadlineOf;
    if run == [] {
      RestsSelf(n);
      NoOps(n, n, w, cfg.requestTimeoutMs);
      NothingTraced(cfg, setup, n, w);
      ops := [];
    } else {
      var a := run[0];
      var n1 := Next(cfg, setup, n, a);
      var first := ActFollows(cfg, setup, n, a, w);
      var w1 := RR.Run(w, first, cfg.requestTimeoutMs);
      OpsTimely(cfg, a, w, first);
      ActAdds(cfg, n, n1, a, w, first);
      CycleEvicts(cfg, a, first);
      var rest := RunTraces(cfg, setup, n1, run[1..], w1, a.at);
      MoreOps(n1, After(cfg, setup, n, run), w, first, rest, cfg.requestTimeoutMs, Enters(n, a.act),
              Entered(cfg, setup, n1, run[1..]));
      TimelyConcat(w, first, rest, cfg.requestTimeoutMs);
      RunConcat(w, first, rest, cfg.requestTimeoutMs);
      ExplainedAll(cfg, run, w, w1, RR.Run(w1, rest, cfg.requestTimeoutMs));
      ops := first + rest;
    }
  }

  lemma NothingTraced(cfg: NodeConfig, setup: Setup, n: NodeState, w: RR.World)
    requires RR.Shape(w)
    ensures Traces(cfg, setup, n, [], w, [])
  {
  }

  lemma CycleEvicts(cfg: NodeConfig, a: TimedAct, ops: seq<RR.Timed>)
    requires AllFit(cfg, a, ops) && (a.act.ProcessAct? ==> ops != [] && ops[|ops| - 1].op.EvictOp?)
    ensures (exists i :: 0 <= i < |ops| && ops[i].op.EvictOp?) <==> a.act.ProcessAct?
  {
    hide HearsTimeout;
    if i :| 0 <= i < |ops| && ops[i].op.EvictOp? {
      assert Fits(cfg, a, ops[i]);
    }
  }

  lemma ExplainedAll(cfg: NodeConfig, run: seq<TimedAct>, w: RR.World, w1: RR.World, w2: RR.World)
    requires run != [] && Grows(cfg, run[0], w, w1) && w1.done <= w2.done
    requires forall d :: |w1.done| <= d < |w2.done| ==> ExplainedIn(cfg, run[1..], w2.done[d])
    ensures w.done <= w2.done && forall d :: |w.done| <= d < |w2.done| ==> ExplainedIn(cfg, run, w2.done[d])
  {
    hide HearsTimeout, DueAfter;
    forall d | |w.done| <= d < |w2.done|
      ensures ExplainedIn(cfg, run, w2.done[d])
    {
      var x := w2.done[d];
      if d < |w1.done| {
        assert x == w1.done[d] && Explained(cfg, run[0].act, x);
      } else if !x.timeout && x.completion.rc == 6 {
        assert ExplainedIn(cfg, run[1..], x);
        var i :| 0 <= i < |run[1..]| && HearsTimeout(cfg, run[1..][i].act, x.completion.entry.requestId);
        assert HearsTimeout(cfg, run[i + 1].act, x.completion.entry.requestId);
      }
    }
  }

  /** What one more completion adds to the three lists. */
  lemma OneMore(done: seq<RR.Done>)
    requires done != []
    ensures var last, rest := done[|done| - 1], done[..|done| - 1];
      var told := last.completion.entry.callback.Some?;
      && Completions(CompletionsOf(done))
         == Completions(CompletionsOf(rest)) + (if told then [RequestDone(last.completion)] else [])
      && AnsweredTimes(done) == AnsweredTimes(rest) + (if told then [last.at] else [])
      && Answered(done) == Answered(rest) + (if told then [last.issue] else [])
  {
    var last, rest := done[|done| - 1], done[..|done| - 1];
    var all := CompletionsOf(done);
    assert all == CompletionsOf(rest) + [last.completion] && all[..|all| - 1] == CompletionsOf(rest);
  }

  lemma {:induction false} SameCount(done: seq<RR.Done>)
    ensures |Completions(CompletionsOf(done))| == |AnsweredTimes(done)| == |Answered(done)|
    decreases |done|
  {
    if done != [] {
      hide *;
      OneMore(done);
      SameCount(done[..|done| - 1]);
    }
  }

  /** The k-th event the application was told, among the completions. */
  lemma {:induction false} Kth(done: seq<RR.Done>, k: nat) returns (d: nat)
    requires k < |Answered(done)|
    ensures |Completions(CompletionsOf(done))| == |AnsweredTimes(done)| == |Answered(done)|
    ensures d < |done| && done[d].issue == Answered(done)[k] && done[d].at == AnsweredTimes(done)[k]
    ensures Completions(CompletionsOf(done))[k] == RequestDone(done[d].completion)
    decreases |done|
  {
    assert done != [];
    hide *;
    var n := |done| - 1;
    OneMore(done);
    SameCount(done[..n]);
    SameCount(done);
    if k < |Answered(done[..n])| {
      d := Kth(done[..n], k);
    } else {
      d := n;
    }
  }

  /** An event with code 6, E_TIMEOUT, came after the deadline, or reports a frame with that code. */
  ghost predicate LateOrHeard(cfg: NodeConfig, run: seq<TimedAct>, x: RT.Completion, deadline: nat, at: nat) {
    x.rc == 6 ==> deadline < at || TimeoutHeard(cfg, run, x.entry.requestId)
  }

  /** On every timely run of a device, across clock wraps: whenever the application is told of a
      timeout, the request's true deadline has passed, unless a frame answered the request
      with that return code; and no request is pending that was due before the last cycle. */
  lemma TimeoutsAreLate(cfg: NodeConfig, setup: Setup, n: NodeState, slots: nat, run: seq<TimedAct>)
      returns (answers: seq<nat>, owner: seq<nat>)
    requires NoRequests(n, slots) && TimelyActs(cfg, run, 0, 0)
    ensures var n' := After(cfg, setup, n, run);
      var asked, due, times := Entered(cfg, setup, n, run), Deadlines(cfg, setup, n, run),
        ToldTimes(cfg, setup, n, run);
      && Reports(Told(n'.app), answers, asked) && |due| == |asked| && |times| == |answers|
      && (forall k :: 0 <= k < |answers| ==>
          LateOrHeard(cfg, run, Told(n'.app)[k].completion, due[answers[k]], times[k]))
      && (forall i, j: nat :: Pending(n'.requests.entries, owner, asked, i, j) ==> LastCycle(run, 0) <= due[j])
  {
    hide RR.Run, RR.TimelyRun, Next, RT.ActiveSlots, RR.HoldsLatest, Told, Completions, CompletionsOf, Answered,
      AnsweredTimes, LastCycle,
      TimeoutHeard, Deadlines, ToldTimes, Entered, After;
    var w0 := RR.Initial(slots);
    StartShadows(n, slots);
    var ops := RunTraces(cfg, setup, n, run, w0, 0);
    var w := RR.Run(w0, ops, cfg.requestTimeoutMs);
    var n' := After(cfg, setup, n, run);
    var asked, due, times := Entered(cfg, setup, n, run), Deadlines(cfg, setup, n, run), ToldTimes(cfg, setup, n, run);
    StartsEmpty(slots);
    assert AllAsked(w.issues) == asked && AllDue(w.issues) == due && AnsweredTimes(w.done) == times;
    RR.RequestConservation(slots, ops, cfg.requestTimeoutMs);
    RR.TimeoutsAreTrue(slots, ops, cfg.requestTimeoutMs);
    answers, owner := Answered(w.done), w.owner;
    RecordedAll(w);
    AnsweredReports(w.done, w.issues);
    SameCount(w.done);
    forall k | 0 <= k < |answers|
      ensures LateOrHeard(cfg, run, Told(n'.app)[k].completion, due[answers[k]], times[k])
    {
      var d := Kth(w.done, k);
      assert ExplainedIn(cfg, run, w.done[d]);
    }
  }

  lemma StartsEmpty(slots: nat)
    ensures var w0 := RR.Initial(slots);
      && w0.done == [] && AnsweredTimes(w0.done) == [] && w0.now == 0 && w0.evictedAt == 0
      && (forall s: seq<Asked> :: AllAsked(w0.issues) + s == s)
        && (forall s: seq<nat> :: AllDue(w0.issues) + s == s && [] + s == s)
  {
  }
}
