/**
 * What the LX retriever's run and runTopK promise, proved about the
 * small-step functions of module Mixed that the retriever's methods are
 * proved against: where run stops, what each batch and each query turns into,
 * that a batch's queues are built at most once, that inactivity flags are
 * never cleared and are counted exactly, and what one top-k query does to the
 * top-k buffer.
 */
module MixedProperties {
  import opened Wrappers
  import opened RetrievalArgs
  import opened Mixed

  /** t1 is t0 with some events appended. */
  predicate Extends(t0: seq<Event>, t1: seq<Event>)
  {
    |t0| <= |t1| && t1[..|t0|] == t0
  }

  /** The batch an event concerns, if any. */
  function BatchOf(e: Event): Option<nat>
  {
    match e
    case BatchScan(_, b) => Some(b)
    case QueryScan(_, b, _, _, _) => Some(b)
    case TopKQueryScan(_, b, _, _, _) => Some(b)
    case Preprocess(b, _) => Some(b)
    case _ => None
  }

  /** Appending in two steps appends what both steps append. */
  lemma ExtendsTrans(t0: seq<Event>, t1: seq<Event>, t2: seq<Event>)
    requires Extends(t0, t1) && Extends(t1, t2)
    ensures Extends(t0, t2) && t2[|t0|..] == t1[|t0|..] + t2[|t1|..]
  {
    assert t2[..|t0|] == t2[..|t1|][..|t0|];
    assert t2[|t0|..] == t2[|t0|..|t1|] + t2[|t1|..];
    assert t2[|t0|..|t1|] == t2[..|t1|][|t0|..];
  }

  // ---------------------------------------------------------------------------
  // run: where it stops and what it calls

  /** The first batch at or after b whose longest query is below the threshold, or the end. */
  function StopBatch(thr: real, batches: seq<QueryBatch>, b: nat): (c: nat)
    requires b <= |batches|
    ensures b <= c <= |batches|
    ensures forall x :: b <= x < c ==> batches[x].normHi >= thr
    ensures c < |batches| ==> batches[c].normHi < thr
    decreases |batches| - b
  {
    if b == |batches| || batches[b].normHi < thr then b else StopBatch(thr, batches, b + 1)
  }

  /** The first row at or after i whose length is below the threshold, or end. */
  function StopRow(thr: real, norms: seq<real>, end: nat, i: nat): (r: nat)
    requires i <= end <= |norms|
    ensures i <= r <= end
    ensures forall x :: i <= x < r ==> norms[x] >= thr
    ensures r < end ==> norms[r] < thr
    decreases end - i
  {
    if i == end || norms[i] < thr then i else StopRow(thr, norms, end, i + 1)
  }

  /**
   * The scans of rows i..stop-1 of batch b: each by the arm its length picks;
   * an alternative scan first makes the query's own queue current, a baseline
   * scan sees whatever queue is current (q before row i).
   */
  function ExpectedScans(env: RunEnv, b: nat, startPos: nat, i: nat, stop: nat, q: Option<QueueRef>): (r: seq<Event>)
    requires startPos <= i <= stop <= |env.qm.ids| && stop <= |env.qm.norms|
    ensures |r| == stop - i
    decreases stop - i
  {
    if i == stop then []
    else
      var arm := QueryArm(env.bucket, env.qm.norms[i]);
      var q' := if arm == Alternative then Some(QueueRef(b, i - startPos)) else q;
      [QueryScan(arm, b, i, env.qm.ids[i], q')] + ExpectedScans(env, b, startPos, i + 1, stop, q')
  }

  /** Scan n of ExpectedScans is of row i + n, by the baseline iff t_b * norm > threshold. */
  predicate IsQueryScan(env: RunEnv, e: Event, b: nat, row: nat, startPos: nat)
    requires startPos <= row < |env.qm.ids| && row < |env.qm.norms|
  {
    && e.QueryScan? && e.batch == b && e.row == row && e.queryId == env.qm.ids[row]
    && (e.arm == Baseline <==> env.bucket.tb * env.qm.norms[row] > env.bucket.threshold)
    && (e.arm == Alternative ==> e.queue == Some(QueueRef(b, row - startPos)))
  }

  lemma {:induction false} ExpectedScansAre(env: RunEnv, b: nat, startPos: nat, i: nat, stop: nat, q: Option<QueueRef>)
    requires startPos <= i <= stop <= |env.qm.ids| && stop <= |env.qm.norms|
    ensures forall n :: 0 <= n < stop - i ==> IsQueryScan(env, ExpectedScans(env, b, startPos, i, stop, q)[n], b, i + n, startPos)
    decreases stop - i
  {
    if i < stop {
      var arm := QueryArm(env.bucket, env.qm.norms[i]);
      var q' := if arm == Alternative then Some(QueueRef(b, i - startPos)) else q;
      ExpectedScansAre(env, b, startPos, i + 1, stop, q');
      var r := ExpectedScans(env, b, startPos, i, stop, q);
      var tail := ExpectedScans(env, b, startPos, i + 1, stop, q');
      assert forall m :: 0 <= m < |tail| ==> IsQueryScan(env, tail[m], b, i + 1 + m, startPos);
      assert r == [r[0]] + tail;
      assert r[0] == QueryScan(arm, b, i, env.qm.ids[i], q');
      forall n | 0 <= n < |r|
        ensures IsQueryScan(env, r[n], b, i + n, startPos)
      {
        if n > 0 {
          assert r[n] == tail[n - 1];
          assert IsQueryScan(env, tail[n - 1], b, i + 1 + (n - 1), startPos);
        }
      }
    }
  }

  /**
   * The per-query part of run from row i: the rows up to the first one below
   * the threshold are scanned, in order, as ExpectedScans says, and nothing
   * else happens.
   */
  lemma {:induction false} RunQueriesEvents(env: RunEnv, st: RunState, b: nat, i: nat)
    requires BatchesFit(env.qm, st.batches) && b < |st.batches| && st.batches[b].startPos <= i <= st.batches[b].endPos
    ensures var r := RunQueriesFrom(env, st, b, i);
      var stop := StopRow(env.bucket.threshold, env.qm.norms, st.batches[b].endPos, i);
      && r.batches == st.batches
      && r.trace == st.trace + ExpectedScans(env, b, st.batches[b].startPos, i, stop, st.listsQueue)
    decreases st.batches[b].endPos - i
  {
    var qb := st.batches[b];
    if i < qb.endPos && env.qm.norms[i] >= env.bucket.threshold {
      var st1 := RunQueryStep(env, st, b, i);
      RunQueriesEvents(env, st1, b, i + 1);
      var stop := StopRow(env.bucket.threshold, env.qm.norms, qb.endPos, i);
      assert stop == StopRow(env.bucket.threshold, env.qm.norms, qb.endPos, i + 1);
      var tail := ExpectedScans(env, b, qb.startPos, i + 1, stop, st1.listsQueue);
      assert ExpectedScans(env, b, qb.startPos, i, stop, st.listsQueue) == [st1.trace[|st.trace|]] + tail;
      assert st1.trace + tail == st.trace + ([st1.trace[|st.trace|]] + tail);
    }
  }

  /** Every batch a sequence of events concerns is b. */
  predicate AllOfBatch(u: seq<Event>, b: nat)
  {
    forall e :: e in u ==> BatchOf(e) == Some(b)
  }

  /** The per-query scans of a batch are query scans of that batch. */
  lemma {:induction false} ExpectedScansOfBatch(env: RunEnv, b: nat, startPos: nat, i: nat, stop: nat, q: Option<QueueRef>)
    requires startPos <= i <= stop <= |env.qm.ids| && stop <= |env.qm.norms|
    ensures AllOfBatch(ExpectedScans(env, b, startPos, i, stop, q), b)
    ensures forall e :: e in ExpectedScans(env, b, startPos, i, stop, q) ==> e.QueryScan?
    decreases stop - i
  {
    if i < stop {
      var arm := QueryArm(env.bucket, env.qm.norms[i]);
      var q' := if arm == Alternative then Some(QueueRef(b, i - startPos)) else q;
      ExpectedScansOfBatch(env, b, startPos, i + 1, stop, q');
    }
  }

  /**
   * One batch of run: a whole-batch choice makes exactly one scan call for
   * the batch; the per-query choice builds the queues unless they are built
   * (PreprocessOnce) and then makes exactly the scans of ExpectedScans, up to
   * the first row below the threshold.
   */
  lemma RunBatchEvents(env: RunEnv, st: RunState, b: nat)
    requires BatchesFit(env.qm, st.batches) && b < |st.batches|
    ensures var r := RunBatch(env, st, b); var qb := st.batches[b];
      && (BatchChoice(env.bucket, qb) == WholeBaseline ==> r == st.(trace := st.trace + [BatchScan(Baseline, b)]))
      && (BatchChoice(env.bucket, qb) == WholeAlternative ==> r == st.(trace := st.trace + [BatchScan(Alternative, b)]))
      && (BatchChoice(env.bucket, qb) == PerQuery ==>
            && r.batches == PreprocessOnce(st.batches, st.trace, b, env.maxLists).0
            && r.trace == PreprocessOnce(st.batches, st.trace, b, env.maxLists).1 +
                 ExpectedScans(env, b, qb.startPos, qb.startPos, StopRow(env.bucket.threshold, env.qm.norms, qb.endPos, qb.startPos), st.listsQueue))
  {
    var qb := st.batches[b];
    if BatchChoice(env.bucket, qb) == PerQuery {
      var pre := PreprocessOnce(st.batches, st.trace, b, env.maxLists);
      var st1 := st.(batches := pre.0, trace := pre.1);
      FitShape(env.qm, st.batches, st1.batches);
      RunQueriesEvents(env, st1, b, qb.startPos);
    }
  }

  /** From (bs0, t0) to (bs1, t1) only calls about batch b were made and no other batch changed. */
  ghost predicate TouchesOnly(t0: seq<Event>, t1: seq<Event>, bs0: seq<QueryBatch>, bs1: seq<QueryBatch>, b: nat)
  {
    && Extends(t0, t1) && AllOfBatch(t1[|t0|..], b)
    && |bs1| == |bs0| && (forall x :: 0 <= x < |bs0| && x != b ==> bs1[x] == bs0[x])
  }

  /** From (bs0, t0) to (bs1, t1) only calls about batches b..c-1 were made and no other batch changed. */
  ghost predicate TouchesRange(t0: seq<Event>, t1: seq<Event>, bs0: seq<QueryBatch>, bs1: seq<QueryBatch>, b: nat, c: nat)
  {
    && Extends(t0, t1)
    && (forall e :: e in t1[|t0|..] ==> BatchOf(e).Some? && b <= BatchOf(e).value < c)
    && |bs1| == |bs0| && (forall x :: 0 <= x < |bs0| && !(b <= x < c) ==> bs1[x] == bs0[x])
  }

  /** Batches of the same shape fit the query matrix alike. */
  lemma FitShape(qm: VectorMatrix, a: seq<QueryBatch>, a': seq<QueryBatch>)
    requires BatchesFit(qm, a) && SameShape(a, a')
    ensures BatchesFit(qm, a')
  {
    assert forall x :: 0 <= x < |a| ==> Shape(a[x]) == Shape(a'[x]);
  }

  /** Every call one batch of run makes concerns that batch, and no other batch changes. */
  lemma RunBatchTouches(env: RunEnv, st: RunState, b: nat)
    requires BatchesFit(env.qm, st.batches) && b < |st.batches|
    ensures var r := RunBatch(env, st, b); TouchesOnly(st.trace, r.trace, st.batches, r.batches, b)
  {
    if BatchChoice(env.bucket, st.batches[b]) == PerQuery {
      RunBatchTouchesPerQuery(env, st, b);
    } else {
      assert RunBatch(env, st, b).trace[|st.trace|..] == [RunBatch(env, st, b).trace[|st.trace|]];
    }
  }

  /** The per-query case of RunBatchTouches. */
  lemma RunBatchTouchesPerQuery(env: RunEnv, st: RunState, b: nat)
    requires BatchesFit(env.qm, st.batches) && b < |st.batches| && BatchChoice(env.bucket, st.batches[b]) == PerQuery
    ensures var pre := PreprocessOnce(st.batches, st.trace, b, env.maxLists);
      var r := RunQueriesFrom(env, st.(batches := pre.0, trace := pre.1), b, st.batches[b].startPos);
      TouchesOnly(st.trace, r.trace, st.batches, r.batches, b)
  {
    var qb := st.batches[b];
    var pre := PreprocessOnce(st.batches, st.trace, b, env.maxLists);
    var st1 := st.(batches := pre.0, trace := pre.1);
    FitShape(env.qm, st.batches, st1.batches);
    RunQueriesEvents(env, st1, b, qb.startPos);
    var stop := StopRow(env.bucket.threshold, env.qm.norms, qb.endPos, qb.startPos);
    var scans := ExpectedScans(env, b, qb.startPos, qb.startPos, stop, st.listsQueue);
    ExpectedScansOfBatch(env, b, qb.startPos, qb.startPos, stop, st.listsQueue);
    var pre1 := if qb.initializedQueues then [] else [Preprocess(b, env.maxLists)];
    var r := RunQueriesFrom(env, st1, b, qb.startPos);
    assert r.trace == st.trace + (pre1 + scans);
    assert r.trace[|st.trace|..] == pre1 + scans;
  }

  /**
   * run from batch b stops at the first batch whose longest query is below
   * the threshold: every call it makes concerns a batch before that one, and
   * that batch and every later one are left as they were.
   */
  lemma {:induction false} RunStops(env: RunEnv, st: RunState, b: nat)
    requires BatchesFit(env.qm, st.batches) && b <= |st.batches|
    ensures var r := RunFrom(env, st, b);
      TouchesRange(st.trace, r.trace, st.batches, r.batches, b, StopBatch(env.bucket.threshold, st.batches, b))
    decreases |st.batches| - b, 1
  {
    if b < |st.batches| && st.batches[b].normHi >= env.bucket.threshold {
      RunStopsStep(env, st, b);
    } else {
      assert st.trace[|st.trace|..] == [];
    }
  }

  /** The case of RunStops where batch b reaches the threshold. */
  lemma {:induction false} RunStopsStep(env: RunEnv, st: RunState, b: nat)
    requires BatchesFit(env.qm, st.batches) && b < |st.batches| && st.batches[b].normHi >= env.bucket.threshold
    ensures var r := RunFrom(env, RunBatch(env, st, b), b + 1);
      TouchesRange(st.trace, r.trace, st.batches, r.batches, b, StopBatch(env.bucket.threshold, st.batches, b))
    decreases |st.batches| - b, 0
  {
    var st1 := RunBatch(env, st, b);
    RunBatchTouches(env, st, b);
    FitShape(env.qm, st.batches, st1.batches);
    RunStops(env, st1, b + 1);
    var r := RunFrom(env, st1, b + 1);
    StopBatchShape(env.bucket.threshold, st.batches, st1.batches, b + 1);
    StopsCombine(st.trace, st1.trace, r.trace, st.batches, st1.batches, r.batches, b, StopBatch(env.bucket.threshold, st.batches, b));
  }

  /** One batch's calls followed by the calls of the later batches concern batches b..c-1. */
  lemma StopsCombine(t0: seq<Event>, t1: seq<Event>, t2: seq<Event>,
                     bs0: seq<QueryBatch>, bs1: seq<QueryBatch>, bs2: seq<QueryBatch>, b: nat, c: nat)
    requires b < c && TouchesOnly(t0, t1, bs0, bs1, b) && TouchesRange(t1, t2, bs1, bs2, b + 1, c)
    ensures TouchesRange(t0, t2, bs0, bs2, b, c)
  {
    ExtendsTrans(t0, t1, t2);
  }

  /** Where run stops depends only on the batches' lengths, which no step changes. */
  lemma {:induction false} StopBatchShape(thr: real, a: seq<QueryBatch>, a': seq<QueryBatch>, b: nat)
    requires SameShape(a, a') && b <= |a|
    ensures StopBatch(thr, a, b) == StopBatch(thr, a', b)
    decreases |a| - b
  {
    if b < |a| {
      assert Shape(a[b]) == Shape(a'[b]);
      StopBatchShape(thr, a, a', b + 1);
    }
  }

  // ---------------------------------------------------------------------------
  // queues are built at most once

  /** How many times preprocess was called for batch c. */
  function PreprocessCount(t: seq<Event>, c: nat): nat
  {
    if t == [] then 0
    else PreprocessCount(t[..|t| - 1], c) + (if t[|t| - 1].Preprocess? && t[|t| - 1].batch == c then 1 else 0)
  }

  lemma {:induction false} PreprocessCountAppend(t: seq<Event>, u: seq<Event>, c: nat)
    ensures PreprocessCount(t + u, c) == PreprocessCount(t, c) + PreprocessCount(u, c)
    decreases |u|
  {
    if u == [] {
      assert t + u == t;
    } else {
      var u' := u[..|u| - 1];
      assert (t + u)[..|t + u| - 1] == t + u';
      PreprocessCountAppend(t, u', c);
    }
  }

  /**
   * From (b0, t0) to (b1, t1) no built flag was cleared, and for every batch
   * preprocess was called once if its flag went from clear to set and never
   * otherwise; in particular never for a batch whose queues were built.
   */
  ghost predicate QueuesOnce(b0: seq<QueryBatch>, t0: seq<Event>, b1: seq<QueryBatch>, t1: seq<Event>)
  {
    && |b0| == |b1|
    && forall c :: 0 <= c < |b0| ==>
         && (b0[c].initializedQueues ==> b1[c].initializedQueues)
         && PreprocessCount(t1, c) == PreprocessCount(t0, c) + (if b1[c].initializedQueues && !b0[c].initializedQueues then 1 else 0)
  }

  lemma QueuesOnceTrans(b0: seq<QueryBatch>, t0: seq<Event>, b1: seq<QueryBatch>, t1: seq<Event>, b2: seq<QueryBatch>, t2: seq<Event>)
    requires QueuesOnce(b0, t0, b1, t1) && QueuesOnce(b1, t1, b2, t2)
    ensures QueuesOnce(b0, t0, b2, t2)
  {
  }

  /** Appending events that are not preprocess calls, to batches whose flags stay, keeps the counts. */
  lemma QueuesOnceNoPreprocess(b0: seq<QueryBatch>, t0: seq<Event>, b1: seq<QueryBatch>, u: seq<Event>)
    requires |b0| == |b1| && forall c :: 0 <= c < |b0| ==> b1[c].initializedQueues == b0[c].initializedQueues
    requires forall x :: 0 <= x < |u| ==> !u[x].Preprocess?
    ensures QueuesOnce(b0, t0, b1, t0 + u)
  {
    forall c | 0 <= c < |b0|
      ensures PreprocessCount(t0 + u, c) == PreprocessCount(t0, c)
    {
      PreprocessCountAppend(t0, u, c);
      NoPreprocessCount(u, c);
    }
  }

  lemma {:induction false} NoPreprocessCount(u: seq<Event>, c: nat)
    requires forall x :: 0 <= x < |u| ==> !u[x].Preprocess?
    ensures PreprocessCount(u, c) == 0
    decreases |u|
  {
    if u != [] {
      NoPreprocessCount(u[..|u| - 1], c);
    }
  }

  /** The queue request: preprocess is called iff the flag was clear, and the flag is then set. */
  lemma PreprocessOnceQueues(batches: seq<QueryBatch>, trace: seq<Event>, b: nat, maxLists: nat)
    requires b < |batches|
    ensures var r := PreprocessOnce(batches, trace, b, maxLists); QueuesOnce(batches, trace, r.0, r.1)
  {
    var r := PreprocessOnce(batches, trace, b, maxLists);
    if !batches[b].initializedQueues {
      forall c | 0 <= c < |batches|
        ensures PreprocessCount(r.1, c) == PreprocessCount(trace, c) + (if c == b then 1 else 0)
      {
        assert r.1[..|r.1| - 1] == trace;
      }
    } else {
      assert r.1 == trace;
    }
  }

  lemma {:induction false} RunQueriesQueues(env: RunEnv, st: RunState, b: nat, i: nat)
    requires BatchesFit(env.qm, st.batches) && b < |st.batches| && st.batches[b].startPos <= i <= st.batches[b].endPos
    ensures var r := RunQueriesFrom(env, st, b, i); QueuesOnce(st.batches, st.trace, r.batches, r.trace)
  {
    RunQueriesEvents(env, st, b, i);
    var r := RunQueriesFrom(env, st, b, i);
    var stop := StopRow(env.bucket.threshold, env.qm.norms, st.batches[b].endPos, i);
    var u := ExpectedScans(env, b, st.batches[b].startPos, i, stop, st.listsQueue);
    ExpectedScansOfBatch(env, b, st.batches[b].startPos, i, stop, st.listsQueue);
    assert forall x :: 0 <= x < |u| ==> u[x] in u;
    QueuesOnceNoPreprocess(st.batches, st.trace, r.batches, u);
  }

  lemma RunBatchQueues(env: RunEnv, st: RunState, b: nat)
    requires BatchesFit(env.qm, st.batches) && b < |st.batches|
    ensures var r := RunBatch(env, st, b); QueuesOnce(st.batches, st.trace, r.batches, r.trace)
  {
    match BatchChoice(env.bucket, st.batches[b])
    case WholeBaseline =>
      QueuesOnceNoPreprocess(st.batches, st.trace, st.batches, [BatchScan(Baseline, b)]);
    case WholeAlternative =>
      QueuesOnceNoPreprocess(st.batches, st.trace, st.batches, [BatchScan(Alternative, b)]);
    case PerQuery =>
      var pre := PreprocessOnce(st.batches, st.trace, b, env.maxLists);
      var st1 := st.(batches := pre.0, trace := pre.1);
      FitShape(env.qm, st.batches, st1.batches);
      PreprocessOnceQueues(st.batches, st.trace, b, env.maxLists);
      RunQueriesQueues(env, st1, b, st1.batches[b].startPos);
      var r := RunQueriesFrom(env, st1, b, st1.batches[b].startPos);
      QueuesOnceTrans(st.batches, st.trace, st1.batches, st1.trace, r.batches, r.trace);
  }

  /** Over a whole run, a batch's queues are built at most once and never when they already were. */
  lemma {:induction false} RunQueues(env: RunEnv, st: RunState, b: nat)
    requires BatchesFit(env.qm, st.batches) && b <= |st.batches|
    ensures var r := RunFrom(env, st, b); QueuesOnce(st.batches, st.trace, r.batches, r.trace)
    decreases |st.batches| - b
  {
    if b < |st.batches| && st.batches[b].normHi >= env.bucket.threshold {
      var st1 := RunBatch(env, st, b);
      RunBatchQueues(env, st, b);
      FitShape(env.qm, st.batches, st1.batches);
      RunQueues(env, st1, b + 1);
      var r := RunFrom(env, st1, b + 1);
      QueuesOnceTrans(st.batches, st.trace, st1.batches, st1.trace, r.batches, r.trace);
    }
  }

  // ---------------------------------------------------------------------------
  // runTopK: inactivity flags and queues

  /** How many flags are set. */
  function CountTrue(s: seq<bool>): nat
  {
    if s == [] then 0 else CountTrue(s[..|s| - 1]) + (if s[|s| - 1] then 1 else 0)
  }

  /** Setting a clear flag adds one to the count. */
  lemma {:induction false} CountTrueSet(s: seq<bool>, j: nat)
    requires j < |s| && !s[j]
    ensures CountTrue(s[j := true]) == CountTrue(s) + 1
    decreases |s|
  {
    var t := s[j := true];
    if j == |s| - 1 {
      assert t[..|t| - 1] == s[..|s| - 1];
    } else {
      assert t[..|t| - 1] == s[..|s| - 1][j := true];
      CountTrueSet(s[..|s| - 1], j);
    }
  }

  /** The count is at most the number of flags, and reaches it exactly when every flag is set. */
  lemma {:induction false} CountTrueFull(s: seq<bool>)
    ensures CountTrue(s) <= |s|
    ensures CountTrue(s) == |s| <==> forall j :: 0 <= j < |s| ==> s[j]
    decreases |s|
  {
    if s != [] {
      var p := s[..|s| - 1];
      CountTrueFull(p);
      assert forall j :: 0 <= j < |p| ==> p[j] == s[j];
    }
  }

  /** Each batch's inactivity counter equals the number of its inactive queries. */
  ghost predicate Counted(batches: seq<QueryBatch>)
  {
    forall c :: 0 <= c < |batches| ==> batches[c].inactiveCounter == CountTrue(batches[c].inactiveQueries)
  }

  /** From q0 to q1 no inactivity flag was cleared and the counter grew by the number of flags set. */
  predicate FlagsGrowIn(q0: QueryBatch, q1: QueryBatch)
  {
    && |q1.inactiveQueries| == |q0.inactiveQueries|
    && (forall j :: 0 <= j < |q0.inactiveQueries| && q0.inactiveQueries[j] ==> q1.inactiveQueries[j])
    && q1.inactiveCounter - q0.inactiveCounter == CountTrue(q1.inactiveQueries) - CountTrue(q0.inactiveQueries)
  }

  /**
   * What runTopK keeps from one state to a later one: no inactivity flag is
   * cleared, every counter moves with its flags, and every batch's queues
   * are built at most once.
   */
  ghost predicate TopKKeeps(st0: TopKState, st1: TopKState)
  {
    && |st1.batches| == |st0.batches|
    && (forall c :: 0 <= c < |st0.batches| ==> FlagsGrowIn(st0.batches[c], st1.batches[c]))
    && QueuesOnce(st0.batches, st0.trace, st1.batches, st1.trace)
  }

  lemma TopKKeepsTrans(st0: TopKState, st1: TopKState, st2: TopKState)
    requires TopKKeeps(st0, st1) && TopKKeeps(st1, st2)
    ensures TopKKeeps(st0, st2)
  {
    QueuesOnceTrans(st0.batches, st0.trace, st1.batches, st1.trace, st2.batches, st2.trace);
  }

  /** A counted state stays counted. */
  lemma KeepsCounted(st0: TopKState, st1: TopKState)
    requires TopKKeeps(st0, st1) && Counted(st0.batches)
    ensures Counted(st1.batches)
  {
    assert forall c :: 0 <= c < |st0.batches| ==> FlagsGrowIn(st0.batches[c], st1.batches[c]);
  }

  /** A step that changes no flag and calls nothing but non-preprocess events keeps everything. */
  lemma KeepsByNoPreprocess(st0: TopKState, st1: TopKState, u: seq<Event>)
    requires |st1.batches| == |st0.batches|
    requires forall c :: 0 <= c < |st0.batches| ==> st1.batches[c].inactiveQueries == st0.batches[c].inactiveQueries
    requires forall c :: 0 <= c < |st0.batches| ==> st1.batches[c].inactiveCounter == st0.batches[c].inactiveCounter
    requires forall c :: 0 <= c < |st0.batches| ==> st1.batches[c].initializedQueues == st0.batches[c].initializedQueues
    requires st1.trace == st0.trace + u && forall x :: 0 <= x < |u| ==> !u[x].Preprocess?
    ensures TopKKeeps(st0, st1)
  {
    QueuesOnceNoPreprocess(st0.batches, st0.trace, st1.batches, u);
  }

  /** A scan of an active query builds the batch's queues at most once and leaves all flags alone. */
  lemma ScanKeeps(env: TopKEnv, st: TopKState, b: nat, user: nat, minScore: real)
    requires TopKFits(env, st) && env.k > 0 && b < |st.batches| && st.batches[b].startPos <= user < st.batches[b].endPos
    ensures TopKKeeps(st, ScanTopK(env, st, b, user, minScore))
  {
    SlotInRange(user, env.qm.rowNum, env.k);
    var arm := TopKArm(env.bucket, minScore);
    var i := Slots(user, env.k);
    var st0 := st.(heap := CopyInto(st.heap, st.topk[i..i + env.k], 0), queryId := env.qm.ids[user]);
    var st1 := ScanIn(env, st, b, user, arm);
    assert st1 == QueueSetup(env, st0, b, user, arm);
    if arm == Alternative {
      PreprocessOnceQueues(st0.batches, st0.trace, b, env.maxLists);
      assert TopKKeeps(st, st1);
    } else {
      KeepsByNoPreprocess(st, st1, []);
    }
    var r := ScanOut(env, st1, b, user, arm);
    KeepsByNoPreprocess(st1, r, [TopKQueryScan(arm, b, user, st1.queryId, st1.listsQueue)]);
    TopKKeepsTrans(st, st1, r);
  }

  /** One query step of runTopK keeps what TopKKeeps says. */
  lemma TopKQueryKeeps(env: TopKEnv, st: TopKState, b: nat, user: nat)
    requires TopKFits(env, st) && env.k > 0 && b < |st.batches| && st.batches[b].startPos <= user < st.batches[b].endPos
    ensures TopKKeeps(st, TopKQueryStep(env, st, b, user))
  {
    var qb := st.batches[b];
    var j := user - qb.startPos;
    if qb.inactiveQueries[j] {
      KeepsByNoPreprocess(st, st, []);
    } else {
      SlotInRange(user, env.qm.rowNum, env.k);
      var minScore := st.topk[Slots(user, env.k)].data;
      var ap := Approximate(env.mode, minScore, env.gamma, env.qm.gammaEquivalents[user], st.currGammaAppr);
      if env.bucket.normHi < ap.0 {
        var r := TopKQueryStep(env, st, b, user);
        CountTrueSet(qb.inactiveQueries, j);
        assert r.trace == st.trace + [];
        QueuesOnceNoPreprocess(st.batches, st.trace, r.batches, []);
      } else {
        ScanKeeps(env, st.(currGammaAppr := ap.1), b, user, minScore);
      }
    }
  }

  lemma {:induction false} TopKQueriesKeep(env: TopKEnv, st: TopKState, b: nat, user: nat)
    requires TopKFits(env, st) && b < |st.batches| && st.batches[b].startPos <= user <= st.batches[b].endPos
    ensures TopKKeeps(st, TopKQueriesFrom(env, st, b, user))
    decreases st.batches[b].endPos - user
  {
    if user >= st.batches[b].endPos || env.k == 0 {
      KeepsByNoPreprocess(st, st, []);
    } else {
      var st1 := TopKQueryStep(env, st, b, user);
      TopKQueryKeeps(env, st, b, user);
      TopKQueriesKeep(env, st1, b, user + 1);
      TopKKeepsTrans(st, st1, TopKQueriesFrom(env, st1, b, user + 1));
    }
  }

  /**
   * Over a whole runTopK, no inactivity flag is cleared, every counter moves
   * with its flags (so counters that counted their flags still do), and every
   * batch's queues are built at most once.
   */
  lemma {:induction false} TopKKeep(env: TopKEnv, st: TopKState, b: nat)
    requires TopKFits(env, st) && b <= |st.batches|
    ensures TopKKeeps(st, TopKBatchesFrom(env, st, b))
    ensures Counted(st.batches) ==> Counted(TopKBatchesFrom(env, st, b).batches)
    decreases |st.batches| - b
  {
    if b == |st.batches| {
      KeepsByNoPreprocess(st, st, []);
    } else {
      var st1 := TopKBatchStep(env, st, b);
      if st.batches[b].inactiveCounter == st.batches[b].rowNum {
        KeepsByNoPreprocess(st, st, []);
      } else {
        TopKQueriesKeep(env, st, b, st.batches[b].startPos);
      }
      TopKKeep(env, st1, b + 1);
      TopKKeepsTrans(st, st1, TopKBatchesFrom(env, st1, b + 1));
    }
    if Counted(st.batches) {
      KeepsCounted(st, TopKBatchesFrom(env, st, b));
    }
  }

  // ---------------------------------------------------------------------------
  // runTopK: skipping a finished batch, and one query

  /** Queries whose flags are all set are all skipped: nothing changes. */
  lemma {:induction false} InactiveQueriesChangeNothing(env: TopKEnv, st: TopKState, b: nat, user: nat)
    requires TopKFits(env, st) && b < |st.batches| && st.batches[b].startPos <= user <= st.batches[b].endPos
    requires forall j :: user - st.batches[b].startPos <= j < st.batches[b].rowNum ==> st.batches[b].inactiveQueries[j]
    ensures TopKQueriesFrom(env, st, b, user) == st
    decreases st.batches[b].endPos - user
  {
    if user < st.batches[b].endPos && env.k > 0 {
      assert TopKQueryStep(env, st, b, user) == st;
      InactiveQueriesChangeNothing(env, st, b, user + 1);
    }
  }

  /**
   * runTopK skips a batch whose counter has reached its row count; when the
   * counter counts the flags, that skip changes nothing, because every
   * query of the batch is then inactive.
   */
  lemma SkipSound(env: TopKEnv, st: TopKState, b: nat)
    requires TopKFits(env, st) && b < |st.batches|
    requires st.batches[b].inactiveCounter == CountTrue(st.batches[b].inactiveQueries)
    ensures TopKBatchStep(env, st, b) == TopKQueriesFrom(env, st, b, st.batches[b].startPos)
  {
    var qb := st.batches[b];
    if qb.inactiveCounter == qb.rowNum {
      CountTrueFull(qb.inactiveQueries);
      InactiveQueriesChangeNothing(env, st, b, qb.startPos);
    }
  }

  /** Copying a whole buffer over one of the same length yields the copy. */
  lemma CopyWhole<T>(dst: seq<T>, src: seq<T>)
    requires |src| == |dst|
    ensures CopyInto(dst, src, 0) == src
  {
    assert forall x :: 0 <= x < |src| ==> CopyInto(dst, src, 0)[x] == src[x];
  }

  /**
   * An active query leaves the race exactly when its (approximated) k-th
   * score is above the bucket's longest vector; then its flag is set, the
   * counter grows by one and neither results nor calls change.
   */
  lemma TopKDeactivation(env: TopKEnv, st: TopKState, b: nat, user: nat)
    requires TopKFits(env, st) && env.k > 0 && b < |st.batches| && st.batches[b].startPos <= user < st.batches[b].endPos
    requires !st.batches[b].inactiveQueries[user - st.batches[b].startPos]
    ensures (SlotInRange(user, env.qm.rowNum, env.k);
      var r := TopKQueryStep(env, st, b, user);
      var qb := st.batches[b]; var j := user - qb.startPos;
      var minScore := st.topk[Slots(user, env.k)].data;
      var ap := Approximate(env.mode, minScore, env.gamma, env.qm.gammaEquivalents[user], st.currGammaAppr);
      && r.currGammaAppr == ap.1
      && (r.batches[b].inactiveQueries[j] <==> env.bucket.normHi < ap.0)
      && (env.bucket.normHi < ap.0 ==>
            && r.batches[b].inactiveCounter == qb.inactiveCounter + 1
            && r.topk == st.topk && r.trace == st.trace))
  {
    SlotInRange(user, env.qm.rowNum, env.k);
  }

  /**
   * An active query that stays in the race: its k slots go through the
   * chosen arm (baseline iff t_b times the longest length beats the k-th
   * score) and come back, no other slot changes, the batch's queues are
   * built first for the alternative arm unless they exist, and exactly one
   * scan call, for this query, is made.
   */
  lemma TopKScanOutcome(env: TopKEnv, st: TopKState, b: nat, user: nat)
    requires TopKFits(env, st) && env.k > 0 && b < |st.batches| && st.batches[b].startPos <= user < st.batches[b].endPos
    requires !st.batches[b].inactiveQueries[user - st.batches[b].startPos]
    requires (SlotInRange(user, env.qm.rowNum, env.k);
      var minScore := st.topk[Slots(user, env.k)].data;
      env.bucket.normHi >= Approximate(env.mode, minScore, env.gamma, env.qm.gammaEquivalents[user], st.currGammaAppr).0)
    ensures (SlotInRange(user, env.qm.rowNum, env.k);
      var r := TopKQueryStep(env, st, b, user);
      var qb := st.batches[b]; var i := Slots(user, env.k);
      var minScore := st.topk[i].data;
      var arm := TopKArm(env.bucket, minScore);
      var q := if arm == Alternative then Some(QueueRef(b, user - qb.startPos)) else st.listsQueue;
      var pre := if arm == Alternative && !qb.initializedQueues then [Preprocess(b, env.maxLists)] else [];
      && r.topk[i..i + env.k] == env.effect(arm, user, st.topk[i..i + env.k])
      && (forall x :: 0 <= x < |st.topk| && !(i <= x < i + env.k) ==> r.topk[x] == st.topk[x])
      && r.trace == st.trace + pre + [TopKQueryScan(arm, b, user, env.qm.ids[user], q)]
      && r.queryId == env.qm.ids[user] && r.listsQueue == q
      && r.batches[b].inactiveQueries == qb.inactiveQueries
      && (arm == Alternative ==> r.batches[b].initializedQueues))
  {
    SlotInRange(user, env.qm.rowNum, env.k);
    var qb := st.batches[b];
    var minScore := st.topk[Slots(user, env.k)].data;
    var ap := Approximate(env.mode, minScore, env.gamma, env.qm.gammaEquivalents[user], st.currGammaAppr);
    var st1 := st.(currGammaAppr := ap.1);
    var arm := TopKArm(env.bucket, minScore);
    assert TopKQueryStep(env, st, b, user) == ScanOut(env, ScanIn(env, st1, b, user, arm), b, user, arm);
    ScanInOutcome(env, st1, b, user, arm);
    ScanOutOutcome(env, ScanIn(env, st1, b, user, arm), b, user, arm);
  }

  /** Entering the scan: the heap holds the query's slots, its id and (for X) its queue are current. */
  lemma ScanInOutcome(env: TopKEnv, st: TopKState, b: nat, user: nat, arm: Arm)
    requires b < |st.batches| && st.batches[b].startPos <= user < |env.qm.ids|
    requires |st.heap| == env.k && Slots(user, env.k) + env.k <= |st.topk|
    ensures (var r := ScanIn(env, st, b, user, arm); var qb := st.batches[b]; var i := Slots(user, env.k);
      && r.heap == st.topk[i..i + env.k] && r.topk == st.topk && r.queryId == env.qm.ids[user]
      && r.listsQueue == (if arm == Alternative then Some(QueueRef(b, user - qb.startPos)) else st.listsQueue)
      && r.trace == st.trace + (if arm == Alternative && !qb.initializedQueues then [Preprocess(b, env.maxLists)] else [])
      && r.batches[b].inactiveQueries == qb.inactiveQueries
      && (arm == Alternative ==> r.batches[b].initializedQueues))
  {
    var i := Slots(user, env.k);
    CopyWhole(st.heap, st.topk[i..i + env.k]);
  }

  /** Leaving the scan: the arm's heap lands in the query's slots and nothing else of the buffer changes. */
  lemma ScanOutOutcome(env: TopKEnv, st: TopKState, b: nat, user: nat, arm: Arm)
    requires KeepsLength(env.effect) && |st.heap| == env.k && Slots(user, env.k) + env.k <= |st.topk|
    ensures (var r := ScanOut(env, st, b, user, arm); var i := Slots(user, env.k);
      && r.topk[i..i + env.k] == env.effect(arm, user, st.heap)
      && (forall x :: 0 <= x < |st.topk| && !(i <= x < i + env.k) ==> r.topk[x] == st.topk[x])
      && r.trace == st.trace + [TopKQueryScan(arm, b, user, st.queryId, st.listsQueue)]
      && r.queryId == st.queryId && r.listsQueue == st.listsQueue && r.batches == st.batches)
  {
  }

  // ---------------------------------------------------------------------------
  // the arm rules

  /**
   * With a non-negative t_b the whole-batch choices of run agree with the
   * per-query rule for every query length within the batch's norm range, and
   * the per-query case is exactly a batch whose range straddles the threshold.
   */
  lemma BatchChoiceAgrees(bk: Bucket, qb: QueryBatch, norm: real)
    requires bk.tb >= 0.0 && qb.normLo <= norm <= qb.normHi
    ensures BatchChoice(bk, qb) == WholeBaseline && bk.tb != 1.0 ==> QueryArm(bk, norm) == Baseline
    ensures BatchChoice(bk, qb) == WholeAlternative ==> QueryArm(bk, norm) == Alternative
    ensures BatchChoice(bk, qb) == PerQuery <==> bk.tb != 1.0 && bk.tb * qb.normLo <= bk.threshold < bk.tb * qb.normHi
  {
    ScaleMono(bk.tb, qb.normLo, norm);
    ScaleMono(bk.tb, norm, qb.normHi);
  }

  /** Scaling by a non-negative t_b keeps the order of lengths. */
  lemma ScaleMono(t: real, x: real, y: real)
    requires t >= 0.0 && x <= y
    ensures t * x <= t * y
  {
    var d := y - x;
    assert t * y == t * x + t * d;
    assert t * d >= 0.0;
  }

  /**
   * The top-k arm is the per-query rule with the query's k-th score as the
   * threshold and the bucket's longest length as the norm; a higher k-th
   * score never sends a query back to the baseline.
   */
  lemma TopKArmRule(bk: Bucket, minScore: real, higher: real)
    requires minScore <= higher
    ensures TopKArm(bk, minScore) == QueryArm(bk.(threshold := minScore), bk.normHi)
    ensures TopKArm(bk, minScore) == Alternative ==> TopKArm(bk, higher) == Alternative
  {
  }
}
