/**
 * The hybrid LX retriever: for every probe bucket it chooses, per query batch
 * and per query, whether the length-based retriever (the baseline arm) or the
 * coordinate-based retriever X (the alternative arm) scans; in top-k mode it
 * retires queries whose k-th score can no longer be beaten, and it settles the
 * bucket's tuning by comparing the two arms' sample times.
 *
 * The two sub-retrievers, QueryBucket_withTuning::preprocess and getQueue are
 * not part of this model: each call to them is recorded as an Event in the
 * retriever's trace, together with what the call is given.  A per-query top-k
 * scan changes the scratch heap; what it makes of the heap is the parameter
 * effect.
 *
 * Every loop of the source is a method proved against a small-step function of
 * the state it changes (RunState / TopKState below).
 */
module Mixed {
  import opened Wrappers
  import opened RetrievalArgs

  /** Which sub-retriever runs: the length-based one or X. */
  datatype Arm = Baseline | Alternative

  /** A call into code outside the model, with what it was given. */
  datatype Event =
    | BucketTopK(arm: Arm)
    | BatchScan(arm: Arm, batch: nat)
    | QueryScan(arm: Arm, batch: nat, row: nat, queryId: int, queue: Option<QueueRef>)
    | TopKQueryScan(arm: Arm, batch: nat, row: nat, queryId: int, queue: Option<QueueRef>)
    | Preprocess(batch: nat, maxLists: nat)
    | Tuned(arm: Arm)

  /** setAfterTuning(phi, value) as recorded on the bucket. */
  datatype TuningCall = TuningCall(phi: int, value: real)

  /** What X's tuning leaves in dataForTuning. */
  datatype TuningData = TuningData(bestTime: real, bestPhi: int, tbIndx: nat)

  /** What the dispatcher reads of a probe bucket. */
  datatype Bucket = Bucket(tb: real, normLo: real, normHi: real, threshold: real, numLists: nat)

  class ProbeBucket {
    var tb: real
    var normLo: real
    var normHi: real
    var bucketScanThreshold: real
    var numLists: nat
    var afterTuning: seq<TuningCall>

    constructor (tb: real, normLo: real, normHi: real, bucketScanThreshold: real, numLists: nat)
      ensures this.tb == tb && this.normLo == normLo && this.normHi == normHi
      ensures this.bucketScanThreshold == bucketScanThreshold && this.numLists == numLists && afterTuning == []
    {
      this.tb := tb;
      this.normLo := normLo;
      this.normHi := normHi;
      this.bucketScanThreshold := bucketScanThreshold;
      this.numLists := numLists;
      afterTuning := [];
    }

    function Params(): Bucket
      reads this`tb, this`normLo, this`normHi, this`bucketScanThreshold, this`numLists
    {
      Bucket(tb, normLo, normHi, bucketScanThreshold, numLists)
    }

    /** setAfterTuning, whose body is not part of this model: the call is recorded. */
    method SetAfterTuning(phi: int, value: real)
      modifies this`afterTuning
      ensures afterTuning == old(afterTuning) + [TuningCall(phi, value)]
    {
      afterTuning := afterTuning + [TuningCall(phi, value)];
    }
  }

  // ---------------------------------------------------------------------------
  // Shape of the query batches: what no dispatcher step changes

  datatype BatchShape = BatchShape(startPos: nat, endPos: nat, rowNum: nat, normLo: real, normHi: real, flags: nat)

  function Shape(qb: QueryBatch): BatchShape
  {
    BatchShape(qb.startPos, qb.endPos, qb.rowNum, qb.normLo, qb.normHi, |qb.inactiveQueries|)
  }

  predicate SameShape(a: seq<QueryBatch>, b: seq<QueryBatch>)
  {
    |a| == |b| && forall i :: 0 <= i < |a| ==> Shape(a[i]) == Shape(b[i])
  }

  /** Every batch is well formed and lies within the query matrix. */
  predicate BatchesFit(qm: VectorMatrix, batches: seq<QueryBatch>)
  {
    qm.Valid() && forall b :: 0 <= b < |batches| ==> batches[b].Valid() && batches[b].endPos <= qm.rowNum
  }

  /** The queue of batch b after the dispatcher asked for it: preprocess runs only if the flag is clear. */
  function PreprocessOnce(batches: seq<QueryBatch>, trace: seq<Event>, b: nat, maxLists: nat): (r: (seq<QueryBatch>, seq<Event>))
    requires b < |batches|
    ensures SameShape(batches, r.0) && r.0[b].initializedQueues
    ensures forall x :: 0 <= x < |batches| && x != b ==> r.0[x] == batches[x]
    ensures r.0[b].inactiveQueries == batches[b].inactiveQueries && r.0[b].inactiveCounter == batches[b].inactiveCounter
    ensures r.1 == trace + (if batches[b].initializedQueues then [] else [Preprocess(b, maxLists)])
  {
    if batches[b].initializedQueues then (batches, trace)
    else (batches[b := batches[b].(initializedQueues := true)], trace + [Preprocess(b, maxLists)])
  }

  // ---------------------------------------------------------------------------
  // run(probeBucket, arg): threshold retrieval

  /** The state run changes: the batches' queue flags, the current query id and queue, and the calls made. */
  datatype RunState = RunState(batches: seq<QueryBatch>, queryId: int, listsQueue: Option<QueueRef>, trace: seq<Event>)

  /** What run reads and does not change. */
  datatype RunEnv = RunEnv(bucket: Bucket, qm: VectorMatrix, maxLists: nat)

  /** The three ways a batch can be scanned. */
  datatype Choice = WholeBaseline | WholeAlternative | PerQuery

  function BatchChoice(bk: Bucket, qb: QueryBatch): Choice
  {
    if bk.tb == 1.0 || bk.tb * qb.normLo > bk.threshold then WholeBaseline
    else if bk.tb * qb.normHi <= bk.threshold then WholeAlternative
    else PerQuery
  }

  /** The arm for one query of a per-query batch. */
  function QueryArm(bk: Bucket, norm: real): Arm
  {
    if bk.tb * norm > bk.threshold then Baseline else Alternative
  }

  /** One query of a per-query batch of run. */
  function RunQueryStep(env: RunEnv, st: RunState, b: nat, i: nat): (r: RunState)
    requires BatchesFit(env.qm, st.batches) && b < |st.batches| && st.batches[b].startPos <= i < st.batches[b].endPos
    ensures r.batches == st.batches
  {
    var qid := env.qm.ids[i];
    if QueryArm(env.bucket, env.qm.norms[i]) == Baseline then
      st.(queryId := qid, trace := st.trace + [QueryScan(Baseline, b, i, qid, st.listsQueue)])
    else
      var q := Some(QueueRef(b, i - st.batches[b].startPos));
      st.(queryId := qid, listsQueue := q, trace := st.trace + [QueryScan(Alternative, b, i, qid, q)])
  }

  /** Queries i, i+1, ... of batch b, up to the first whose length is below the threshold. */
  function RunQueriesFrom(env: RunEnv, st: RunState, b: nat, i: nat): (r: RunState)
    requires BatchesFit(env.qm, st.batches) && b < |st.batches| && st.batches[b].startPos <= i <= st.batches[b].endPos
    ensures r.batches == st.batches
    decreases st.batches[b].endPos - i
  {
    if i >= st.batches[b].endPos || env.qm.norms[i] < env.bucket.threshold then st
    else RunQueriesFrom(env, RunQueryStep(env, st, b, i), b, i + 1)
  }

  /** One batch of run, which must reach the threshold. */
  function RunBatch(env: RunEnv, st: RunState, b: nat): (r: RunState)
    requires BatchesFit(env.qm, st.batches) && b < |st.batches|
    ensures SameShape(st.batches, r.batches)
  {
    match BatchChoice(env.bucket, st.batches[b])
    case WholeBaseline => st.(trace := st.trace + [BatchScan(Baseline, b)])
    case WholeAlternative => st.(trace := st.trace + [BatchScan(Alternative, b)])
    case PerQuery =>
      var (batches1, trace1) := PreprocessOnce(st.batches, st.trace, b, env.maxLists);
      var st1 := st.(batches := batches1, trace := trace1);
      RunQueriesFrom(env, st1, b, st1.batches[b].startPos)
  }

  /** Batches b, b+1, ... of run, up to the first whose longest query is below the threshold. */
  function RunFrom(env: RunEnv, st: RunState, b: nat): (r: RunState)
    requires BatchesFit(env.qm, st.batches) && b <= |st.batches|
    ensures SameShape(st.batches, r.batches)
    decreases |st.batches| - b
  {
    if b == |st.batches| || st.batches[b].normHi < env.bucket.threshold then st
    else RunFrom(env, RunBatch(env, st, b), b + 1)
  }

  // ---------------------------------------------------------------------------
  // runTopK(probeBucket, arg): top-k retrieval

  /** What a per-query top-k scan by an arm makes of the heap for a query row. */
  type Effect = (Arm, nat, seq<QueueElement>) -> seq<QueueElement>

  ghost predicate KeepsLength(effect: Effect)
  {
    forall a, u, h :: |effect(a, u, h)| == |h|
  }

  /** The state runTopK changes. */
  datatype TopKState = TopKState(
    batches: seq<QueryBatch>, topk: seq<QueueElement>, heap: seq<QueueElement>,
    queryId: int, listsQueue: Option<QueueRef>, currGammaAppr: real, trace: seq<Event>)

  /** What runTopK reads and does not change. */
  datatype TopKEnv = TopKEnv(bucket: Bucket, qm: VectorMatrix, k: nat, gamma: real, mode: Approximation,
                             maxLists: nat, effect: Effect)

  ghost predicate TopKFits(env: TopKEnv, st: TopKState)
  {
    && BatchesFit(env.qm, st.batches)
    && |st.topk| == Slots(env.qm.rowNum, env.k) && |st.heap| == env.k
    && KeepsLength(env.effect)
  }

  /**
   * The k-th score as the inactivity test sees it, and the new currGammaAppr
   * (unchanged without approximation).
   */
  function Approximate(mode: Approximation, minScore: real, gamma: real, gammaEq: real, current: real): (r: (real, real))
    ensures mode == Exact ==> r == (minScore, current)
    ensures mode == AbsoluteApprox ==> r.0 - minScore == gammaEq && r.1 == gammaEq
    ensures mode == RelativeApprox ==> r.0 == minScore * r.1 && r.1 == (if minScore >= 0.0 then 1.0 + gamma else 1.0 - gamma)
    ensures mode == RelativeApprox && gamma >= 0.0 ==> r.0 >= minScore
  {
    match mode
    case RelativeApprox =>
      if minScore >= 0.0 then
        assert minScore * (1.0 + gamma) == minScore + minScore * gamma;
        (minScore * (1.0 + gamma), 1.0 + gamma)
      else
        assert minScore * (1.0 - gamma) == minScore + (-minScore) * gamma;
        (minScore * (1.0 - gamma), 1.0 - gamma)
    case AbsoluteApprox => (minScore + gammaEq, gammaEq)
    case Exact => (minScore, current)
  }

  lemma {:induction false} SlotsMono(a: nat, b: nat, k: nat)
    requires a <= b
    ensures Slots(a, k) <= Slots(b, k)
    decreases b - a
  {
    if a < b {
      SlotsMono(a, b - 1, k);
    }
  }

  /** The k slots of query row user lie within the slots of rows queries. */
  lemma SlotInRange(user: nat, rows: nat, k: nat)
    requires user < rows
    ensures Slots(user, k) + k <= Slots(rows, k)
  {
    SlotsMono(user + 1, rows, k);
  }

  /** Query j of a batch leaves the top-k race. */
  function Deactivated(qb: QueryBatch, j: nat): (r: QueryBatch)
    requires j < |qb.inactiveQueries|
    ensures Shape(r) == Shape(qb)
  {
    qb.(inactiveQueries := qb.inactiveQueries[j := true], inactiveCounter := qb.inactiveCounter + 1)
  }

  /** The arm for an active query of runTopK, from its k-th score. */
  function TopKArm(bk: Bucket, minScore: real): Arm
  {
    if bk.tb * bk.normHi > minScore then Baseline else Alternative
  }

  /** Before the alternative arm scans, the batch's queues exist and the query's queue is the current one. */
  function QueueSetup(env: TopKEnv, st: TopKState, b: nat, user: nat, arm: Arm): (r: TopKState)
    requires b < |st.batches| && st.batches[b].startPos <= user
    ensures SameShape(st.batches, r.batches) && r.topk == st.topk && r.heap == st.heap && r.queryId == st.queryId
  {
    if arm == Baseline then st
    else
      var pre := PreprocessOnce(st.batches, st.trace, b, env.maxLists);
      st.(batches := pre.0, trace := pre.1, listsQueue := Some(QueueRef(b, user - st.batches[b].startPos)))
  }

  /** An active query that stays in the race: its slots go to the heap, one arm scans, the heap goes back. */
  function ScanTopK(env: TopKEnv, st: TopKState, b: nat, user: nat, minScore: real): (r: TopKState)
    requires TopKFits(env, st) && env.k > 0 && b < |st.batches| && st.batches[b].startPos <= user < st.batches[b].endPos
    ensures TopKFits(env, r) && SameShape(st.batches, r.batches)
  {
    SlotInRange(user, env.qm.rowNum, env.k);
    var arm := TopKArm(env.bucket, minScore);
    ScanOut(env, ScanIn(env, st, b, user, arm), b, user, arm)
  }

  /** The query's k slots moved to the heap, its id made current and, for the alternative arm, its queue set up. */
  function ScanIn(env: TopKEnv, st: TopKState, b: nat, user: nat, arm: Arm): (r: TopKState)
    requires b < |st.batches| && st.batches[b].startPos <= user < |env.qm.ids|
    requires |st.heap| == env.k && Slots(user, env.k) + env.k <= |st.topk|
    ensures SameShape(st.batches, r.batches) && r.topk == st.topk && |r.heap| == env.k
  {
    var i := Slots(user, env.k);
    QueueSetup(env, st.(heap := CopyInto(st.heap, st.topk[i..i + env.k], 0), queryId := env.qm.ids[user]), b, user, arm)
  }

  /** The arm's scan of the heap, recorded, and the heap copied back into the query's k slots. */
  function ScanOut(env: TopKEnv, st: TopKState, b: nat, user: nat, arm: Arm): (r: TopKState)
    requires KeepsLength(env.effect) && |st.heap| == env.k && Slots(user, env.k) + env.k <= |st.topk|
    ensures r.batches == st.batches && |r.topk| == |st.topk| && |r.heap| == |st.heap|
  {
    var heap2 := env.effect(arm, user, st.heap);
    st.(heap := heap2, topk := CopyInto(st.topk, heap2, Slots(user, env.k)),
        trace := st.trace + [TopKQueryScan(arm, b, user, st.queryId, st.listsQueue)])
  }

  /** One query of a batch of runTopK. */
  function TopKQueryStep(env: TopKEnv, st: TopKState, b: nat, user: nat): (r: TopKState)
    requires TopKFits(env, st) && env.k > 0 && b < |st.batches| && st.batches[b].startPos <= user < st.batches[b].endPos
    ensures TopKFits(env, r) && SameShape(st.batches, r.batches)
  {
    var qb := st.batches[b];
    var j := user - qb.startPos;
    if qb.inactiveQueries[j] then st
    else
      SlotInRange(user, env.qm.rowNum, env.k);
      var minScore := st.topk[Slots(user, env.k)].data;
      var (appr, factor) := Approximate(env.mode, minScore, env.gamma, env.qm.gammaEquivalents[user], st.currGammaAppr);
      if env.bucket.normHi < appr then
        st.(currGammaAppr := factor, batches := st.batches[b := Deactivated(qb, j)])
      else
        ScanTopK(env, st.(currGammaAppr := factor), b, user, minScore)
  }

  /** Queries user, user+1, ... of batch b (none when k is 0: the slot loop is then empty). */
  function TopKQueriesFrom(env: TopKEnv, st: TopKState, b: nat, user: nat): (r: TopKState)
    requires TopKFits(env, st) && b < |st.batches| && st.batches[b].startPos <= user <= st.batches[b].endPos
    ensures TopKFits(env, r) && SameShape(st.batches, r.batches)
    decreases st.batches[b].endPos - user
  {
    if user >= st.batches[b].endPos || env.k == 0 then st
    else TopKQueriesFrom(env, TopKQueryStep(env, st, b, user), b, user + 1)
  }

  /** Batches b, b+1, ... of runTopK. */
  function TopKBatchesFrom(env: TopKEnv, st: TopKState, b: nat): (r: TopKState)
    requires TopKFits(env, st) && b <= |st.batches|
    ensures TopKFits(env, r) && SameShape(st.batches, r.batches)
    decreases |st.batches| - b
  {
    if b == |st.batches| then st
    else TopKBatchesFrom(env, TopKBatchStep(env, st, b), b + 1)
  }

  /** One batch of runTopK; a batch whose queries are all inactive is skipped. */
  function TopKBatchStep(env: TopKEnv, st: TopKState, b: nat): (r: TopKState)
    requires TopKFits(env, st) && b < |st.batches|
    ensures TopKFits(env, r) && SameShape(st.batches, r.batches)
  {
    if st.batches[b].inactiveCounter == st.batches[b].rowNum then st
    else TopKQueriesFrom(env, st, b, st.batches[b].startPos)
  }

  // ---------------------------------------------------------------------------
  // tuning

  /** The setting the bucket gets: baseline only when its sample time beats X's best, else X's best phi and t_b. */
  function TuningDecision(plainTotal: real, data: TuningData, xValues: seq<MatItem>): (r: TuningCall)
    requires plainTotal >= data.bestTime ==> data.tbIndx == 0 || data.tbIndx < |xValues|
    ensures plainTotal < data.bestTime ==> r == TuningCall(1, 1.0)
    ensures plainTotal >= data.bestTime ==> r.phi == data.bestPhi + 1
    ensures plainTotal >= data.bestTime ==> r.value == if data.tbIndx == 0 then -1.0 else xValues[data.tbIndx].result
  {
    if plainTotal < data.bestTime then TuningCall(1, 1.0)
    else
      var value := if data.tbIndx == 0 then -1.0 else xValues[data.tbIndx].result;
      TuningCall(data.bestPhi + 1, value)
  }

  /** The tuning data of a sample, as unordered_map::operator[] reads it (a missing entry reads as default). */
  function Lookup(m: map<nat, GlobalTopkTuneData>, ind: nat): GlobalTopkTuneData
  {
    if ind in m then m[ind] else EmptyTuneData
  }

  /** Sample positions refer to existing threads of bucket b. */
  predicate SamplesFit(globalData: seq<seq<map<nat, GlobalTopkTuneData>>>, b: nat, xValues: seq<MatItem>)
  {
    b < |globalData| && forall s :: 0 <= s < |xValues| ==> xValues[s].i < |globalData[b]|
  }

  /** The length-retriever time of every sample, in sample order. */
  function LengthTimes(threads: seq<map<nat, GlobalTopkTuneData>>, xValues: seq<MatItem>): (r: seq<real>)
    requires forall s :: 0 <= s < |xValues| ==> xValues[s].i < |threads|
    ensures |r| == |xValues|
    ensures forall s :: 0 <= s < |r| ==> r[s] == Lookup(threads[xValues[s].i], xValues[s].j).lengthTime
  {
    seq(|xValues|, s requires 0 <= s < |xValues| => Lookup(threads[xValues[s].i], xValues[s].j).lengthTime)
  }

  function Sum(s: seq<real>): real
  {
    if s == [] then 0.0 else Sum(s[..|s| - 1]) + s[|s| - 1]
  }

  /** The tuning data after operator[] read every sample's entry, in sample order. */
  function Touched(threads: seq<map<nat, GlobalTopkTuneData>>, xValues: seq<MatItem>): (r: seq<map<nat, GlobalTopkTuneData>>)
    requires forall s :: 0 <= s < |xValues| ==> xValues[s].i < |threads|
    ensures |r| == |threads|
    decreases |xValues|
  {
    if xValues == [] then threads
    else
      var last := xValues[|xValues| - 1];
      var before := Touched(threads, xValues[..|xValues| - 1]);
      before[last.i := Touch(before[last.i], last.j)]
  }

  /** One read through unordered_map::operator[]: a missing entry is inserted with default data. */
  function Touch(m: map<nat, GlobalTopkTuneData>, ind: nat): (r: map<nat, GlobalTopkTuneData>)
    ensures r.Keys == m.Keys + {ind}
    ensures forall j :: Lookup(r, j) == Lookup(m, j)
  {
    if ind in m then m else m[ind := EmptyTuneData]
  }

  // ---------------------------------------------------------------------------
  // the aborting overloads

  /** The four overloads that take a single query or a single batch. */
  datatype Overload = RunQuery | RunBatchOnly | RunTopKQuery | RunTopKBatch

  datatype Outcome = Completed | Exited(code: int, diagnostic: string)

  const MisuseMessage: string := "You should not call run for single query on LEMP_LI\n"

  /** Each of these overloads prints the diagnostic and exits with status 1; none returns. */
  function Misuse(o: Overload): (r: Outcome)
    ensures r.Exited? && r.code == 1 && r.diagnostic == MisuseMessage
  {
    Exited(1, MisuseMessage)
  }

  // ---------------------------------------------------------------------------
  // the retriever

  class LXRetriever {
    /** The calls made into code outside the model, oldest first. */
    var trace: seq<Event>
    /** The shared tuning samples. */
    var xValues: seq<MatItem>
    var plainXValues: seq<MatItem>
    var otherXValues: seq<MatItem>
    var plainSampleTimes: seq<real>
    var plainSampleTotalTime: real
    var otherData: TuningData

    constructor (xValues: seq<MatItem>)
      ensures trace == [] && this.xValues == xValues && plainSampleTimes == [] && plainSampleTotalTime == 0.0
    {
      trace := [];
      this.xValues := xValues;
      plainXValues, otherXValues := [], [];
      plainSampleTimes := [];
      plainSampleTotalTime := 0.0;
      otherData := TuningData(0.0, 0, 0);
    }

    function RunSnap(arg: RetrievalArguments): RunState
      reads this`trace, arg`queryBatches, arg`queryId, arg`listsQueue
    {
      RunState(arg.queryBatches, arg.queryId, arg.listsQueue, trace)
    }

    function TopKSnap(arg: RetrievalArguments): TopKState
      reads this`trace, arg`queryBatches, arg`queryId, arg`listsQueue, arg`currGammaAppr, arg`heap, arg`topkResults
      reads arg.heap, arg.topkResults
    {
      TopKState(arg.queryBatches, arg.topkResults[..], arg.heap[..], arg.queryId, arg.listsQueue, arg.currGammaAppr, trace)
    }

    // --- the calls out of the model: each only records itself ---

    /** plainRetriever.run / otherRetriever.run for a whole batch. */
    method ScanBatch(arm: Arm, b: nat)
      modifies this`trace
      ensures trace == old(trace) + [BatchScan(arm, b)]
    {
      trace := trace + [BatchScan(arm, b)];
    }

    /** plainRetriever.run / otherRetriever.run for one query; the retriever sees arg's queryId and listsQueue. */
    method ScanQuery(arm: Arm, arg: RetrievalArguments, b: nat, row: nat)
      modifies this`trace
      ensures trace == old(trace) + [QueryScan(arm, b, row, arg.queryId, arg.listsQueue)]
    {
      trace := trace + [QueryScan(arm, b, row, arg.queryId, arg.listsQueue)];
    }

    /** plainRetriever.runTopK / otherRetriever.runTopK for one query: records the call and updates the heap. */
    method ScanQueryTopK(arm: Arm, arg: RetrievalArguments, b: nat, row: nat, effect: Effect)
      requires |effect(arm, row, arg.heap[..])| == arg.heap.Length
      modifies this`trace, arg.heap
      ensures trace == old(trace) + [TopKQueryScan(arm, b, row, arg.queryId, arg.listsQueue)]
      ensures arg.heap[..] == effect(arm, row, old(arg.heap[..]))
    {
      trace := trace + [TopKQueryScan(arm, b, row, arg.queryId, arg.listsQueue)];
      var out := effect(arm, row, arg.heap[..]);
      var j := 0;
      while j < arg.heap.Length
        invariant 0 <= j <= arg.heap.Length
        invariant forall x :: 0 <= x < j ==> arg.heap[x] == out[x]
        invariant trace == old(trace) + [TopKQueryScan(arm, b, row, arg.queryId, arg.listsQueue)]
      {
        arg.heap[j] := out[j];
        j := j + 1;
      }
      assert arg.heap[..] == out;
    }

    /** QueryBatch_withTuning::preprocess. */
    method PreprocessQueues(b: nat, maxLists: nat)
      modifies this`trace
      ensures trace == old(trace) + [Preprocess(b, maxLists)]
    {
      trace := trace + [Preprocess(b, maxLists)];
    }

    /** Build the queues of batch b unless they are built, and mark them built. */
    method EnsureQueues(arg: RetrievalArguments, b: nat)
      requires b < |arg.queryBatches|
      modifies this`trace, arg`queryBatches
      ensures (arg.queryBatches, trace) == PreprocessOnce(old(arg.queryBatches), old(trace), b, arg.maxLists)
    {
      ghost var r := PreprocessOnce(arg.queryBatches, trace, b, arg.maxLists);
      if !arg.queryBatches[b].initializedQueues {
        PreprocessQueues(b, arg.maxLists);
        arg.queryBatches := arg.queryBatches[b := arg.queryBatches[b].(initializedQueues := true)];
      }
      assert arg.queryBatches == r.0;
      assert trace == r.1;
    }

    // --- run ---

    /** run(probeBucket, arg). */
    method Run(bucket: ProbeBucket, arg: RetrievalArguments)
      requires arg.queryMatrix.Some? && BatchesFit(arg.queryMatrix.value, arg.queryBatches)
      modifies this`trace, arg`numLists, arg`queryBatches, arg`queryId, arg`listsQueue
      ensures arg.numLists == bucket.numLists
      ensures RunSnap(arg) == RunFrom(RunEnv(bucket.Params(), arg.queryMatrix.value, arg.maxLists), old(RunSnap(arg)), 0)
    {
      ghost var env := RunEnv(bucket.Params(), arg.queryMatrix.value, arg.maxLists);
      ghost var target := RunFrom(env, RunSnap(arg), 0);
      arg.numLists := bucket.numLists;
      var b := 0;
      while b < |arg.queryBatches|
        invariant b <= |arg.queryBatches| && BatchesFit(env.qm, arg.queryBatches)
        invariant arg.numLists == bucket.numLists
        invariant RunFrom(env, RunSnap(arg), b) == target
        decreases |arg.queryBatches| - b
      {
        var qb := arg.queryBatches[b];
        if qb.normHi < bucket.bucketScanThreshold {
          break;
        }
        RunOneBatch(bucket, arg, b);
        b := b + 1;
      }
    }

    /** The body of run's batch loop, for a batch that reaches the threshold. */
    method RunOneBatch(bucket: ProbeBucket, arg: RetrievalArguments, b: nat)
      requires arg.queryMatrix.Some? && BatchesFit(arg.queryMatrix.value, arg.queryBatches) && b < |arg.queryBatches|
      modifies this`trace, arg`queryBatches, arg`queryId, arg`listsQueue
      ensures RunSnap(arg) == RunBatch(RunEnv(bucket.Params(), arg.queryMatrix.value, arg.maxLists), old(RunSnap(arg)), b)
    {
      ghost var env := RunEnv(bucket.Params(), arg.queryMatrix.value, arg.maxLists);
      var qb := arg.queryBatches[b];
      if bucket.tb == 1.0 || bucket.tb * qb.normLo > bucket.bucketScanThreshold {
        ScanBatch(Baseline, b);
      } else if bucket.tb * qb.normHi <= bucket.bucketScanThreshold {
        ScanBatch(Alternative, b);
      } else {
        ghost var st := RunSnap(arg);
        EnsureQueues(arg, b);
        assert RunSnap(arg) == st.(batches := arg.queryBatches, trace := trace);
        RunQueries(bucket, arg, b, env);
      }
    }

    /** The per-query loop of run over batch b, whose queues are built. */
    method RunQueries(bucket: ProbeBucket, arg: RetrievalArguments, b: nat, ghost env: RunEnv)
      requires arg.queryMatrix.Some? && env == RunEnv(bucket.Params(), arg.queryMatrix.value, arg.maxLists)
      requires BatchesFit(env.qm, arg.queryBatches) && b < |arg.queryBatches|
      modifies this`trace, arg`queryId, arg`listsQueue
      ensures RunSnap(arg) == RunQueriesFrom(env, old(RunSnap(arg)), b, arg.queryBatches[b].startPos)
    {
      var qb := arg.queryBatches[b];
      ghost var target := RunQueriesFrom(env, RunSnap(arg), b, qb.startPos);
      var i := qb.startPos;
      while i < qb.endPos
        invariant qb.startPos <= i <= qb.endPos
        invariant RunQueriesFrom(env, RunSnap(arg), b, i) == target
        decreases qb.endPos - i
      {
        if arg.queryMatrix.value.norms[i] < bucket.bucketScanThreshold {
          break;
        }
        RunQuery(bucket, arg, b, i, env);
        i := i + 1;
      }
    }

    /** The body of run's per-query loop: query row i of batch b. */
    method RunQuery(bucket: ProbeBucket, arg: RetrievalArguments, b: nat, i: nat, ghost env: RunEnv)
      requires arg.queryMatrix.Some? && env == RunEnv(bucket.Params(), arg.queryMatrix.value, arg.maxLists)
      requires BatchesFit(env.qm, arg.queryBatches) && b < |arg.queryBatches|
      requires arg.queryBatches[b].startPos <= i < arg.queryBatches[b].endPos
      modifies this`trace, arg`queryId, arg`listsQueue
      ensures RunSnap(arg) == RunQueryStep(env, old(RunSnap(arg)), b, i)
    {
      var qm := arg.queryMatrix.value;
      arg.queryId := qm.ids[i];
      if bucket.tb * qm.norms[i] > bucket.bucketScanThreshold {
        ScanQuery(Baseline, arg, b, i);
      } else {
        var localQueue := QueueRef(b, i - arg.queryBatches[b].startPos);
        arg.SetQueues(localQueue);
        ScanQuery(Alternative, arg, b, i);
      }
    }

    // --- runTopK ---

    /** What runTopK needs of its arguments: the buffers sized for the query matrix and k. */
    ghost predicate TopKReady(bucket: ProbeBucket, arg: RetrievalArguments, mode: Approximation, effect: Effect)
      reads this`trace, arg, arg.heap, arg.topkResults, bucket
    {
      && arg.queryMatrix.Some? && arg.k >= 0 && arg.Distinct()
      && TopKFits(TopKEnvOf(bucket, arg, mode, effect), TopKSnap(arg))
    }

    function TopKEnvOf(bucket: ProbeBucket, arg: RetrievalArguments, mode: Approximation, effect: Effect): TopKEnv
      reads bucket`tb, bucket`normLo, bucket`normHi, bucket`bucketScanThreshold, bucket`numLists
      reads arg`queryMatrix, arg`k, arg`gamma, arg`maxLists
      requires arg.queryMatrix.Some? && arg.k >= 0
    {
      TopKEnv(bucket.Params(), arg.queryMatrix.value, arg.k, arg.gamma, mode, arg.maxLists, effect)
    }

    /** env holds what runTopK reads of bucket and arg. */
    ghost predicate Describes(env: TopKEnv, bucket: ProbeBucket, arg: RetrievalArguments)
      reads bucket`tb, bucket`normLo, bucket`normHi, bucket`bucketScanThreshold, bucket`numLists
      reads arg`queryMatrix, arg`k, arg`gamma, arg`maxLists, arg`heap, arg`topkResults
    {
      && arg.queryMatrix.Some? && arg.Distinct()
      && env.bucket == bucket.Params() && env.qm == arg.queryMatrix.value && env.k == arg.k
      && env.gamma == arg.gamma && env.maxLists == arg.maxLists
    }

    /** runTopK(probeBucket, arg); mode is the approximation the build uses. */
    method RunTopK(bucket: ProbeBucket, arg: RetrievalArguments, mode: Approximation, effect: Effect)
      requires TopKReady(bucket, arg, mode, effect)
      modifies this`trace, arg`numLists, arg`queryBatches, arg`queryId, arg`listsQueue, arg`currGammaAppr
      modifies arg.heap, arg.topkResults
      ensures bucket.tb == 1.0 ==>
                arg.numLists == old(arg.numLists) &&
                TopKSnap(arg) == old(TopKSnap(arg)).(trace := old(trace) + [BucketTopK(Baseline)])
      ensures bucket.tb != 1.0 ==>
                arg.numLists == bucket.numLists &&
                TopKSnap(arg) == TopKBatchesFrom(TopKEnvOf(bucket, arg, mode, effect), old(TopKSnap(arg)), 0)
    {
      if bucket.tb == 1.0 {
        trace := trace + [BucketTopK(Baseline)];
        return;
      }
      ghost var env := TopKEnvOf(bucket, arg, mode, effect);
      ghost var st := TopKSnap(arg);
      arg.numLists := bucket.numLists;
      assert TopKSnap(arg) == st;
      TopKBatches(bucket, arg, mode, effect, env);
    }

    /** The batch loop of runTopK. */
    method TopKBatches(bucket: ProbeBucket, arg: RetrievalArguments, mode: Approximation, effect: Effect, ghost env: TopKEnv)
      requires Describes(env, bucket, arg) && TopKFits(env, TopKSnap(arg))
      requires mode == env.mode && effect == env.effect
      modifies this`trace, arg`queryBatches, arg`queryId, arg`listsQueue, arg`currGammaAppr, arg.heap, arg.topkResults
      ensures TopKSnap(arg) == TopKBatchesFrom(env, old(TopKSnap(arg)), 0)
    {
      ghost var st := TopKSnap(arg);
      ghost var target := TopKBatchesFrom(env, st, 0);
      var b := 0;
      while b < |arg.queryBatches|
        invariant TopKSnap(arg) == st && Describes(env, bucket, arg)
        invariant b <= |st.batches| && TopKFits(env, st) && TopKBatchesFrom(env, st, b) == target
        decreases |st.batches| - b
      {
        TopKBatch(bucket, arg, mode, effect, b, env);
        st := TopKBatchStep(env, st, b);
        b := b + 1;
      }
    }

    /** The body of runTopK's batch loop: the skip test, then the slot loop over the batch. */
    method TopKBatch(bucket: ProbeBucket, arg: RetrievalArguments, mode: Approximation, effect: Effect, b: nat, ghost env: TopKEnv)
      requires Describes(env, bucket, arg) && TopKFits(env, TopKSnap(arg)) && b < |arg.queryBatches|
      requires mode == env.mode && effect == env.effect
      modifies this`trace, arg`queryBatches, arg`queryId, arg`listsQueue, arg`currGammaAppr, arg.heap, arg.topkResults
      ensures TopKSnap(arg) == TopKBatchStep(env, old(TopKSnap(arg)), b)
    {
      var qb := arg.queryBatches[b];
      if qb.inactiveCounter == qb.rowNum {
        return;
      }
      if arg.k == 0 {
        // the slot range [startPos * k, endPos * k) is empty
        return;
      }
      TopKSlots(bucket, arg, mode, effect, b, env);
    }

    /** The slot loop of runTopK over batch b, for k > 0: one turn per query row. */
    method TopKSlots(bucket: ProbeBucket, arg: RetrievalArguments, mode: Approximation, effect: Effect, b: nat, ghost env: TopKEnv)
      requires Describes(env, bucket, arg) && TopKFits(env, TopKSnap(arg)) && b < |arg.queryBatches| && arg.k > 0
      requires mode == env.mode && effect == env.effect
      modifies this`trace, arg`queryBatches, arg`queryId, arg`listsQueue, arg`currGammaAppr, arg.heap, arg.topkResults
      ensures TopKSnap(arg) == TopKQueriesFrom(env, old(TopKSnap(arg)), b, old(arg.queryBatches[b].startPos))
    {
      var qb := arg.queryBatches[b];
      ghost var st := TopKSnap(arg);
      ghost var target := TopKQueriesFrom(env, st, b, qb.startPos);
      var k := arg.k;
      var user := qb.startPos;
      var start := SlotOf(qb.startPos, k);
      var end := SlotOf(qb.endPos, k);
      var i := start;
      while i < end
        invariant qb.startPos <= user <= qb.endPos && i == Slots(user, k)
        invariant TopKSnap(arg) == st && TopKFits(env, st) && b < |st.batches| && Shape(st.batches[b]) == Shape(qb)
        invariant TopKQueriesFrom(env, st, b, user) == target
        decreases qb.endPos - user
      {
        SlotBelowEnd(user, qb.endPos, k);
        TopKQuery(bucket, arg, mode, effect, b, user, env);
        st := TopKQueryStep(env, st, b, user);
        user := user + 1;
        i := i + k;
      }
      SlotBelowEnd(user, qb.endPos, k);
    }

    /** The body of the slot loop: one query of batch b. */
    method TopKQuery(bucket: ProbeBucket, arg: RetrievalArguments, mode: Approximation, effect: Effect, b: nat, user: nat, ghost env: TopKEnv)
      requires Describes(env, bucket, arg) && TopKFits(env, TopKSnap(arg)) && b < |arg.queryBatches|
      requires arg.queryBatches[b].startPos <= user < arg.queryBatches[b].endPos && arg.k > 0
      modifies this`trace, arg`queryBatches, arg`queryId, arg`listsQueue, arg`currGammaAppr, arg.heap, arg.topkResults
      requires mode == env.mode && effect == env.effect
      ensures TopKSnap(arg) == TopKQueryStep(env, old(TopKSnap(arg)), b, user)
    {
      ghost var st := TopKSnap(arg);
      var qb := arg.queryBatches[b];
      if qb.inactiveQueries[user - qb.startPos] {
        return;
      }
      var qm := arg.queryMatrix.value;
      var k := arg.k;
      SlotInRange(user, qm.rowNum, k);
      var i := SlotOf(user, k);
      var minScore := arg.topkResults[i].data;
      var (minScoreAppr, factor) := Approximate(mode, minScore, arg.gamma, qm.gammaEquivalents[user], arg.currGammaAppr);
      arg.currGammaAppr := factor;
      if bucket.normHi < minScoreAppr {
        arg.queryBatches := arg.queryBatches[b := Deactivated(qb, user - qb.startPos)];
        return;
      }
      assert TopKSnap(arg) == st.(currGammaAppr := factor);
      TopKScan(bucket, arg, effect, b, user, minScore, env);
    }

    /** An active query that stays in the race: heap in, one arm, heap out. */
    method TopKScan(bucket: ProbeBucket, arg: RetrievalArguments, effect: Effect, b: nat, user: nat, minScore: real, ghost env: TopKEnv)
      requires Describes(env, bucket, arg) && TopKFits(env, TopKSnap(arg)) && b < |arg.queryBatches|
      requires arg.queryBatches[b].startPos <= user < arg.queryBatches[b].endPos && arg.k > 0 && effect == env.effect
      modifies this`trace, arg`queryBatches, arg`queryId, arg`listsQueue, arg.heap, arg.topkResults
      ensures TopKSnap(arg) == ScanTopK(env, old(TopKSnap(arg)), b, user, minScore)
    {
      SlotInRange(user, env.qm.rowNum, env.k);
      var arm := TopKArm(bucket.Params(), minScore);
      EnterScan(bucket, arg, b, user, arm, env);
      LeaveScan(arg, b, user, arm, effect, env);
    }

    /** Move the query's slots to the heap, set the query id and, for the alternative arm, its queue. */
    method EnterScan(bucket: ProbeBucket, arg: RetrievalArguments, b: nat, user: nat, arm: Arm, ghost env: TopKEnv)
      requires arg.queryMatrix.Some? && env.qm == arg.queryMatrix.value && env.k == arg.k && env.maxLists == arg.maxLists
      requires env.qm.Valid() && user < env.qm.rowNum && b < |arg.queryBatches| && arg.queryBatches[b].startPos <= user
      requires arg.Distinct() && arg.heap.Length == env.k && Slots(user, env.k) + env.k <= arg.topkResults.Length
      modifies this`trace, arg`queryBatches, arg`queryId, arg`listsQueue, arg.heap
      ensures TopKSnap(arg) == ScanIn(env, old(TopKSnap(arg)), b, user, arm)
    {
      var i := SlotOf(user, arg.k);
      arg.MoveTopkToHeap(i);
      arg.queryId := arg.queryMatrix.value.ids[user];
      if arm == Alternative {
        EnsureQueues(arg, b);
        var localQueue := QueueRef(b, user - arg.queryBatches[b].startPos);
        arg.SetQueues(localQueue);
      }
    }

    /** The arm's scan of the heap, then the heap back into the query's slots. */
    method LeaveScan(arg: RetrievalArguments, b: nat, user: nat, arm: Arm, effect: Effect, ghost env: TopKEnv)
      requires env.k == arg.k && env.effect == effect && KeepsLength(effect)
      requires arg.Distinct() && arg.heap.Length == env.k && Slots(user, env.k) + env.k <= arg.topkResults.Length
      modifies this`trace, arg.heap, arg.topkResults
      ensures TopKSnap(arg) == ScanOut(env, old(TopKSnap(arg)), b, user, arm)
    {
      ScanQueryTopK(arm, arg, b, user, effect);
      arg.WriteHeapToTopk(user);
    }

    // --- tuning ---

    /** plainRetriever.tune: its sample times and their total are what the length retriever measured. */
    method PlainTune(times: seq<real>, total: real)
      modifies this`trace, this`plainSampleTimes, this`plainSampleTotalTime
      ensures trace == old(trace) + [Tuned(Baseline)]
      ensures plainSampleTimes == times && plainSampleTotalTime == total
    {
      plainSampleTimes := times;
      plainSampleTotalTime := total;
      trace := trace + [Tuned(Baseline)];
    }

    /** otherRetriever.tune / tuneTopk: data is what X's tuning found. */
    method OtherTune(data: TuningData)
      modifies this`trace, this`otherData
      ensures trace == old(trace) + [Tuned(Alternative)] && otherData == data
    {
      otherData := data;
      trace := trace + [Tuned(Alternative)];
    }

    /** The decision both tunings end with: setAfterTuning from the two arms' times. */
    method Decide(bucket: ProbeBucket)
      requires plainSampleTotalTime >= otherData.bestTime ==> otherData.tbIndx == 0 || otherData.tbIndx < |xValues|
      modifies bucket`afterTuning
      ensures bucket.afterTuning == old(bucket.afterTuning) + [TuningDecision(plainSampleTotalTime, otherData, xValues)]
    {
      if plainSampleTotalTime < otherData.bestTime {
        bucket.SetAfterTuning(1, 1.0);
      } else {
        var value := if otherData.tbIndx == 0 then -1.0 else xValues[otherData.tbIndx].result;
        bucket.SetAfterTuning(otherData.bestPhi + 1, value);
      }
    }

    /** tune(probeBucket, retrArg); arg0 is retrArg[0], the other parameters are what the two tunings produce. */
    method Tune(bucket: ProbeBucket, arg0: RetrievalArguments, plainTimes: seq<real>, plainTotal: real, data: TuningData)
      requires |xValues| > 0 && plainTotal >= data.bestTime ==> data.tbIndx == 0 || data.tbIndx < |xValues|
      modifies this`trace, this`plainXValues, this`otherXValues, this`plainSampleTimes, this`plainSampleTotalTime
      modifies this`otherData, bucket`afterTuning, arg0`competitorMethod
      ensures |xValues| == 0 ==> trace == old(trace) && bucket.afterTuning == old(bucket.afterTuning)
      ensures |xValues| == 0 ==> arg0.competitorMethod == old(arg0.competitorMethod) && plainSampleTimes == old(plainSampleTimes)
      ensures |xValues| == 0 ==> plainXValues == old(plainXValues) && otherXValues == old(otherXValues)
      ensures |xValues| == 0 ==> plainSampleTotalTime == old(plainSampleTotalTime) && otherData == old(otherData)
      ensures |xValues| > 0 ==> plainXValues == xValues && otherXValues == xValues
      ensures |xValues| > 0 ==> trace == old(trace) + [Tuned(Baseline), Tuned(Alternative)]
      ensures |xValues| > 0 ==> arg0.competitorMethod == Some(plainTimes) && plainSampleTotalTime == plainTotal
      ensures |xValues| > 0 ==> plainSampleTimes == plainTimes && otherData == data
      ensures |xValues| > 0 ==> bucket.afterTuning == old(bucket.afterTuning) + [TuningDecision(plainTotal, data, xValues)]
    {
      if |xValues| > 0 {
        plainXValues := xValues;
        otherXValues := xValues;
        PlainTune(plainTimes, plainTotal);
        arg0.competitorMethod := Some(plainSampleTimes);
        OtherTune(data);
        Decide(bucket);
      }
    }

    /**
     * tuneTopk(probeBucket, retrArg): the length retriever's time for each
     * sample is read from the global tuning data of the bucket and appended to
     * its sample times and total, then X tunes and the decision is made.
     */
    method TuneTopk(bucket: ProbeBucket, arg0: RetrievalArguments, data: TuningData)
      requires SamplesFit(arg0.globalData, arg0.bucketInd, xValues)
      requires plainSampleTotalTime + Sum(LengthTimes(arg0.globalData[arg0.bucketInd], xValues)) >= data.bestTime ==>
        data.tbIndx == 0 || data.tbIndx < |xValues|
      modifies this`trace, this`otherXValues, this`plainSampleTimes, this`plainSampleTotalTime, this`otherData
      modifies bucket`afterTuning, arg0`competitorMethod, arg0`globalData
      ensures otherXValues == xValues
      ensures plainSampleTimes == old(plainSampleTimes) + LengthTimes(old(arg0.globalData[arg0.bucketInd]), xValues)
      ensures plainSampleTotalTime == old(plainSampleTotalTime) + Sum(LengthTimes(old(arg0.globalData[arg0.bucketInd]), xValues))
      ensures arg0.globalData == old(arg0.globalData)[arg0.bucketInd := Touched(old(arg0.globalData[arg0.bucketInd]), xValues)]
      ensures arg0.competitorMethod == Some(plainSampleTimes) && otherData == data
      ensures trace == old(trace) + [Tuned(Alternative)]
      ensures bucket.afterTuning == old(bucket.afterTuning) + [TuningDecision(plainSampleTotalTime, data, xValues)]
    {
      otherXValues := xValues;
      ReadLengthTimes(arg0);
      arg0.competitorMethod := Some(plainSampleTimes);
      OtherTune(data);
      Decide(bucket);
    }

    /** One turn of tuneTopk's sample loop: read the sample's length time through operator[] and add it up. */
    method ReadSample(arg0: RetrievalArguments, b: nat, t: nat, ind: nat)
      requires b < |arg0.globalData| && t < |arg0.globalData[b]|
      modifies this`plainSampleTimes, this`plainSampleTotalTime, arg0`globalData
      ensures arg0.globalData == old(arg0.globalData)[b := old(arg0.globalData[b])[t := Touch(old(arg0.globalData[b][t]), ind)]]
      ensures plainSampleTimes == old(plainSampleTimes) + [Lookup(old(arg0.globalData[b][t]), ind).lengthTime]
      ensures plainSampleTotalTime == old(plainSampleTotalTime) + Lookup(old(arg0.globalData[b][t]), ind).lengthTime
    {
      var lengthTime := Lookup(arg0.globalData[b][t], ind).lengthTime;
      arg0.globalData := arg0.globalData[b := arg0.globalData[b][t := Touch(arg0.globalData[b][t], ind)]];
      plainSampleTimes := plainSampleTimes + [lengthTime];
      plainSampleTotalTime := plainSampleTotalTime + lengthTime;
    }

    /** The sample loop of tuneTopk. */
    method ReadLengthTimes(arg0: RetrievalArguments)
      requires SamplesFit(arg0.globalData, arg0.bucketInd, xValues)
      modifies this`plainSampleTimes, this`plainSampleTotalTime, arg0`globalData
      ensures plainSampleTimes == old(plainSampleTimes) + LengthTimes(old(arg0.globalData[arg0.bucketInd]), xValues)
      ensures plainSampleTotalTime == old(plainSampleTotalTime) + Sum(LengthTimes(old(arg0.globalData[arg0.bucketInd]), xValues))
      ensures arg0.globalData == old(arg0.globalData)[arg0.bucketInd := Touched(old(arg0.globalData[arg0.bucketInd]), xValues)]
    {
      var b := arg0.bucketInd;
      var xs := xValues;
      ghost var gd0 := arg0.globalData;
      ghost var threads0 := gd0[b];
      ghost var times0 := plainSampleTimes;
      ghost var total0 := plainSampleTotalTime;
      var s := 0;
      while s < |xs|
        invariant 0 <= s <= |xs| && xs == xValues
        invariant arg0.globalData == gd0[b := Touched(threads0, xs[..s])]
        invariant plainSampleTimes == times0 + LengthTimes(threads0, xs[..s])
        invariant plainSampleTotalTime == total0 + Sum(LengthTimes(threads0, xs[..s]))
      {
        SampleStep(threads0, xs, s);
        ReadSample(arg0, b, xs[s].i, xs[s].j);
        s := s + 1;
      }
      assert xs[..s] == xValues;
    }
  }

  /** The slot offset runs below the batch end exactly while the row does. */
  lemma SlotBelowEnd(user: nat, endPos: nat, k: nat)
    requires k > 0
    ensures Slots(user, k) < Slots(endPos, k) <==> user < endPos
  {
    if user < endPos {
      SlotInRange(user, endPos, k);
    } else {
      SlotsMono(endPos, user, k);
    }
  }

  /** q * k, the first slot of query row q. */
  method SlotOf(q: nat, k: nat) returns (p: nat)
    ensures p == Slots(q, k)
  {
    p := q * k;
    SlotsIsProduct(q, k);
  }

  /** Reading a sample after earlier samples were touched gives what the untouched data holds. */
  lemma {:induction false} TouchedLookup(threads: seq<map<nat, GlobalTopkTuneData>>, xs: seq<MatItem>, t: nat, ind: nat)
    requires forall s :: 0 <= s < |xs| ==> xs[s].i < |threads|
    requires t < |threads|
    ensures Lookup(Touched(threads, xs)[t], ind) == Lookup(threads[t], ind)
    decreases |xs|
  {
    if xs != [] {
      TouchedLookup(threads, xs[..|xs| - 1], t, ind);
    }
  }

  /** One turn of the sample loop of tuneTopk, on values. */
  lemma SampleStep(threads: seq<map<nat, GlobalTopkTuneData>>, xs: seq<MatItem>, s: nat)
    requires forall q :: 0 <= q < |xs| ==> xs[q].i < |threads|
    requires s < |xs|
    ensures var before := Touched(threads, xs[..s]);
      && xs[s].i < |before|
      && Touched(threads, xs[..s + 1]) == before[xs[s].i := Touch(before[xs[s].i], xs[s].j)]
      && LengthTimes(threads, xs[..s + 1]) == LengthTimes(threads, xs[..s]) + [Lookup(before[xs[s].i], xs[s].j).lengthTime]
      && Sum(LengthTimes(threads, xs[..s + 1])) == Sum(LengthTimes(threads, xs[..s])) + Lookup(before[xs[s].i], xs[s].j).lengthTime
  {
    assert xs[..s + 1] == xs[..s] + [xs[s]];
    assert (xs[..s] + [xs[s]])[..s] == xs[..s];
    TouchedLookup(threads, xs[..s], xs[s].i, xs[s].j);
    LengthTimesSnoc(threads, xs[..s], xs[s]);
  }

  lemma LengthTimesSnoc(threads: seq<map<nat, GlobalTopkTuneData>>, xs: seq<MatItem>, x: MatItem)
    requires forall s :: 0 <= s < |xs| ==> xs[s].i < |threads|
    requires x.i < |threads|
    ensures LengthTimes(threads, xs + [x]) == LengthTimes(threads, xs) + [Lookup(threads[x.i], x.j).lengthTime]
    ensures Sum(LengthTimes(threads, xs + [x])) == Sum(LengthTimes(threads, xs)) + Lookup(threads[x.i], x.j).lengthTime
  {
    var r := LengthTimes(threads, xs + [x]);
    assert r[..|r| - 1] == LengthTimes(threads, xs);
  }


}
