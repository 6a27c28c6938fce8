/**
 * The per-thread retrieval context: the scratch state every LEMP retriever
 * reads and writes while it scans a probe bucket.  What the raw buffers and
 * objects of the source hold is kept only as far as the model needs it: an allocated
 * buffer is the number of elements it was allocated with, a state object is
 * the kind it was built as, a matrix is the rows' norms, ids and approximation
 * slack.
 */
module RetrievalArgs {
  import opened Wrappers

  /** Number of LSH signatures and bits per signature code (fixed at build time). */
  const LshSignatures: nat := 32
  const LshCodeLength: nat := 8

  /** A (score, id) pair; ordered by score. */
  datatype QueueElement = QueueElement(data: real, id: int)

  /** What a default-constructed QueueElement holds. */
  const EmptyElement: QueueElement := QueueElement(0.0, 0)

  /** A (score, thread, position) triple: a tuning sample or a retrieved result. */
  datatype MatItem = MatItem(result: real, i: nat, j: nat)

  /** An interval of a sorted list that a coordinate-based retriever scans. */
  datatype IntervalElement = IntervalElement(col: nat, start: nat, end: nat)

  const EmptyInterval: IntervalElement := IntervalElement(0, 0, 0)

  /** The retrieval methods of LEMP. */
  datatype LempMethod = L | LI | LC | I | C | TA | TANRA | AP | LSH | Tree

  /** The threshold-algorithm state: round-robin or max-first list choice, over colnum lists. */
  datatype TAState = TAStateRR(colnum: nat) | TAStateMAX(colnum: nat)

  /** The Gaussian generator built for LSH: dimension and number of hyperplanes. */
  datatype RandomGaussians = RandomGaussians(colnum: nat, count: nat)

  /** Which approximation the build uses (RELATIVE_APPROX, ABS_APPROX or neither). */
  datatype Approximation = RelativeApprox | AbsoluteApprox | Exact

  /**
   * The part of a matrix the dispatcher reads: per row its length (stored just
   * before the row, query[-1]), its id, and its slack for additive approximation.
   */
  datatype VectorMatrix = VectorMatrix(rowNum: nat, colNum: nat, norms: seq<real>, ids: seq<int>, gammaEquivalents: seq<real>)
  {
    predicate Valid()
    {
      |norms| == rowNum && |ids| == rowNum && |gammaEquivalents| == rowNum
    }
  }

  /**
   * A batch of queries: rows startPos..endPos-1 of the query matrix, their
   * length range [normLo, normHi], which of them are out of the top-k race, and
   * whether the sorted-list queues were built.
   */
  datatype QueryBatch = QueryBatch(
    startPos: nat, endPos: nat, rowNum: nat,
    normLo: real, normHi: real,
    inactiveQueries: seq<bool>, inactiveCounter: nat,
    initializedQueues: bool)
  {
    predicate Valid()
    {
      startPos <= endPos && rowNum == endPos - startPos && |inactiveQueries| == rowNum
    }
  }

  /** The tuning data for one sample query. */
  datatype GlobalTopkTuneData = GlobalTopkTuneData(lengthTime: real, results: seq<QueueElement>)

  /** What a default-constructed GlobalTopkTuneData holds. */
  const EmptyTuneData: GlobalTopkTuneData := GlobalTopkTuneData(0.0, [])

  /** The queue getQueue hands out: the list order of query pos of a batch. */
  datatype QueueRef = QueueRef(batch: nat, pos: nat)

  /** std::vector::resize: keep the first n elements, or pad with fill up to n. */
  function Resize<T>(s: seq<T>, n: nat, fill: T): (r: seq<T>)
    ensures |r| == n
    ensures forall i :: 0 <= i < n ==> r[i] == if i < |s| then s[i] else fill
  {
    if n <= |s| then s[..n] else s + seq(n - |s|, _ => fill)
  }

  /** std::copy of src into dst at offset at. */
  function CopyInto<T>(dst: seq<T>, src: seq<T>, at: nat): (r: seq<T>)
    requires at + |src| <= |dst|
    ensures |r| == |dst|
    ensures forall i :: 0 <= i < |r| ==> r[i] == if at <= i < at + |src| then src[i - at] else dst[i]
  {
    dst[..at] + src + dst[at + |src|..]
  }

  /** Copying a slice back where it was taken from changes nothing. */
  lemma CopyBackUnchanged<T>(dst: seq<T>, at: nat, n: nat)
    requires at + n <= |dst|
    ensures CopyInto(dst, dst[at..at + n], at) == dst
  {
    var r := CopyInto(dst, dst[at..at + n], at);
    assert forall i :: 0 <= i < |r| ==> r[i] == dst[i];
  }

  /**
   * The first top-k slot of query row q when every row has k slots, q * k,
   * written as repeated addition so that the slot arithmetic stays linear.
   */
  function Slots(q: nat, k: nat): nat
  {
    if q == 0 then 0 else Slots(q - 1, k) + k
  }

  lemma {:induction false} SlotsIsProduct(q: nat, k: nat)
    ensures Slots(q, k) == q * k
    decreases q
  {
    if q > 0 {
      SlotsIsProduct(q - 1, k);
      assert (q - 1) * k + k == q * k;
    }
  }

  /**
   * Round trip of the top-k buffer: moving query q's k slots into a heap of
   * exactly k elements and writing the heap back leaves the buffer unchanged.
   */
  lemma MoveWriteRoundTrip(topk: seq<QueueElement>, heap: seq<QueueElement>, q: nat, k: nat)
    requires |heap| == k && Slots(q, k) + k <= |topk|
    ensures CopyInto(topk, CopyInto(heap, topk[Slots(q, k)..Slots(q, k) + k], 0), Slots(q, k)) == topk
  {
    var at := Slots(q, k);
    var moved := CopyInto(heap, topk[at..at + k], 0);
    assert moved == topk[at..at + k];
    CopyBackUnchanged(topk, at, k);
  }

  /** Ascending by score, as std::sort with QueueElement's operator< leaves it. */
  predicate SortedByData(s: seq<QueueElement>)
  {
    forall i, j :: 0 <= i < j < |s| ==> s[i].data <= s[j].data
  }

  /**
   * std::upper_bound of theta in s[lo..hi]: the first position whose score
   * exceeds theta, found by bisection.
   */
  function UpperBound(s: seq<QueueElement>, theta: real, lo: nat, hi: nat): (r: nat)
    requires lo <= hi <= |s| && SortedByData(s)
    ensures lo <= r <= hi
    ensures forall i :: lo <= i < r ==> s[i].data <= theta
    ensures forall i :: r <= i < hi ==> s[i].data > theta
    decreases hi - lo
  {
    if lo == hi then lo
    else
      var mid := lo + (hi - lo) / 2;
      if s[mid].data <= theta then UpperBound(s, theta, mid + 1, hi)
      else UpperBound(s, theta, lo, mid)
  }

  /** i is the first position of s whose score exceeds theta. */
  predicate FirstAbove(s: seq<QueueElement>, theta: real, i: int)
  {
    0 <= i < |s| && s[i].data > theta && forall j :: 0 <= j < i ==> s[j].data <= theta
  }

  /** Insert e into the ascending s after every element that is not greater. */
  function InsertByData(e: QueueElement, s: seq<QueueElement>): (r: seq<QueueElement>)
    requires SortedByData(s)
    ensures SortedByData(r) && multiset(r) == multiset(s) + multiset{e}
    ensures |r| == |s| + 1 && (r[0] == e || (s != [] && r[0] == s[0]))
  {
    if s == [] then [e]
    else if e.data < s[0].data then [e] + s
    else
      var rest := InsertByData(e, s[1..]);
      assert s == [s[0]] + s[1..];
      assert multiset([s[0]] + rest) == multiset{s[0]} + multiset(rest);
      [s[0]] + rest
  }

  /** std::sort by score: an ascending permutation of s. */
  function SortByData(s: seq<QueueElement>): (r: seq<QueueElement>)
    ensures SortedByData(r) && multiset(r) == multiset(s)
  {
    if s == [] then []
    else
      assert s == [s[0]] + s[1..];
      InsertByData(s[0], SortByData(s[1..]))
  }

  /** The table initThetaForActiveBlocks appends: entry b holds thetas[b] with id b + 1. */
  function ThetaEntries(thetas: seq<real>): (r: seq<QueueElement>)
    ensures |r| == |thetas|
    ensures forall b :: 0 <= b < |r| ==> r[b] == QueueElement(thetas[b], b + 1)
  {
    seq(|thetas|, b requires 0 <= b < |thetas| => QueueElement(thetas[b], b + 1))
  }

  /** RELATIVE_APPROX turns the relative error epsilon into epsilon / (1 - epsilon). */
  function RelativeEpsilon(epsilon: real): (r: real)
    requires epsilon != 1.0
    ensures r * (1.0 - epsilon) == epsilon
    ensures 0.0 <= epsilon < 1.0 ==> r >= epsilon
  {
    var e' := epsilon / (1.0 - epsilon);
    assert e' * (1.0 - epsilon) == epsilon;
    assert 0.0 <= epsilon < 1.0 ==> e' >= epsilon by {
      if 0.0 <= epsilon < 1.0 {
        if e' < 0.0 {
          assert e' * (1.0 - epsilon) < 0.0;
        }
        assert e' - epsilon == e' * epsilon;
        assert e' * epsilon >= 0.0;
      }
    }
    e'
  }

  /** Every method that scans candidates needs the candidate buffer. */
  predicate NeedsCandidates(m: LempMethod)
    ensures NeedsCandidates(m) <==> !(m == L || m == TA || m == Tree)
  {
    m == LI || m == I || m == LC || m == C || m == AP || m == LSH || m == TANRA
  }

  class RetrievalArguments {
    var intervals: seq<IntervalElement>
    var results: seq<MatItem>
    var topkResults: array<QueueElement>
    var heap: array<QueueElement>

    // LSH buffers
    var done: seq<bool>
    var sums: seq<real>
    var countsOfBlockValues: seq<nat>

    // raw buffers: the element count they were allocated with, None for nullptr
    var candidatesToVerify: Option<nat>
    var cpArray: Option<nat>
    var extCpArray: Option<nat>

    var queryBatches: seq<QueryBatch>

    // L2AP buffers
    var accum: seq<real>
    var hashval: seq<real>
    var hashlen: Option<nat>
    var hashwgt: Option<nat>

    /** The sample times of the competing method, None for nullptr. */
    var competitorMethod: Option<seq<real>>
    /** Per bucket, per thread: tuning data of the sample queries by position. */
    var globalData: seq<seq<map<nat, GlobalTopkTuneData>>>

    var thetaForActiveBlocks: seq<QueueElement>
    /** The zero-initialised sketch buffer: its byte count, None for nullptr. */
    var sketches: Option<nat>
    var rig: Option<RandomGaussians>

    var probeMatrix: Option<VectorMatrix>
    var queryMatrix: Option<VectorMatrix>
    var state: Option<TAState>
    /** The TANRA state, built over colnum lists. */
    var tanraState: Option<nat>

    var listsQueue: Option<QueueRef>

    var threads: int
    var k: int
    var prevBucketBestPhi: int

    var theta: real
    var tb: real
    var R: real
    var epsilon: real
    var currEpsilonAppr: real
    var gamma: real
    var currGammaAppr: real
    var worstMinScore: real
    var boundsTime: real
    var ipTime: real
    var scanTime: real
    var preprocessTime: real
    var filterTime: real
    var initializeListsTime: real
    var lengthTime: real

    var comparisons: int

    var lempMethod: LempMethod

    var queryId: int
    var bucketInd: nat
    var queryPos: nat

    var colnum: nat
    var maxLists: nat
    var numLists: nat
    var forCosine: bool
    var isTARR: bool

    /** The heap and the flat top-k buffer are two separate vectors. */
    predicate Distinct()
      reads this`heap, this`topkResults
    {
      heap != topkResults
    }

    /**
     * RetrievalArguments(colnum, queryMatrix, probeMatrix, method, forCosine,
     * isTARR); the default constructor is this one with (0, none, none, L).
     * The initializer list leaves listsQueue (and tree) unset; the model
     * starts listsQueue as none.
     */
    constructor (colnum: nat, queryMatrix: Option<VectorMatrix>, probeMatrix: Option<VectorMatrix>, lempMethod: LempMethod,
                 forCosine: bool, isTARR: bool)
      ensures Distinct() && heap.Length == 0 && topkResults.Length == 0
      ensures this.colnum == colnum && this.queryMatrix == queryMatrix && this.probeMatrix == probeMatrix
      ensures this.lempMethod == lempMethod && this.forCosine == forCosine && this.isTARR == isTARR
      ensures comparisons == 0
      ensures boundsTime == 0.0 && ipTime == 0.0 && scanTime == 0.0 && preprocessTime == 0.0
      ensures filterTime == 0.0 && initializeListsTime == 0.0 && lengthTime == 0.0
      ensures state == None && tanraState == None
      ensures prevBucketBestPhi == -1 && threads == 1
      ensures worstMinScore == 179769313486231570814527423731704356798070567525844996598917476803157260780028538760589558632766878171540458953514382464234321326889464182768467546703537516986049910576551282076245490090389328944075868508455133942304583236903222948165808559332123348274797826204144723168738177180919299881250404026184124858368.0
      ensures hashwgt == None && hashlen == None && competitorMethod == None
      ensures sketches == None && rig == None
      ensures cpArray == None && extCpArray == None && candidatesToVerify == None
      ensures intervals == [] && results == [] && queryBatches == [] && globalData == []
      ensures done == [] && sums == [] && countsOfBlockValues == [] && accum == [] && hashval == []
      ensures thetaForActiveBlocks == [] && listsQueue == None
    {
      this.colnum := colnum;
      comparisons := 0;
      this.probeMatrix := probeMatrix;
      this.queryMatrix := queryMatrix;
      this.forCosine := forCosine;
      this.lempMethod := lempMethod;
      boundsTime, ipTime, scanTime, preprocessTime := 0.0, 0.0, 0.0, 0.0;
      filterTime, initializeListsTime, lengthTime := 0.0, 0.0, 0.0;
      state, tanraState := None, None;
      prevBucketBestPhi := -1;
      threads := 1;
      worstMinScore := 179769313486231570814527423731704356798070567525844996598917476803157260780028538760589558632766878171540458953514382464234321326889464182768467546703537516986049910576551282076245490090389328944075868508455133942304583236903222948165808559332123348274797826204144723168738177180919299881250404026184124858368.0;
      hashwgt, hashlen := None, None;
      competitorMethod := None;
      sketches, rig := None, None;
      this.isTARR := isTARR;
      cpArray, extCpArray, candidatesToVerify := None, None, None;
      intervals, results, queryBatches, globalData := [], [], [], [];
      done, sums, countsOfBlockValues, accum, hashval := [], [], [], [], [];
      thetaForActiveBlocks, listsQueue := [], None;
      heap := new QueueElement[0];
      topkResults := new QueueElement[0];
    }

    /** initializeBasics: take the matrices and the run parameters; RELATIVE_APPROX transforms epsilon. */
    method InitializeBasics(queryMatrix1: VectorMatrix, probeMatrix1: VectorMatrix, method1: LempMethod,
                            theta1: real, k1: int, threads1: int, R1: real, epsilon1: real,
                            forCosine1: bool, isTARR1: bool, mode: Approximation)
      requires mode == RelativeApprox ==> epsilon1 != 1.0
      modifies this`queryMatrix, this`probeMatrix, this`colnum, this`lempMethod, this`forCosine, this`theta, this`k,
               this`threads, this`R, this`epsilon, this`isTARR
      ensures queryMatrix == Some(queryMatrix1) && probeMatrix == Some(probeMatrix1)
      ensures colnum == queryMatrix1.colNum && lempMethod == method1 && forCosine == forCosine1
      ensures theta == theta1 && k == k1 && threads == threads1 && R == R1 && isTARR == isTARR1
      ensures epsilon == if mode == RelativeApprox then RelativeEpsilon(epsilon1) else epsilon1
    {
      queryMatrix := Some(queryMatrix1);
      probeMatrix := Some(probeMatrix1);
      colnum := queryMatrix1.colNum;
      lempMethod := method1;
      forCosine := forCosine1;
      theta := theta1;
      k := k1;
      threads := threads1;
      R := R1;
      epsilon := epsilon1;
      isTARR := isTARR1;
      if mode == RelativeApprox {
        epsilon := epsilon / (1.0 - epsilon);
      }
    }

    /** clear: reset the seven time accumulators and the comparison counter, drop the results. */
    method Clear()
      modifies this`lengthTime, this`boundsTime, this`scanTime, this`filterTime, this`preprocessTime,
               this`ipTime, this`initializeListsTime, this`comparisons, this`results
      ensures lengthTime == 0.0 && boundsTime == 0.0 && scanTime == 0.0 && filterTime == 0.0
      ensures preprocessTime == 0.0 && ipTime == 0.0 && initializeListsTime == 0.0
      ensures comparisons == 0 && results == []
    {
      lengthTime := 0.0;
      boundsTime := 0.0;
      scanTime := 0.0;
      filterTime := 0.0;
      preprocessTime := 0.0;
      ipTime := 0.0;
      initializeListsTime := 0.0;
      comparisons := 0;
      results := [];
    }

    /** moveTopkToHeap(pos): the k slots from pos of the top-k buffer go to the front of the heap. */
    method MoveTopkToHeap(pos: nat)
      requires Distinct() && 0 <= k <= heap.Length && pos + k <= topkResults.Length
      modifies heap
      ensures heap[..] == CopyInto(old(heap[..]), topkResults[pos..pos + k], 0)
    {
      var j := 0;
      while j < k
        invariant 0 <= j <= k
        invariant forall i :: 0 <= i < j ==> heap[i] == topkResults[pos + i]
        invariant forall i :: j <= i < heap.Length ==> heap[i] == old(heap[i])
      {
        heap[j] := topkResults[pos + j];
        j := j + 1;
      }
      assert heap[..] == CopyInto(old(heap[..]), topkResults[pos..pos + k], 0);
    }

    /** writeHeapToTopk(q): the whole heap overwrites the slots of query q, from q * k on. */
    method WriteHeapToTopk(q: nat)
      requires Distinct() && k >= 0 && Slots(q, k) + heap.Length <= topkResults.Length
      modifies topkResults
      ensures topkResults[..] == CopyInto(old(topkResults[..]), heap[..], Slots(q, k))
    {
      var p := q * k;
      SlotsIsProduct(q, k);
      var j := 0;
      while j < heap.Length
        invariant 0 <= j <= heap.Length
        invariant forall i :: 0 <= i < topkResults.Length ==>
          topkResults[i] == if p <= i < p + j then heap[i - p] else old(topkResults[i])
      {
        topkResults[p + j] := heap[j];
        j := j + 1;
      }
      assert topkResults[..] == CopyInto(old(topkResults[..]), heap[..], p);
    }

    /** allocTopkResults: k heap slots and k slots per query row. */
    method AllocTopkResults()
      requires k >= 0 && queryMatrix.Some?
      modifies this`heap, this`topkResults
      ensures fresh(heap) && fresh(topkResults) && Distinct()
      ensures heap[..] == Resize(old(heap[..]), k, EmptyElement)
      ensures topkResults[..] == Resize(old(topkResults[..]), queryMatrix.value.rowNum * k, EmptyElement)
    {
      var h := Resized(heap, k);
      var t := Resized(topkResults, queryMatrix.value.rowNum * k);
      heap := h;
      topkResults := t;
    }

    /** setIntervals(lists). */
    method SetIntervals(lists: nat)
      modifies this`maxLists, this`intervals, this`comparisons
      ensures maxLists == lists && intervals == Resize(old(intervals), lists, EmptyInterval) && comparisons == 0
    {
      maxLists := lists;
      intervals := Resize(intervals, maxLists, EmptyInterval);
      comparisons := 0;
    }

    /** setQueues(queue). */
    method SetQueues(queue: QueueRef)
      modifies this`listsQueue
      ensures listsQueue == Some(queue)
    {
      listsQueue := Some(queue);
    }

    /**
     * initThetaForActiveBlocks: append one entry per signature count b + 1 and
     * sort the table by threshold.  The thresholds, computed with log, exp, pow
     * and cos from R, are a parameter.
     */
    method InitThetaForActiveBlocks(thetas: seq<real>)
      requires |thetas| == LshSignatures
      modifies this`thetaForActiveBlocks
      ensures SortedByData(thetaForActiveBlocks)
      ensures multiset(thetaForActiveBlocks) == multiset(old(thetaForActiveBlocks) + ThetaEntries(thetas))
    {
      var b := 0;
      ghost var start := thetaForActiveBlocks;
      while b < LshSignatures
        invariant 0 <= b <= LshSignatures
        invariant thetaForActiveBlocks == start + ThetaEntries(thetas[..b])
      {
        assert ThetaEntries(thetas[..b + 1]) == ThetaEntries(thetas[..b]) + [QueueElement(thetas[b], b + 1)];
        thetaForActiveBlocks := thetaForActiveBlocks + [QueueElement(thetas[b], b + 1)];
        b := b + 1;
      }
      assert thetas[..b] == thetas;
      thetaForActiveBlocks := SortByData(thetaForActiveBlocks);
    }

    /**
     * findActiveBlocks(theta): how many signature blocks a threshold needs,
     * read from the sorted table; past every threshold it is the last id.  On
     * an empty table the source reads before the table's start; that read is
     * the absent result here.
     */
    function FindActiveBlocks(theta: real): (r: Option<int>)
      reads this
      requires SortedByData(thetaForActiveBlocks)
      ensures r.None? <==> |thetaForActiveBlocks| == 0
      ensures |thetaForActiveBlocks| > 0 && (forall i :: 0 <= i < |thetaForActiveBlocks| ==> thetaForActiveBlocks[i].data <= theta) ==>
        r == Some(thetaForActiveBlocks[|thetaForActiveBlocks| - 1].id)
      ensures forall i :: FirstAbove(thetaForActiveBlocks, theta, i) ==> r == Some(thetaForActiveBlocks[i].id + 1)
    {
      if |thetaForActiveBlocks| == 0 then None
      else
        var pos := UpperBound(thetaForActiveBlocks, theta, 0, |thetaForActiveBlocks|);
        if pos >= |thetaForActiveBlocks| then Some(thetaForActiveBlocks[|thetaForActiveBlocks| - 1].id)
        else Some(thetaForActiveBlocks[pos].id + 1)
    }

    /**
     * init(maxProbeBucketSize): allocate what the configured method needs and
     * nothing else.  thetas are the LSH thresholds (see InitThetaForActiveBlocks).
     */
    method Init(maxProbeBucketSize: nat, thetas: seq<real>)
      requires lempMethod == LSH ==> |thetas| == LshSignatures
      modifies this`extCpArray, this`candidatesToVerify, this`accum, this`hashval, this`hashlen, this`hashwgt,
               this`cpArray, this`state, this`tanraState, this`rig, this`done, this`thetaForActiveBlocks,
               this`sketches, this`sums, this`countsOfBlockValues
      ensures extCpArray == if lempMethod == LI || lempMethod == I then Some(maxProbeBucketSize) else old(extCpArray)
      ensures candidatesToVerify == if NeedsCandidates(lempMethod) then Some(maxProbeBucketSize) else old(candidatesToVerify)
      ensures cpArray == if lempMethod == LC || lempMethod == C then Some(maxProbeBucketSize) else old(cpArray)
      ensures state == if lempMethod != TA then old(state) else if isTARR then Some(TAStateRR(colnum)) else Some(TAStateMAX(colnum))
      ensures tanraState == if lempMethod == TANRA then Some(colnum) else old(tanraState)
      ensures lempMethod == AP ==> accum == Resize(old(accum), maxProbeBucketSize, -1.0) && hashval == Resize(old(hashval), colnum, 0.0)
      ensures lempMethod == AP ==> hashlen == Some(colnum) && hashwgt == Some(colnum)
      ensures lempMethod != AP ==> accum == old(accum) && hashval == old(hashval) && hashlen == old(hashlen) && hashwgt == old(hashwgt)
      ensures lempMethod == LSH ==> LshReady(old(done), old(thetaForActiveBlocks), old(sums), old(countsOfBlockValues), maxProbeBucketSize, thetas)
      ensures lempMethod != LSH ==>
        && rig == old(rig) && done == old(done) && thetaForActiveBlocks == old(thetaForActiveBlocks)
        && sketches == old(sketches) && sums == old(sums) && countsOfBlockValues == old(countsOfBlockValues)
    {
      var m, cols := lempMethod, colnum;
      if m == LI || m == I {
        extCpArray := Some(maxProbeBucketSize);
      }
      if m == LI || m == I || m == LC || m == C || m == AP || m == LSH {
        candidatesToVerify := Some(maxProbeBucketSize);
      }
      if m == AP {
        InitL2ap(maxProbeBucketSize);
      }
      if m == LC || m == C {
        cpArray := Some(maxProbeBucketSize);
      }
      if m == TA || m == TANRA {
        InitTaState(maxProbeBucketSize);
      }
      if m == LSH {
        InitLsh(maxProbeBucketSize, thetas);
      }
    }

    /** The TA and TANRA parts of init: the per-column state of the threshold algorithm. */
    method InitTaState(maxProbeBucketSize: nat)
      requires lempMethod == TA || lempMethod == TANRA
      modifies this`state, this`tanraState, this`candidatesToVerify
      ensures state == if lempMethod != TA then old(state) else if isTARR then Some(TAStateRR(colnum)) else Some(TAStateMAX(colnum))
      ensures tanraState == if lempMethod == TANRA then Some(colnum) else old(tanraState)
      ensures candidatesToVerify == if lempMethod == TANRA then Some(maxProbeBucketSize) else old(candidatesToVerify)
    {
      if lempMethod == TA {
        if isTARR {
          state := Some(TAStateRR(colnum));
        } else {
          state := Some(TAStateMAX(colnum));
        }
      }
      if lempMethod == TANRA {
        tanraState := Some(colnum);
        candidatesToVerify := Some(maxProbeBucketSize);
      }
    }

    /** The L2AP part of init: accumulators for the bucket, hash values and the two per-column arrays. */
    method InitL2ap(maxProbeBucketSize: nat)
      modifies this`accum, this`hashval, this`hashlen, this`hashwgt
      ensures accum == Resize(old(accum), maxProbeBucketSize, -1.0) && hashval == Resize(old(hashval), colnum, 0.0)
      ensures hashlen == Some(colnum) && hashwgt == Some(colnum)
    {
      accum := Resize(accum, maxProbeBucketSize, -1.0);
      hashval := Resize(hashval, colnum, 0.0);
      hashlen := Some(colnum);
      hashwgt := Some(colnum);
    }

    /** The LSH buffers after init, given their earlier contents. */
    ghost predicate LshReady(done0: seq<bool>, table0: seq<QueueElement>, sums0: seq<real>, counts0: seq<nat>,
                             maxProbeBucketSize: nat, thetas: seq<real>)
      reads this`rig, this`colnum, this`done, this`thetaForActiveBlocks, this`sketches, this`sums, this`countsOfBlockValues
    {
      && rig == Some(RandomGaussians(colnum, LshSignatures * LshCodeLength))
      && done == Resize(done0, maxProbeBucketSize, false)
      && SortedByData(thetaForActiveBlocks)
      && multiset(thetaForActiveBlocks) == multiset(table0 + ThetaEntries(thetas))
      && sketches == Some(maxProbeBucketSize * (LshCodeLength / 8) * LshSignatures)
      && sums == Resize(sums0, LshSignatures * LshCodeLength, 0.0)
      && countsOfBlockValues == Resize(counts0, 256, 0)
    }

    /** The LSH part of init: Gaussians, the done bits, the threshold table, the sketch buffer's size and the counters. */
    method InitLsh(maxProbeBucketSize: nat, thetas: seq<real>)
      requires |thetas| == LshSignatures
      modifies this`rig, this`done, this`thetaForActiveBlocks, this`sketches, this`sums, this`countsOfBlockValues
      ensures LshReady(old(done), old(thetaForActiveBlocks), old(sums), old(countsOfBlockValues), maxProbeBucketSize, thetas)
    {
      rig := Some(RandomGaussians(colnum, LshSignatures * LshCodeLength));
      done := Resize(done, maxProbeBucketSize, false);
      InitThetaForActiveBlocks(thetas);
      var totalSketchSize := maxProbeBucketSize * (LshCodeLength / 8) * LshSignatures;
      sketches := Some(totalSketchSize);
      sums := Resize(sums, LshSignatures * LshCodeLength, 0.0);
      if LshCodeLength == 8 {
        countsOfBlockValues := Resize(countsOfBlockValues, 256, 0);
      }
    }
  }

  /** A resized copy of a: its first n elements, padded with default elements. */
  method Resized(a: array<QueueElement>, n: nat) returns (b: array<QueueElement>)
    ensures fresh(b) && b[..] == Resize(a[..], n, EmptyElement)
  {
    b := new QueueElement[n];
    var i := 0;
    while i < n
      invariant 0 <= i <= n
      invariant forall j :: 0 <= j < i ==> b[j] == if j < a.Length then a[j] else EmptyElement
    {
      b[i] := if i < a.Length then a[i] else EmptyElement;
      i := i + 1;
    }
  }
}
