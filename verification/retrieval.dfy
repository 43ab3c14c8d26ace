/**
 * Retrieval of relevant past turns: the query is embedded, the index is
 * searched for `topK` labels, and the labels are filtered by
 * `label < len(log)` and resolved against the log with Python's list
 * indexing, negative labels counting from the end.
 */
module Retrieval {
  import opened Wrappers
  import opened Faults
  import opened MemoryStore

  /** Number of past turns requested from the index per query. */
  const TopK: nat := 5

  /** The remote and native services the core calls into, as oracles. */
  datatype Services = Services(
    embed: string -> Option<Vector>,
    search: (FlatIndex, Vector, nat) -> seq<int>,
    complete: seq<Message> -> Option<string>)

  /** The index answers a `k`-nearest query with exactly `k` labels. */
  ghost predicate SearchReturnsK(svc: Services) {
    forall ix, q, k :: |svc.search(ix, q, k)| == k
  }

  /** Every label is a stored vector's position or the padding label -1. */
  ghost predicate SearchLabelsInRange(svc: Services) {
    forall ix, q, k, j :: 0 <= j < |svc.search(ix, q, k)| ==> -1 <= svc.search(ix, q, k)[j] < ix.NTotal()
  }

  /** Python's `s[i]`: non-negative `i` from the front, negative `i` from the back. */
  function PyIndex<T>(s: seq<T>, i: int): (r: Result<T, Fault>)
    ensures r.Success? <==> -|s| <= i < |s|
    ensures 0 <= i < |s| ==> r == Success(s[i])
    ensures -|s| <= i < 0 ==> r == Success(s[|s| + i])
    ensures r.Failure? ==> r.error == IndexError
  {
    if 0 <= i < |s| then Success(s[i])
    else if -|s| <= i < 0 then Success(s[|s| + i])
    else Failure(IndexError)
  }

  /**
   * The comprehension `[log[i] for i in labels if i < len(log)]`, evaluated
   * left to right; the first out-of-range index raises.
   */
  function FilterLabels(log: seq<Message>, labels: seq<int>): (r: Result<seq<Message>, Fault>)
    ensures r.Success? ==> |r.value| <= |labels|
    ensures r.Success? ==> forall m :: m in r.value ==> m in log
    ensures r.Failure? ==> r.error == IndexError
    decreases |labels|
  {
    if labels == [] then Success([])
    else if labels[0] < |log| then
      var m :- PyIndex(log, labels[0]);
      var rest :- FilterLabels(log, labels[1..]);
      Success([m] + rest)
    else FilterLabels(log, labels[1..])
  }

  /** Adds one to every position. */
  function Shift(ps: seq<nat>): (r: seq<nat>)
    ensures |r| == |ps|
    ensures forall j :: 0 <= j < |ps| ==> r[j] == ps[j] + 1
  {
    seq(|ps|, j requires 0 <= j < |ps| => ps[j] + 1)
  }

  /** The positions of the labels that pass `label < n`, in increasing order. */
  ghost function KeptPositions(n: int, labels: seq<int>): (ps: seq<nat>)
    ensures forall j :: 0 <= j < |ps| ==> ps[j] < |labels| && labels[ps[j]] < n
    decreases |labels|
  {
    if labels == [] then []
    else (if labels[0] < n then [0] else []) + Shift(KeptPositions(n, labels[1..]))
  }

  /** The kept positions are listed in strictly increasing order: the filter never reorders. */
  lemma {:induction false} KeptPositionsIncrease(n: int, labels: seq<int>)
    ensures forall j, k :: 0 <= j < k < |KeptPositions(n, labels)| ==>
      KeptPositions(n, labels)[j] < KeptPositions(n, labels)[k]
    decreases |labels|
  {
    if labels != [] {
      KeptPositionsIncrease(n, labels[1..]);
      var ps' := KeptPositions(n, labels[1..]);
      assert forall j :: 0 <= j < |ps'| ==> Shift(ps')[j] >= 1;
    }
  }

  /** Every label below `n` has its position kept; with the first contract this is an if-and-only-if. */
  lemma {:induction false} KeptPositionsComplete(n: int, labels: seq<int>)
    ensures forall p :: 0 <= p < |labels| && labels[p] < n ==> p in KeptPositions(n, labels)
    decreases |labels|
  {
    if labels != [] {
      KeptPositionsComplete(n, labels[1..]);
      var ps' := KeptPositions(n, labels[1..]);
      var ps := KeptPositions(n, labels);
      forall p | 0 <= p < |labels| && labels[p] < n
        ensures p in ps
      {
        if p > 0 {
          assert labels[1..][p - 1] == labels[p];
          var j :| 0 <= j < |ps'| && ps'[j] == p - 1;
          assert Shift(ps')[j] == p;
          assert p in Shift(ps');
        }
      }
    }
  }

  /** `retrieve_relevant_memory`: an empty log short-circuits before any service is called. */
  function Retrieve(mem: Store, query: string, topK: nat, svc: Services): (r: Result<seq<Message>, Fault>)
    ensures |mem.log| == 0 ==> r == Success([])
    ensures r.Success? ==> forall m :: m in r.value ==> m in mem.log
    ensures r.Failure? ==> |mem.log| > 0
    ensures |mem.log| > 0 && svc.embed(query).None? ==> r == Failure(EmbeddingFailed)
    ensures |mem.log| > 0 && svc.embed(query).Some? ==>
      r == FilterLabels(mem.log, svc.search(mem.index, svc.embed(query).value, topK))
  {
    if |mem.log| == 0 then Success([])
    else
      match svc.embed(query)
      case None => Failure(EmbeddingFailed)
      case Some(v) => FilterLabels(mem.log, svc.search(mem.index, v, topK))
  }

  /** The filter raises exactly when some label lies below minus the log length. */
  lemma {:induction false} FilterSucceedsIff(log: seq<Message>, labels: seq<int>)
    ensures FilterLabels(log, labels).Success? <==> forall j :: 0 <= j < |labels| ==> labels[j] >= -|log|
    decreases |labels|
  {
    if labels != [] {
      FilterSucceedsIff(log, labels[1..]);
      assert forall j :: 1 <= j < |labels| ==> labels[j] == labels[1..][j - 1];
    }
  }

  /**
   * The filter keeps exactly the labels below the log length, in label
   * order, and resolves each with Python indexing.
   */
  lemma {:induction false} FilterFollowsLabelOrder(log: seq<Message>, labels: seq<int>)
    requires FilterLabels(log, labels).Success?
    ensures |FilterLabels(log, labels).value| == |KeptPositions(|log|, labels)|
    ensures forall j :: 0 <= j < |KeptPositions(|log|, labels)| ==>
      PyIndex(log, labels[KeptPositions(|log|, labels)[j]]) == Success(FilterLabels(log, labels).value[j])
    decreases |labels|
  {
    if labels != [] {
      FilterFollowsLabelOrder(log, labels[1..]);
      var ps' := KeptPositions(|log|, labels[1..]);
      var r' := FilterLabels(log, labels[1..]).value;
      ShiftedLabelsResolve(log, labels, ps', r');
      var ps := KeptPositions(|log|, labels);
      var r := FilterLabels(log, labels).value;
      if labels[0] < |log| {
        assert ps == [0] + Shift(ps');
        assert r == [PyIndex(log, labels[0]).value] + r';
        assert forall j :: 1 <= j < |ps| ==> ps[j] == Shift(ps')[j - 1] && r[j] == r'[j - 1];
      } else {
        assert ps == Shift(ps');
        assert r == r';
      }
    }
  }

  /** The inductive step of the order lemma: positions in the tail, shifted by one, name the same labels. */
  lemma ShiftedLabelsResolve(log: seq<Message>, labels: seq<int>, ps': seq<nat>, r': seq<Message>)
    requires labels != []
    requires |r'| == |ps'|
    requires forall j :: 0 <= j < |ps'| ==> ps'[j] < |labels| - 1
    requires forall j :: 0 <= j < |ps'| ==> PyIndex(log, labels[1..][ps'[j]]) == Success(r'[j])
    ensures forall j :: 0 <= j < |ps'| ==> PyIndex(log, labels[Shift(ps')[j]]) == Success(r'[j])
  {
  }

  /** When every label is below the log length nothing is dropped. */
  lemma {:induction false} FilterKeepsEveryInRangeLabel(log: seq<Message>, labels: seq<int>)
    requires forall j :: 0 <= j < |labels| ==> -|log| <= labels[j] < |log|
    ensures FilterLabels(log, labels).Success?
    ensures |FilterLabels(log, labels).value| == |labels|
    decreases |labels|
  {
    if labels != [] {
      FilterKeepsEveryInRangeLabel(log, labels[1..]);
    }
  }

  /** Filtering a concatenation of label lists filters each part, in order; the first failure wins. */
  lemma {:induction false} FilterConcat(log: seq<Message>, a: seq<int>, b: seq<int>)
    ensures FilterLabels(log, a + b) ==
      match FilterLabels(log, a)
      case Failure(e) => Failure(e)
      case Success(ra) =>
        match FilterLabels(log, b)
        case Failure(e) => Failure(e)
        case Success(rb) => Success(ra + rb)
    decreases |a|
  {
    if a == [] {
      assert a + b == b;
      if FilterLabels(log, b).Success? {
        assert [] + FilterLabels(log, b).value == FilterLabels(log, b).value;
      }
    } else {
      assert (a + b)[0] == a[0];
      assert (a + b)[1..] == a[1..] + b;
      FilterConcat(log, a[1..], b);
      if a[0] < |log| && PyIndex(log, a[0]).Success? {
        var m := PyIndex(log, a[0]).value;
        if FilterLabels(log, a[1..]).Success? && FilterLabels(log, b).Success? {
          var ra' := FilterLabels(log, a[1..]).value;
          var rb := FilterLabels(log, b).value;
          assert [m] + (ra' + rb) == ([m] + ra') + rb;
        }
      }
    }
  }

  /**
   * The padding label -1, wherever it stands among labels that cannot
   * raise, is kept and yields the most recent turn at its place in the result.
   */
  lemma PaddingLabelYieldsLastTurn(log: seq<Message>, labels: seq<int>, p: nat)
    requires |log| > 0
    requires forall j :: 0 <= j < |labels| ==> labels[j] >= -|log|
    requires p < |labels| && labels[p] == -1
    ensures FilterLabels(log, labels).Success?
    ensures exists j ::
      && 0 <= j < |KeptPositions(|log|, labels)| && KeptPositions(|log|, labels)[j] == p
      && j < |FilterLabels(log, labels).value| && FilterLabels(log, labels).value[j] == log[|log| - 1]
  {
    FilterSucceedsIff(log, labels);
    KeptPositionsComplete(|log|, labels);
    FilterFollowsLabelOrder(log, labels);
    var ps := KeptPositions(|log|, labels);
    var j :| 0 <= j < |ps| && ps[j] == p;
    assert PyIndex(log, labels[ps[j]]) == Success(log[|log| - 1]);
  }

  /** A label at or beyond the log length, wherever it stands, contributes nothing. */
  lemma OutOfRangeLabelIsDropped(log: seq<Message>, before: seq<int>, dropped: int, after: seq<int>)
    requires dropped >= |log|
    ensures FilterLabels(log, before + [dropped] + after) == FilterLabels(log, before + after)
    ensures !(|before| in KeptPositions(|log|, before + [dropped] + after))
  {
    assert ([dropped] + after)[1..] == after;
    assert before + [dropped] + after == before + ([dropped] + after);
    FilterConcat(log, before, [dropped] + after);
    FilterConcat(log, before, after);
    var ps := KeptPositions(|log|, before + [dropped] + after);
    assert (before + [dropped] + after)[|before|] == dropped;
  }

  /** With an index that honours `k`, at most `topK` turns come back. */
  lemma RetrieveAtMostTopK(mem: Store, query: string, topK: nat, svc: Services)
    requires SearchReturnsK(svc)
    ensures Retrieve(mem, query, topK, svc).Success? ==> |Retrieve(mem, query, topK, svc).value| <= topK
  {
  }

  /** On an empty log the answer does not depend on the services at all. */
  lemma EmptyMemoryConsultsNoService(mem: Store, query: string, topK: nat, svc1: Services, svc2: Services)
    requires mem.log == []
    ensures Retrieve(mem, query, topK, svc1) == Retrieve(mem, query, topK, svc2) == Success([])
  {
  }

  /**
   * On an aligned, non-empty store and a well-behaved index, retrieval never
   * raises an index error and returns exactly `topK` turns: the -1 padding is
   * not dropped but repeats the most recent turn.
   */
  lemma AlignedRetrieveReturnsExactlyTopK(mem: Store, query: string, topK: nat, svc: Services)
    requires Aligned(mem) && |mem.log| > 0
    requires SearchReturnsK(svc) && SearchLabelsInRange(svc)
    requires svc.embed(query).Some?
    ensures Retrieve(mem, query, topK, svc).Success?
    ensures |Retrieve(mem, query, topK, svc).value| == topK
  {
    var labels := svc.search(mem.index, svc.embed(query).value, topK);
    assert forall j :: 0 <= j < |labels| ==> -|mem.log| <= labels[j] < |mem.log|;
    FilterKeepsEveryInRangeLabel(mem.log, labels);
  }
}
