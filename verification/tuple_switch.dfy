/** `detail::TupleSwitch<TupleList>(index, func)`: runs the functor on the
    index-th element of a type list. The elements are observed through
    their invocation counters (`TupleElemN::executed`), so a list is the
    sequence of its counters and a call is the counters afterwards. */
module Detail {

  /** Invokes the functor on the index-th element: its counter rises by one
      and every other counter stays. */
  function TupleSwitch(counts: seq<int>, index: nat): (r: seq<int>)
    requires index < |counts|
    ensures |r| == |counts|
    ensures r[index] == counts[index] + 1
    ensures forall j :: 0 <= j < |counts| && j != index ==> r[j] == counts[j]
    decreases index
  {
    if index == 0 then [counts[0] + 1] + counts[1..]
    else [counts[0]] + TupleSwitch(counts[1..], index - 1)
  }

  predicate ValidIndices(n: nat, indices: seq<nat>)
  {
    forall i :: 0 <= i < |indices| ==> indices[i] < n
  }

  /** The counters after one call per entry of `indices`, in order. */
  function SwitchAll(counts: seq<int>, indices: seq<nat>): (r: seq<int>)
    requires ValidIndices(|counts|, indices)
    ensures |r| == |counts|
    decreases |indices|
  {
    if |indices| == 0 then counts
    else SwitchAll(TupleSwitch(counts, indices[0]), indices[1..])
  }

  /** How many entries of `indices` equal `j`. */
  function Occurrences(indices: seq<nat>, j: nat): nat
  {
    if |indices| == 0 then 0
    else (if indices[0] == j then 1 else 0) + Occurrences(indices[1..], j)
  }

  /** Every counter rises by the number of calls that selected its element,
      and by nothing else. */
  lemma {:induction false} SwitchAllCounts(counts: seq<int>, indices: seq<nat>, j: nat)
    requires ValidIndices(|counts|, indices)
    requires j < |counts|
    ensures SwitchAll(counts, indices)[j] == counts[j] + Occurrences(indices, j)
    decreases |indices|
  {
    if |indices| != 0 {
      SwitchAllCounts(TupleSwitch(counts, indices[0]), indices[1..], j);
    }
  }

  /** Distinct indices select distinct elements, and every index in range
      selects one. */
  lemma DistinctIndicesSelectDistinctElements(counts: seq<int>, i: nat, j: nat)
    requires i < |counts| && j < |counts|
    ensures TupleSwitch(counts, i) == TupleSwitch(counts, j) <==> i == j
  {
    if i != j {
      assert TupleSwitch(counts, i)[i] != TupleSwitch(counts, j)[i];
    }
  }

  /** The assertions of test_tuple_switch on the four-element list. */
  lemma TupleSwitchScenario()
    ensures SwitchAll([0, 0, 0, 0], [0]) == [1, 0, 0, 0]
    ensures SwitchAll([0, 0, 0, 0], [0, 0]) == [2, 0, 0, 0]
    ensures SwitchAll([0, 0, 0, 0], [0, 0, 0, 0]) == [4, 0, 0, 0]
    ensures SwitchAll([0, 0, 0, 0], [0, 0, 0, 0, 1]) == [4, 1, 0, 0]
    ensures SwitchAll([0, 0, 0, 0], [0, 0, 0, 0, 1, 2]) == [4, 1, 1, 0]
    ensures SwitchAll([0, 0, 0, 0], [0, 0, 0, 0, 1, 2, 3]) == [4, 1, 1, 1]
  {
  }
}
