/** The reduction the processing thread performs over a mapped data channel:
    start from the first element and replace the running result whenever a
    later element is strictly better, so ties keep the earliest occurrence. */
module Reduction {
  import opened Common

  /** The comparison of the scan: strictly smaller for MIN, strictly larger for MAX. */
  predicate Beats(kind: FindType, x: int, best: int)
  {
    match kind
    case Min => x < best
    case Max => x > best
  }

  /** The running result after the scan has looked at every element of `data`. */
  function Extremum(kind: FindType, data: seq<int>): (r: int)
    requires |data| > 0
    ensures r in data
    ensures forall j :: 0 <= j < |data| ==> !Beats(kind, data[j], r)
    ensures kind == Min ==> forall j :: 0 <= j < |data| ==> r <= data[j]
    ensures kind == Max ==> forall j :: 0 <= j < |data| ==> data[j] <= r
  {
    if |data| == 1 then data[0]
    else
      var best := Extremum(kind, data[..|data| - 1]);
      if Beats(kind, data[|data| - 1], best) then data[|data| - 1] else best
  }

  /** Independent description of the answer: position `k` holds a value no
      element beats, and every earlier element is strictly worse than it. */
  ghost predicate IsLeftmostExtremum(kind: FindType, data: seq<int>, k: int)
  {
    && 0 <= k < |data|
    && (forall j :: 0 <= j < |data| ==> !Beats(kind, data[j], data[k]))
    && (forall j :: 0 <= j < k ==> Beats(kind, data[k], data[j]))
  }

  /** The position the scan's result was taken from. */
  function ExtremumIndex(kind: FindType, data: seq<int>): (k: nat)
    requires |data| > 0
    ensures IsLeftmostExtremum(kind, data, k)
    ensures data[k] == Extremum(kind, data)
  {
    if |data| == 1 then 0
    else
      var k := ExtremumIndex(kind, data[..|data| - 1]);
      if Beats(kind, data[|data| - 1], data[k]) then |data| - 1 else k
  }

  /** At most one position is the leftmost extremum. */
  lemma {:induction false} LeftmostUnique(kind: FindType, data: seq<int>, k1: int, k2: int)
    requires IsLeftmostExtremum(kind, data, k1)
    requires IsLeftmostExtremum(kind, data, k2)
    ensures k1 == k2
  {
    var x1, x2 := data[k1], data[k2];
    assert k1 < k2 ==> Beats(kind, x2, x1);
    assert k2 < k1 ==> Beats(kind, x1, x2);
  }

  /** The scan returns exactly the element at the leftmost extremal position,
      and only that position is leftmost-extremal. */
  lemma {:induction false} ExtremumIsLeftmost(kind: FindType, data: seq<int>, k: int)
    requires |data| > 0
    ensures IsLeftmostExtremum(kind, data, k) <==> k == ExtremumIndex(kind, data)
    ensures IsLeftmostExtremum(kind, data, k) ==> Extremum(kind, data) == data[k]
  {
    if IsLeftmostExtremum(kind, data, k) {
      LeftmostUnique(kind, data, k, ExtremumIndex(kind, data));
    }
  }

  /** Any reference reduction that returns a member no element beats agrees
      with the scan: the extremal value of a sequence is unique. */
  lemma {:induction false} ExtremumMatchesReference(kind: FindType, data: seq<int>, v: int)
    requires |data| > 0
    ensures (v in data && forall j :: 0 <= j < |data| ==> !Beats(kind, data[j], v))
            <==> v == Extremum(kind, data)
  {
    var r := Extremum(kind, data);
    if v in data && forall j :: 0 <= j < |data| ==> !Beats(kind, data[j], v) {
      var i :| 0 <= i < |data| && data[i] == v;
      var k :| 0 <= k < |data| && data[k] == r;
      assert !Beats(kind, data[k], v) && !Beats(kind, data[i], r);
    }
  }

  /** The scan as the processing thread runs it, over the 32-bit elements of
      the mapped channel. */
  method FindExtremum(kind: FindType, data: seq<Int32>) returns (result: Int32)
    requires |data| > 0
    ensures result == Extremum(kind, data)
    ensures result == data[ExtremumIndex(kind, data)]
  {
    result := data[0];
    var i := 1;
    while i < |data|
      invariant 1 <= i <= |data|
      invariant result == Extremum(kind, data[..i])
    {
      assert data[..i + 1][..i] == data[..i];
      if Beats(kind, data[i], result) {
        result := data[i];
      }
      i := i + 1;
    }
    assert data[..i] == data;
  }

  /** The worked example: `3 1 4 1 5 9 2 6` gives 1 for MIN, taken from the
      first of the two ones, and 9 for MAX. */
  lemma {:induction false} WorkedExample()
    ensures Extremum(Min, [3, 1, 4, 1, 5, 9, 2, 6]) == 1
    ensures ExtremumIndex(Min, [3, 1, 4, 1, 5, 9, 2, 6]) == 1
    ensures Extremum(Max, [3, 1, 4, 1, 5, 9, 2, 6]) == 9
  {
    var data := [3, 1, 4, 1, 5, 9, 2, 6];
    assert data[1] == 1 && data[5] == 9;
    assert forall j :: 0 <= j < |data| ==> 1 <= data[j] <= 9;
    ExtremumMatchesReference(Min, data, 1);
    ExtremumMatchesReference(Max, data, 9);
    assert data[0] > data[1];
    ExtremumIsLeftmost(Min, data, 1);
  }
}
