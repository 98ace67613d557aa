/** Order-preserving selection: the marked positions of a sequence, in
    increasing order.  The engine keeps the slots given at least half a penny
    this way, and the candidate list keeps the sources with usable capacity. */
module Selection {

  /** `ks` lists, in increasing order, exactly the marked positions. */
  predicate Lists(marks: seq<bool>, ks: seq<nat>) {
    OnlyKept(marks, ks) && Increasing(ks) && AllKept(marks, ks)
  }

  predicate OnlyKept(marks: seq<bool>, ks: seq<nat>) {
    forall j :: 0 <= j < |ks| ==> ks[j] < |marks| && marks[ks[j]]
  }

  predicate Increasing(ks: seq<nat>) {
    forall j, l :: 0 <= j < l < |ks| ==> ks[j] < ks[l]
  }

  predicate AllKept(marks: seq<bool>, ks: seq<nat>) {
    forall i :: 0 <= i < |marks| && marks[i] ==> i in ks
  }

  /** The marked positions. */
  function Positions(marks: seq<bool>): (ks: seq<nat>)
    ensures Lists(marks, ks) && |ks| <= |marks|
  {
    if |marks| == 0 then []
    else
      var rest := Positions(marks[1..]);
      PositionsStep(marks, rest);
      (if marks[0] then [0] else []) + Successors(rest)
  }

  function Successors(ks: seq<nat>): (r: seq<nat>)
    ensures |r| == |ks| && forall j :: 0 <= j < |ks| ==> r[j] == ks[j] + 1
  {
    seq(|ks|, j requires 0 <= j < |ks| => ks[j] + 1)
  }

  lemma PositionsStep(marks: seq<bool>, rest: seq<nat>)
    requires |marks| > 0 && Lists(marks[1..], rest)
    ensures Lists(marks, (if marks[0] then [0] else []) + Successors(rest))
  {
    ShiftedKept(marks, rest);
    ShiftedOrder(marks[0], rest);
    ShiftedComplete(marks, rest);
  }

  lemma ShiftedOrder(first: bool, rest: seq<nat>)
    requires Increasing(rest)
    ensures Increasing((if first then [0] else []) + Successors(rest))
  {
    var pre, shifted := if first then [0] else [], Successors(rest);
    var ks := pre + shifted;
    forall j, l | 0 <= j < l < |ks|
      ensures ks[j] < ks[l]
    {
      assert ks[l] == shifted[l - |pre|];
      if j >= |pre| {
        assert ks[j] == shifted[j - |pre|];
      }
    }
  }

  lemma ShiftedKept(marks: seq<bool>, rest: seq<nat>)
    requires |marks| > 0 && Lists(marks[1..], rest)
    ensures OnlyKept(marks, (if marks[0] then [0] else []) + Successors(rest))
  {
    var pre, shifted := if marks[0] then [0] else [], Successors(rest);
    var ks := pre + shifted;
    forall j | 0 <= j < |ks|
      ensures ks[j] < |marks| && marks[ks[j]]
    {
      if j >= |pre| {
        var k := rest[j - |pre|];
        assert ks[j] == shifted[j - |pre|] == k + 1;
        assert marks[1..][k] == marks[k + 1];
      }
    }
  }

  lemma ShiftedComplete(marks: seq<bool>, rest: seq<nat>)
    requires |marks| > 0 && Lists(marks[1..], rest)
    ensures AllKept(marks, (if marks[0] then [0] else []) + Successors(rest))
  {
    var pre, shifted := if marks[0] then [0] else [], Successors(rest);
    var ks := pre + shifted;
    forall i | 0 <= i < |marks| && marks[i]
      ensures i in ks
    {
      if i == 0 {
        assert ks[0] == 0;
      } else {
        assert marks[1..][i - 1] == marks[i];
        var j :| 0 <= j < |rest| && rest[j] == i - 1;
        assert ks[|pre| + j] == shifted[j] == i;
      }
    }
  }
}
