/** The delegate reports progress through ONE shared runnable: each progress
    event overwrites the runnable's fields and posts the same runnable again,
    and the runnable reads its fields only when the UI thread runs it. This
    module describes that channel on traces of its two operations and proves
    what a listener can rely on: every delivery reports some earlier write,
    deliveries never go back in time, values may be skipped, and once every
    posted run has happened the latest write has been delivered. */
module ProgressSlot {

  /** One step of the channel: a progress event writes the slot (and posts
      it), or the UI thread runs one posted copy of the slot. */
  datatype SlotOp<P> = Write(value: P) | Fire

  /** The values written, in order. */
  function Writes<P>(ops: seq<SlotOp<P>>): seq<P>
  {
    if ops == [] then []
    else
      var last := ops[|ops| - 1];
      Writes(ops[..|ops| - 1]) + if last.Write? then [last.value] else []
  }

  /** How many posted runs the UI thread has executed. */
  function Fires<P>(ops: seq<SlotOp<P>>): nat
  {
    if ops == [] then 0
    else Fires(ops[..|ops| - 1]) + if ops[|ops| - 1].Fire? then 1 else 0
  }

  /** Every run executes a post that some earlier write made: at no point
      have there been more runs than writes. */
  ghost predicate WellFormed<P>(ops: seq<SlotOp<P>>)
  {
    ops == [] || (WellFormed(ops[..|ops| - 1]) && Fires(ops) <= |Writes(ops)|)
  }

  /** Posts still waiting in the UI queue. */
  function Pending<P>(ops: seq<SlotOp<P>>): nat
    requires WellFormed(ops)
  {
    |Writes(ops)| - Fires(ops)
  }

  /** What the listener receives: each run reports the slot as it is at that
      moment, i.e. the latest value written before the run. */
  function Delivered<P>(ops: seq<SlotOp<P>>): (d: seq<P>)
    requires WellFormed(ops)
    ensures |d| == Fires(ops) <= |Writes(ops)|
  {
    if ops == [] then []
    else
      var init := ops[..|ops| - 1];
      var w := Writes(init);
      Delivered(init) + if ops[|ops| - 1].Fire? then [w[|w| - 1]] else []
  }

  /** For each run, the position (among the writes) of the write it reports.
      Positions never decrease and always name a write that happened. */
  function FiredAt<P>(ops: seq<SlotOp<P>>): (idx: seq<nat>)
    requires WellFormed(ops)
    ensures |idx| == Fires(ops)
    ensures forall k :: 0 <= k < |idx| ==> idx[k] < |Writes(ops)|
    ensures forall j, k :: 0 <= j <= k < |idx| ==> idx[j] <= idx[k]
  {
    if ops == [] then []
    else
      var init := ops[..|ops| - 1];
      FiredAt(init) + if ops[|ops| - 1].Fire? then [|Writes(init)| - 1] else []
  }

  /** The writes of a prefix are a prefix of the writes. */
  lemma {:induction false} WritesOfPrefix<P>(ops: seq<SlotOp<P>>, n: nat)
    requires n <= |ops|
    ensures |Writes(ops[..n])| <= |Writes(ops)|
    ensures Writes(ops[..n]) == Writes(ops)[..|Writes(ops[..n])|]
    decreases |ops|
  {
    if n < |ops| {
      var init := ops[..|ops| - 1];
      assert init[..n] == ops[..n];
      WritesOfPrefix(init, n);
    } else {
      assert ops[..n] == ops;
    }
  }

  /** Every delivered value is the write that FiredAt names: the listener
      sees a sub-sequence of the writes, in the order they were made, with
      repetitions where two runs followed one write. */
  lemma {:induction false} DeliveredInWriteOrder<P>(ops: seq<SlotOp<P>>)
    requires WellFormed(ops)
    ensures |Delivered(ops)| == |FiredAt(ops)|
    ensures forall k :: 0 <= k < |Delivered(ops)| ==> Delivered(ops)[k] == Writes(ops)[FiredAt(ops)[k]]
    decreases |ops|
  {
    if ops != [] {
      var init := ops[..|ops| - 1];
      DeliveredInWriteOrder(init);
      WritesOfPrefix(ops, |ops| - 1);
      var w, wi := Writes(ops), Writes(init);
      forall k | 0 <= k < |Delivered(ops)|
        ensures Delivered(ops)[k] == w[FiredAt(ops)[k]]
      {
        if k < |Delivered(init)| {
          assert Delivered(ops)[k] == Delivered(init)[k];
          assert FiredAt(ops)[k] == FiredAt(init)[k];
          assert wi[FiredAt(init)[k]] == w[FiredAt(init)[k]];
        } else {
          assert FiredAt(ops)[k] == |wi| - 1;
          assert wi[|wi| - 1] == w[|wi| - 1];
        }
      }
    }
  }

  /** Values can be skipped: when a second write lands before the UI thread
      runs the posted copy of the first, that run reports only the second,
      and the first value is never delivered by it. */
  lemma {:induction false} OverwrittenWriteSkipped<P>(ops: seq<SlotOp<P>>, a: P, b: P)
    requires WellFormed(ops)
    ensures WellFormed(ops + [Write(a), Write(b), Fire])
    ensures Delivered(ops + [Write(a), Write(b), Fire]) == Delivered(ops) + [b]
  {
    var o1 := ops + [Write(a)];
    var o2 := o1 + [Write(b)];
    var o3 := o2 + [Fire];
    assert o1[..|o1| - 1] == ops;
    assert o2[..|o2| - 1] == o1;
    assert o3[..|o3| - 1] == o2;
    assert Writes(o1) == Writes(ops) + [a] && Fires(o1) == Fires(ops);
    assert Writes(o2) == Writes(ops) + [a, b] && Fires(o2) == Fires(ops);
    assert Fires(o3) == Fires(ops) + 1;
    assert WellFormed(o1) && WellFormed(o2) && WellFormed(o3);
    assert Delivered(o1) == Delivered(ops) && Delivered(o2) == Delivered(ops);
    assert o3 == ops + [Write(a), Write(b), Fire];
  }

  /** Skipping never reorders: if the writes are strictly increasing in some
      key (a byte count, say), the deliveries are non-decreasing in it. */
  lemma DeliveredNeverGoesBack<P>(ops: seq<SlotOp<P>>, key: P -> int)
    requires WellFormed(ops)
    requires forall i, j :: 0 <= i < j < |Writes(ops)| ==> key(Writes(ops)[i]) < key(Writes(ops)[j])
    ensures forall j, k :: 0 <= j <= k < |Delivered(ops)| ==> key(Delivered(ops)[j]) <= key(Delivered(ops)[k])
  {
    DeliveredInWriteOrder(ops);
    var d, w, idx := Delivered(ops), Writes(ops), FiredAt(ops);
    forall j, k | 0 <= j <= k < |d|
      ensures key(d[j]) <= key(d[k])
    {
      assert d[j] == w[idx[j]] && d[k] == w[idx[k]];
      assert idx[j] <= idx[k];
    }
  }

  /** Once every posted run has been executed, the last delivery reports the
      last write: the final value is never lost. */
  lemma LastWriteDelivered<P>(ops: seq<SlotOp<P>>)
    requires WellFormed(ops) && Pending(ops) == 0 && Writes(ops) != []
    ensures Delivered(ops) != []
    ensures Delivered(ops)[|Delivered(ops)| - 1] == Writes(ops)[|Writes(ops)| - 1]
  {
  }
}
