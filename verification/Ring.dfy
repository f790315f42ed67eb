/** The index arithmetic of a single-producer, single-consumer ring that keeps one slot free. */
module Ring {

  datatype Ring<T> = Ring(head: nat, tail: nat, slots: seq<T>) {

    /** `% CANBUS_BUFFER_LEN` on indices, for a buffer of at least two and at most 255 slots. */
    ghost predicate Valid() {
      2 <= |slots| <= 255 && head < |slots| && tail < |slots|
    }

    function Next(i: nat): (n: nat)
      requires i < |slots|
      ensures n == if i + 1 == |slots| then 0 else i + 1
    {
      (i + 1) % |slots|
    }

    function Count(): nat
      requires Valid()
    {
      if tail <= head then head - tail else head + |slots| - tail
    }

    function Slot(k: nat): nat
      requires Valid() && k < |slots|
    {
      if tail + k < |slots| then tail + k else tail + k - |slots|
    }

    /** The queued items, oldest first. */
    function Contents(): (c: seq<T>)
      requires Valid()
      ensures |c| == Count() < |slots|
      ensures forall k :: 0 <= k < |c| ==> c[k] == slots[Slot(k)]
    {
      seq(Count(), k requires 0 <= k < Count() => slots[Slot(k)])
    }

    predicate Full()
      requires Valid()
    {
      Next(head) == tail
    }

    function Push(x: T): Ring<T>
      requires Valid()
    {
      Ring(Next(head), tail, slots[head := x])
    }

    function Drop(): Ring<T>
      requires Valid()
    {
      Ring(head, Next(tail), slots)
    }

    /** The full test fails exactly when all slots but one are taken. */
    lemma FullIsCount()
      requires Valid()
      ensures Full() <==> Count() == |slots| - 1
      ensures head == tail <==> Count() == 0
    {
    }

    lemma PushAppends(x: T)
      requires Valid() && !Full()
      ensures Push(x).Valid() && Push(x).Contents() == Contents() + [x]
    {
      var r := Push(x);
      assert r.Count() == Count() + 1;
      forall k | 0 <= k < Count()
        ensures r.Contents()[k] == Contents()[k]
      {
        assert Slot(k) != head;
      }
      assert Slot(Count()) == head;
    }

    lemma DropRemoves()
      requires Valid() && head != tail
      ensures Drop().Valid() && Contents() == [slots[tail]] + Drop().Contents()
    {
      var r := Drop();
      assert r.Count() == Count() - 1;
      forall k | 0 < k < Count()
        ensures Contents()[k] == r.Contents()[k - 1]
      {
        assert Slot(k) == r.Slot(k - 1);
      }
    }
  }
}
