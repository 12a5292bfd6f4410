// A fixed table of numbered slots, and the map from numbers to values it
// stands for. The mutex table and the condition-variable table are both of this
// kind; which slot holds a number does not show in the map.
module SlotTable {
  import opened Sequences

  datatype Slot<V> = Slot(used: bool, number: int, value: V)

  ghost predicate UniqueNumbers<V>(t: seq<Slot<V>>) {
    forall i, j :: 0 <= i < |t| && 0 <= j < |t| && t[i].used && t[j].used && t[i].number == t[j].number ==> i == j
  }

  ghost predicate Holds<V>(t: seq<Slot<V>>, i: int, n: int) {
    0 <= i < |t| && t[i].used && t[i].number == n
  }

  // m lists exactly what the used slots hold.
  ghost predicate Lists<V>(t: seq<Slot<V>>, m: map<int, V>) {
    && (forall i :: 0 <= i < |t| && t[i].used ==> t[i].number in m && m[t[i].number] == t[i].value)
    && (forall n :: n in m ==> exists i :: Holds(t, i, n))
  }

  lemma {:induction false} SomethingLists<V>(t: seq<Slot<V>>)
    requires UniqueNumbers(t)
    ensures exists m :: Lists(t, m)
  {
    if t == [] {
      var m: map<int, V> := map[];
      assert Lists(t, m);
    } else {
      var k := |t| - 1;
      var u, last := t[..k], t[k];
      SomethingLists(u);
      var m :| Lists(u, m);
      var m' := if last.used then m[last.number := last.value] else m;
      forall n | n in m' ensures exists i :: Holds(t, i, n) {
        if last.used && n == last.number {
          assert Holds(t, k, n);
        } else {
          var i :| Holds(u, i, n);
          assert Holds(t, i, n);
        }
      }
      assert Lists(t, m') by {
        forall i | 0 <= i < |t| && t[i].used ensures t[i].number in m' && m'[t[i].number] == t[i].value {
          assert i < k ==> u[i] == t[i];
        }
      }
    }
  }

  lemma OneLists<V>(t: seq<Slot<V>>, m: map<int, V>, m': map<int, V>)
    requires Lists(t, m) && Lists(t, m')
    ensures m == m'
  {
    forall n ensures n in m <==> n in m' {
      if n in m { var i :| Holds(t, i, n); }
      if n in m' { var i :| Holds(t, i, n); }
    }
    forall n | n in m ensures m[n] == m'[n] {
      var i :| Holds(t, i, n);
    }
  }

  ghost function Contents<V>(t: seq<Slot<V>>): (m: map<int, V>)
    requires UniqueNumbers(t)
    ensures Lists(t, m)
  {
    SomethingLists(t);
    var m :| Lists(t, m);
    m
  }

  // A used slot gets a new value.
  lemma Rewrite<V>(t: seq<Slot<V>>, i: nat, v: V)
    requires UniqueNumbers(t) && i < |t| && t[i].used
    ensures UniqueNumbers(t[i := Slot(true, t[i].number, v)])
    ensures Contents(t[i := Slot(true, t[i].number, v)]) == Contents(t)[t[i].number := v]
  {
    var u, n := t[i := Slot(true, t[i].number, v)], t[i].number;
    var m := Contents(t)[n := v];
    forall x | x in m ensures exists k :: Holds(u, k, x) {
      var k :| Holds(t, k, x);
      assert Holds(u, k, x);
    }
    OneLists(u, Contents(u), m);
  }

  // A free slot is taken for a number that was not there.
  lemma Fill<V>(t: seq<Slot<V>>, i: nat, n: int, v: V)
    requires UniqueNumbers(t) && i < |t| && !t[i].used && n !in Contents(t)
    ensures UniqueNumbers(t[i := Slot(true, n, v)])
    ensures Contents(t[i := Slot(true, n, v)]) == Contents(t)[n := v]
  {
    var u, m := t[i := Slot(true, n, v)], Contents(t)[n := v];
    forall x | x in m ensures exists k :: Holds(u, k, x) {
      if x == n {
        assert Holds(u, i, x);
      } else {
        var k :| Holds(t, k, x);
        assert Holds(u, k, x);
      }
    }
    OneLists(u, Contents(u), m);
  }

  // A used slot becomes free, whatever is left in it.
  lemma Clear<V>(t: seq<Slot<V>>, i: nat, s: Slot<V>)
    requires UniqueNumbers(t) && i < |t| && t[i].used && !s.used
    ensures UniqueNumbers(t[i := s])
    ensures Contents(t[i := s]) == Contents(t) - {t[i].number}
  {
    var u, n, m := t[i := s], t[i].number, Contents(t);
    forall x | x in m - {n} ensures exists k :: Holds(u, k, x) {
      var k :| Holds(t, k, x);
      assert Holds(u, k, x);
    }
    OneLists(u, Contents(u), m - {n});
  }

  // A table that is not full of numbers has a free slot.
  lemma FreeSlot<V>(t: seq<Slot<V>>)
    requires UniqueNumbers(t) && |Contents(t)| < |t|
    ensures exists i :: 0 <= i < |t| && !t[i].used
  {
    if forall i :: 0 <= i < |t| ==> t[i].used {
      var numbers := seq(|t|, i requires 0 <= i < |t| => t[i].number);
      assert |Contents(t)| == |Contents(t).Keys|;
      DistinctFits(numbers, Contents(t).Keys);
    }
  }
}
