/**
 * The `metric` record of the documentation generator, the byte-wise order on
 * metric names, and `metricList`: a slice of metrics that `sort.Sort`
 * reorders in place through `Len`, `Less` and `Swap`.
 */
module Metrics {

  /** One catalog entry: a metric's name, description and value type. */
  datatype Metric = Metric(name: string, description: string, mType: string)

  /** Go's `<` on strings: byte-wise lexicographic order. Go strings hold
    * UTF-8, whose byte order agrees with the order of code points, so the
    * comparison is made on characters. A name sorts before every longer
    * name it is a prefix of, and never before itself. */
  predicate NameLess(a: string, b: string)
    ensures NameLess(a, b) ==> a != b
    ensures a < b ==> NameLess(a, b)
  {
    if a == [] then b != []
    else if b == [] then false
    else if a[0] != b[0] then a[0] < b[0]
    else NameLess(a[1..], b[1..])
  }

  /** No name sorts before itself. */
  lemma {:induction false} NameLessIrreflexive(a: string)
    ensures !NameLess(a, a)
  {
    if a != [] {
      NameLessIrreflexive(a[1..]);
    }
  }

  /** The order is transitive. */
  lemma {:induction false} NameLessTransitive(a: string, b: string, c: string)
    requires NameLess(a, b) && NameLess(b, c)
    ensures NameLess(a, c)
  {
    if a != [] && b != [] && c != [] && a[0] == b[0] && b[0] == c[0] {
      NameLessTransitive(a[1..], b[1..], c[1..]);
    }
  }

  /** Two names are never each before the other. */
  lemma NameLessAsymmetric(a: string, b: string)
    ensures NameLess(a, b) ==> !NameLess(b, a)
  {
    if NameLess(a, b) && NameLess(b, a) {
      NameLessTransitive(a, b, a);
      NameLessIrreflexive(a);
    }
  }

  /** Two different names are always ordered one way or the other. */
  lemma {:induction false} NameLessTotal(a: string, b: string)
    ensures a == b || NameLess(a, b) || NameLess(b, a)
  {
    if a != [] && b != [] && a[0] == b[0] {
      NameLessTotal(a[1..], b[1..]);
      if a[1..] == b[1..] {
        assert a == [a[0]] + a[1..] && b == [b[0]] + b[1..];
      }
    }
  }

  /** "Not after": the order `sort.Sort` leaves neighbours in. */
  predicate NameLessEq(a: string, b: string)
  {
    !NameLess(b, a)
  }

  /** Not-after is transitive, so sortedness of neighbours carries over. */
  lemma NameLessEqTransitive(a: string, b: string, c: string)
    requires NameLessEq(a, b) && NameLessEq(b, c)
    ensures NameLessEq(a, c)
  {
    NameLessTotal(b, c);
    if NameLess(b, c) && NameLess(c, a) {
      NameLessTransitive(b, c, a);
    }
  }

  /** Every entry's name is not after the name of any entry later in `s`. */
  predicate SortedByName(s: seq<Metric>)
  {
    forall i, j :: 0 <= i < j < |s| ==> NameLessEq(s[i].name, s[j].name)
  }

  /** After one insertion step: the prefix up to `i` without entry `j` is
    * sorted, entry `j` is before every entry after it up to `i`, and not
    * after its left neighbour; so the whole prefix up to `i` is sorted. */
  lemma InsertedSorted(s: seq<Metric>, i: nat, j: nat)
    requires j <= i < |s|
    requires forall k, l :: 0 <= k < l <= i && k != j && l != j ==> NameLessEq(s[k].name, s[l].name)
    requires forall l :: j < l <= i ==> NameLess(s[j].name, s[l].name)
    requires j > 0 ==> NameLessEq(s[j - 1].name, s[j].name)
    ensures SortedByName(s[..i + 1])
  {
    forall k, l | 0 <= k < l <= i
      ensures NameLessEq(s[k].name, s[l].name)
    {
      if l == j {
        if k < j - 1 {
          NameLessEqTransitive(s[k].name, s[j - 1].name, s[j].name);
        }
      } else if k == j {
        NameLessAsymmetric(s[k].name, s[l].name);
      }
    }
  }

  /** The list type `metricList`, a slice over a backing array. Appending
    * through the pointer `*metrics` replaces the backing array; sorting
    * swaps entries of the backing array in place. */
  class MetricList {
    var elems: array<Metric>

    constructor (items: seq<Metric>)
      ensures fresh(elems) && Items() == items
    {
      elems := new Metric[|items|](i requires 0 <= i < |items| => items[i]);
    }

    /** The entries, in order. */
    function Items(): seq<Metric>
      reads this, elems
    {
      elems[..]
    }

    /** `Len` of `sort.Interface`: the number of entries. */
    function Len(): (n: nat)
      reads this, elems
      ensures n == |Items()|
    {
      elems.Length
    }

    /** `Less` of `sort.Interface`: entry `i` sorts before entry `j` by name.
      * It is the strict order `sort.Sort` requires: irreflexive and
      * asymmetric. */
    predicate Less(i: nat, j: nat)
      requires i < elems.Length && j < elems.Length
      reads this, elems
      ensures Less(i, j) ==> i != j && !NameLess(elems[j].name, elems[i].name)
    {
      NameLessIrreflexive(elems[i].name);
      NameLessAsymmetric(elems[i].name, elems[j].name);
      NameLess(elems[i].name, elems[j].name)
    }

    /** `Swap` of `sort.Interface`: exchanges entries `i` and `j` and
      * touches nothing else. */
    method Swap(i: nat, j: nat)
      requires i < elems.Length && j < elems.Length
      modifies elems
      ensures Items() == old(Items())[i := old(elems[j])][j := old(elems[i])]
      ensures multiset(Items()) == old(multiset(Items()))
    {
      elems[i], elems[j] := elems[j], elems[i];
    }

    /** `*metrics = append(*metrics, m)`. */
    method Append(m: Metric)
      modifies this
      ensures fresh(elems)
      ensures Items() == old(Items()) + [m]
    {
      var s := elems[..] + [m];
      elems := new Metric[|s|](i requires 0 <= i < |s| => s[i]);
    }

    /** `sort.Sort(metrics)`, as the insertion sort Go's `sort` package runs
      * on short slices: every step asks `Less` and moves entries only with
      * `Swap`. The entries end sorted by name, as a permutation of the
      * entries before, and an already sorted list is left as it is. */
    method Sort()
      modifies elems
      ensures SortedByName(Items())
      ensures multiset(Items()) == old(multiset(Items()))
      ensures SortedByName(old(Items())) ==> Items() == old(Items())
    {
      var i := 1;
      while i < Len()
        invariant 1 <= i
        invariant i <= Len() || Len() == 0
        invariant SortedByName(Items()[..if i <= Len() then i else Len()])
        invariant multiset(Items()) == old(multiset(Items()))
        invariant SortedByName(old(Items())) ==> Items() == old(Items())
      {
        SinkLast(i);
        i := i + 1;
      }
    }

    /** One pass of the insertion sort: entry `i` moves left, by `Swap`s,
      * past every entry whose name is after its own. */
    method SinkLast(i: nat)
      requires 0 < i < elems.Length
      requires SortedByName(Items()[..i])
      modifies elems
      ensures SortedByName(Items()[..i + 1])
      ensures Items()[i + 1..] == old(Items())[i + 1..]
      ensures multiset(Items()) == old(multiset(Items()))
      ensures SortedByName(old(Items())) ==> Items() == old(Items())
    {
      var j := i;
      while j > 0 && Less(j, j - 1)
        invariant 0 <= j <= i
        invariant forall k, l :: 0 <= k < l <= i && k != j && l != j ==>
          NameLessEq(elems[k].name, elems[l].name)
        invariant forall l :: j < l <= i ==> NameLess(elems[j].name, elems[l].name)
        invariant Items()[i + 1..] == old(Items())[i + 1..]
        invariant multiset(Items()) == old(multiset(Items()))
        invariant SortedByName(old(Items())) ==> Items() == old(Items()) && j == i
      {
        Swap(j, j - 1);
        j := j - 1;
      }
      assert j > 0 ==> !Less(j, j - 1);
      InsertedSorted(elems[..], i, j);
    }
  }
}
