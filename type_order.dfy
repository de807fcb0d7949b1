/** The list of distinct car types that keys the colour palette and the
    legend: `[...new Set(types)].sort()`. */
module TypeOrder {
  import opened Records

  /** The order of JavaScript's default `sort` on strings: character by
      character, a proper prefix first. */
  predicate Before(a: string, b: string) {
    if a == [] then b != []
    else if b == [] then false
    else a[0] < b[0] || (a[0] == b[0] && Before(a[1..], b[1..]))
  }

  lemma {:induction false} BeforeIrreflexive(a: string)
    ensures !Before(a, a)
  {
    if a != [] {
      BeforeIrreflexive(a[1..]);
    }
  }

  lemma {:induction false} BeforeAsymmetric(a: string, b: string)
    requires Before(a, b)
    ensures !Before(b, a)
  {
    if a != [] && b != [] && a[0] == b[0] {
      BeforeAsymmetric(a[1..], b[1..]);
    }
  }

  lemma {:induction false} BeforeTransitive(a: string, b: string, c: string)
    requires Before(a, b) && Before(b, c)
    ensures Before(a, c)
  {
    if a != [] && a[0] == b[0] && b[0] == c[0] {
      BeforeTransitive(a[1..], b[1..], c[1..]);
    }
  }

  lemma {:induction false} BeforeTotal(a: string, b: string)
    requires a != b
    ensures Before(a, b) || Before(b, a)
  {
    if a != [] && b != [] && a[0] == b[0] {
      assert a == [a[0]] + a[1..] && b == [b[0]] + b[1..];
      BeforeTotal(a[1..], b[1..]);
    }
  }

  /** Strictly ascending in the sort order, hence free of duplicates. */
  predicate Ascending(s: seq<string>) {
    forall i, j :: 0 <= i < j < |s| ==> Before(s[i], s[j])
  }

  /** `[...new Set(s)]`: each string once, at its first occurrence. */
  function Distinct(s: seq<string>): (r: seq<string>)
    ensures forall x :: x in r <==> x in s
    ensures forall i, j :: 0 <= i < j < |r| ==> r[i] != r[j]
  {
    if s == [] then []
    else
      var n := |s| - 1;
      var init := Distinct(s[..n]);
      assert s == s[..n] + [s[n]];
      if s[n] in init then init else init + [s[n]]
  }

  /** Inserts `x` in front of the first element it sorts before. */
  function Insert(x: string, s: seq<string>): (r: seq<string>)
    ensures multiset(r) == multiset(s) + multiset{x}
  {
    if s == [] then [x]
    else if Before(x, s[0]) then [x] + s
    else
      assert s == [s[0]] + s[1..];
      [s[0]] + Insert(x, s[1..])
  }

  /** Insertion sort on the default order. */
  function Sort(s: seq<string>): (r: seq<string>)
    ensures multiset(r) == multiset(s)
  {
    if s == [] then []
    else
      assert s == [s[0]] + s[1..];
      Insert(s[0], Sort(s[1..]))
  }

  lemma {:induction false} InsertAscending(x: string, s: seq<string>)
    requires Ascending(s) && x !in s
    ensures Ascending(Insert(x, s))
  {
    if s != [] && !Before(x, s[0]) {
      BeforeTotal(x, s[0]);
      var tail := s[1..];
      InsertAscending(x, tail);
      var r := Insert(x, tail);
      forall y | y in r
        ensures Before(s[0], y)
      {
        assert y in multiset(r);
        if y != x {
          var j :| 0 <= j < |tail| && tail[j] == y;
          assert s[j + 1] == y;
        }
      }
    } else if s != [] {
      forall j | 0 <= j < |s|
        ensures Before(x, s[j])
      {
        if j > 0 {
          BeforeTransitive(x, s[0], s[j]);
        }
      }
    }
  }

  /** Sorting strings without duplicates gives a strictly ascending list. */
  lemma {:induction false} SortAscending(s: seq<string>)
    requires forall i, j :: 0 <= i < j < |s| ==> s[i] != s[j]
    ensures Ascending(Sort(s))
  {
    if s != [] {
      SortAscending(s[1..]);
      assert s[0] !in multiset(s[1..]);
      assert s[0] !in Sort(s[1..]) by {
        assert multiset(Sort(s[1..])) == multiset(s[1..]);
      }
      InsertAscending(s[0], Sort(s[1..]));
    }
  }

  /** Two strictly ascending lists holding the same strings are one list. */
  lemma {:induction false} AscendingUnique(s: seq<string>, t: seq<string>)
    requires Ascending(s) && Ascending(t)
    requires forall x :: x in s <==> x in t
    ensures s == t
  {
    assert s != [] ==> s[0] in t;
    assert t != [] ==> t[0] in s;
    if s != [] && t != [] {
      if s[0] != t[0] {
        var i :| 0 <= i < |t| && t[i] == s[0];
        var j :| 0 <= j < |s| && s[j] == t[0];
        assert Before(t[0], s[0]) && Before(s[0], t[0]);
        BeforeAsymmetric(t[0], s[0]);
      }
      assert s == [s[0]] + s[1..] && t == [t[0]] + t[1..];
      forall x
        ensures x in s[1..] <==> x in t[1..]
      {
        if x in s[1..] {
          var i :| 1 <= i < |s| && s[i] == x;
          assert Before(s[0], s[i]);
          BeforeIrreflexive(x);
          assert x in s && x in t && x != t[0];
        }
        if x in t[1..] {
          var i :| 1 <= i < |t| && t[i] == x;
          assert Before(t[0], t[i]);
          BeforeIrreflexive(x);
          assert x in t && x in s && x != s[0];
        }
      }
      AscendingUnique(s[1..], t[1..]);
    }
  }

  /** `[...new Set(types)].sort()`. */
  function SortedDistinct(types: seq<string>): seq<string> {
    Sort(Distinct(types))
  }

  /** The sorted distinct list is strictly ascending and holds exactly the
      given strings. */
  lemma SortedDistinctSpec(types: seq<string>)
    ensures Ascending(SortedDistinct(types))
    ensures forall x :: x in SortedDistinct(types) <==> x in types
  {
    SortAscending(Distinct(types));
    forall x
      ensures x in SortedDistinct(types) <==> x in types
    {
      assert x in SortedDistinct(types) <==> x in multiset(Distinct(types));
    }
  }

  /** `cleanData.map(d => d.Type)`. */
  function TypesOf(data: seq<Record>): (types: seq<string>)
    ensures |types| == |data|
    ensures forall i :: 0 <= i < |data| ==> types[i] == data[i].Type
  {
    if data == [] then [] else [data[0].Type] + TypesOf(data[1..])
  }

  /** `uniqueTypes`. */
  function UniqueTypes(data: seq<Record>): seq<string> {
    SortedDistinct(TypesOf(data))
  }

  /** `uniqueTypes` is strictly ascending and holds exactly the types of the
      dataset. */
  lemma UniqueTypesSpec(data: seq<Record>)
    ensures Ascending(UniqueTypes(data))
    ensures forall t :: t in UniqueTypes(data) <==> exists i :: 0 <= i < |data| && data[i].Type == t
  {
    SortedDistinctSpec(TypesOf(data));
  }

  /** Reordering the dataset leaves `uniqueTypes`, and with it the legend and
      every type's colour, unchanged. */
  lemma UniqueTypesPermutation(a: seq<Record>, b: seq<Record>)
    requires multiset(a) == multiset(b)
    ensures UniqueTypes(a) == UniqueTypes(b)
  {
    UniqueTypesSpec(a);
    UniqueTypesSpec(b);
    forall t
      ensures t in UniqueTypes(a) <==> t in UniqueTypes(b)
    {
      if i :| 0 <= i < |a| && a[i].Type == t {
        assert a[i] in multiset(b);
        var j :| 0 <= j < |b| && b[j] == a[i];
      }
      if j :| 0 <= j < |b| && b[j].Type == t {
        assert b[j] in multiset(a);
        var i :| 0 <= i < |a| && a[i] == b[j];
      }
    }
    AscendingUnique(UniqueTypes(a), UniqueTypes(b));
  }

  /** The palette slot of a type: its position in `uniqueTypes`. */
  function ColorSlot(types: seq<string>, t: string): (k: nat)
    requires t in types
    ensures k < |types| && types[k] == t
  {
    if types[0] == t then 0 else 1 + ColorSlot(types[1..], t)
  }

  /** Legend row `k` shows type `types[k]` in palette slot `k`, the slot every
      dot of that type is filled with. */
  lemma ColorSlotOfLegendRow(types: seq<string>, k: nat)
    requires Ascending(types) && k < |types|
    ensures ColorSlot(types, types[k]) == k
  {
    var j := ColorSlot(types, types[k]);
    if j < k {
      BeforeIrreflexive(types[k]);
    } else if k < j {
      BeforeIrreflexive(types[k]);
    }
  }

  /** Distinct types never share a palette slot. */
  lemma ColorSlotInjective(types: seq<string>, t: string, u: string)
    requires t in types && u in types && t != u
    ensures ColorSlot(types, t) != ColorSlot(types, u)
  {
  }

  lemma LegendExampleAscending()
    ensures Ascending(["SUV", "Sedan", "Truck"])
  {
    assert Before("UV", "edan");
    assert Before("SUV", "Sedan");
    assert Before("Sedan", "Truck");
    assert Before("SUV", "Truck");
  }

  /** A worked case: the types "Sedan", "Sedan", "SUV", "Truck" are keyed
      as "SUV", "Sedan", "Truck". */
  lemma LegendExample()
    ensures SortedDistinct(["Sedan", "Sedan", "SUV", "Truck"]) == ["SUV", "Sedan", "Truck"]
  {
    var types := ["Sedan", "Sedan", "SUV", "Truck"];
    var legend := ["SUV", "Sedan", "Truck"];
    SortedDistinctSpec(types);
    LegendExampleAscending();
    forall x
      ensures x in SortedDistinct(types) <==> x in legend
    {
      assert x in types <==> x in legend;
    }
    AscendingUnique(SortedDistinct(types), legend);
  }
}
