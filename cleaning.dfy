/** The cleaning step: the filter that keeps only well-formed cars, in their
    original order. */
module Cleaning {
  import opened Records

  /** The predicate handed to `data.filter`, conjunct for conjunct. */
  predicate Keep(d: Record) {
    !IsNaN(d.HorsepowerHP) && Greater(d.HorsepowerHP, 0.0) &&
    !IsNaN(d.CityMPG) && Greater(d.CityMPG, 0.0) &&
    !IsNaN(d.RetailPrice) && Greater(d.RetailPrice, 0.0) &&
    Greater(d.EngineSizeL, 0.0) &&
    Greater(d.Cyl, 0.0) &&
    Less(d.CityMPG, 90.0) &&
    Greater(d.HighwayMPG, 0.0)
  }

  /** A record is clean when all six features are numbers, all are
      positive, and the city economy is below 90. */
  predicate WellFormed(d: Record) {
    (forall f :: f in AllFeatures ==> Greater(Field(d, f), 0.0)) && Less(d.CityMPG, 90.0)
  }

  /** The filter's conjuncts say exactly that a record is clean; in
      particular the three NaN tests are implied by the comparisons. */
  lemma KeepIsWellFormed(d: Record)
    ensures Keep(d) <==> WellFormed(d)
  {
    if WellFormed(d) {
      assert Greater(Field(d, Horsepower), 0.0) && Greater(Field(d, CityMpg), 0.0);
      assert Greater(Field(d, Price), 0.0) && Greater(Field(d, EngineSize), 0.0);
      assert Greater(Field(d, Cylinders), 0.0) && Greater(Field(d, HighwayMpg), 0.0);
    }
  }

  /** No record that passes the filter has a NaN feature. */
  lemma KeptHasNoNaN(d: Record, f: Feature)
    requires Keep(d)
    ensures Field(d, f).Some? && Field(d, f).value > 0.0
  {
  }

  /** A cell that does not convert to a number is NaN on the record, and the
      record is dropped. */
  lemma UnconvertibleCellIsDropped(row: RawRow, toNumber: string -> Number, f: Feature)
    requires "Name" in row && "Type" in row
    requires Coerce(row, ColumnName(f), toNumber).None?
    ensures IsNaN(Field(RowConverter(row, toNumber), f))
    ensures !Keep(RowConverter(row, toNumber))
  {
    var d := RowConverter(row, toNumber);
    if Keep(d) {
      KeptHasNoNaN(d, f);
    }
  }

  /** Every record of the sequence passes the filter. */
  predicate Clean(data: seq<Record>) {
    forall i :: 0 <= i < |data| ==> Keep(data[i])
  }

  /** `data.filter(Keep)`: the records that pass, each as often as in the
      input. */
  function Filter(data: seq<Record>): (kept: seq<Record>)
    ensures |kept| <= |data|
    ensures Clean(kept)
  {
    if data == [] then []
    else
      var n := |data| - 1;
      Filter(data[..n]) + (if Keep(data[n]) then [data[n]] else [])
  }

  /** Each record that passes occurs in the result as often as in the input;
      a record that fails does not occur at all. */
  lemma {:induction false} FilterCounts(data: seq<Record>)
    ensures forall d :: multiset(Filter(data))[d] == if Keep(d) then multiset(data)[d] else 0
  {
    if data != [] {
      var n := |data| - 1;
      FilterCounts(data[..n]);
      assert data == data[..n] + [data[n]];
    }
  }

  /** The positions of the records that pass, in increasing order. */
  function KeptIndices(data: seq<Record>): (idx: seq<nat>)
    ensures forall k :: 0 <= k < |idx| ==> idx[k] < |data| && Keep(data[idx[k]])
    ensures forall k, l :: 0 <= k < l < |idx| ==> idx[k] < idx[l]
    ensures forall i :: 0 <= i < |data| && Keep(data[i]) ==> i in idx
  {
    if data == [] then []
    else
      var n := |data| - 1;
      KeptIndices(data[..n]) + (if Keep(data[n]) then [n] else [])
  }

  /** Order is kept: the filtered sequence is the input read at the kept
      positions, so it is a subsequence of the input. */
  lemma {:induction false} FilterKeepsOrder(data: seq<Record>)
    ensures |Filter(data)| == |KeptIndices(data)|
    ensures forall k :: 0 <= k < |Filter(data)| ==> Filter(data)[k] == data[KeptIndices(data)[k]]
  {
    if data != [] {
      var n := |data| - 1;
      var init := data[..n];
      FilterKeepsOrder(init);
      var kept, idx := Filter(init), KeptIndices(init);
      assert Filter(data) == kept + (if Keep(data[n]) then [data[n]] else []);
      assert KeptIndices(data) == idx + (if Keep(data[n]) then [n] else []);
      forall k | 0 <= k < |kept|
        ensures Filter(data)[k] == data[KeptIndices(data)[k]]
      {
        assert Filter(data)[k] == kept[k] == init[idx[k]];
        assert KeptIndices(data)[k] == idx[k];
      }
    }
  }

  /** The filtered sequence is empty exactly when no record passes; then the
      visualisation stops. */
  lemma FilterEmptyIff(data: seq<Record>)
    ensures Filter(data) == [] <==> forall i :: 0 <= i < |data| ==> !Keep(data[i])
  {
    var kept := Filter(data);
    FilterCounts(data);
    if i :| 0 <= i < |data| && Keep(data[i]) {
      assert data[i] in multiset(data);
      assert multiset(kept)[data[i]] > 0;
    }
    if kept != [] {
      assert kept[0] in multiset(kept);
      assert multiset(data)[kept[0]] > 0;
      var i :| 0 <= i < |data| && data[i] == kept[0];
    }
  }

  /** A sequence that is already clean passes the filter unchanged. */
  lemma {:induction false} FilterOfClean(data: seq<Record>)
    requires Clean(data)
    ensures Filter(data) == data
  {
    if data != [] {
      var n := |data| - 1;
      assert Clean(data[..n]) by {
        forall i | 0 <= i < n ensures Keep(data[..n][i]) {
          assert data[..n][i] == data[i];
        }
      }
      FilterOfClean(data[..n]);
      assert Keep(data[n]);
      assert data == data[..n] + [data[n]];
    }
  }

  /** Filtering twice is filtering once. */
  lemma FilterIdempotent(data: seq<Record>)
    ensures Filter(Filter(data)) == Filter(data)
  {
    FilterOfClean(Filter(data));
  }
}
