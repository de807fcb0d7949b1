/** The linear scales derived once from the clean dataset: the scatterplot's
    axes, its price-to-radius map and one radial scale per star-plot feature. */
module Scales {
  import opened Records
  import opened Cleaning

  /** Plot area of the scatterplot: 600 x 500 pixels less the margins
      (left 60, right 30, top 20, bottom 60). */
  const Width: real := 600.0 - 60.0 - 30.0
  const Height: real := 500.0 - 20.0 - 60.0

  /** Radius range of the scatterplot's dots. */
  const MinDot: real := 3.0
  const MaxDot: real := 12.0

  /** Radius of the star plot's reference circle. */
  const StarRadius: real := 100.0

  /** A linear scale from the domain [d0, d1] onto the range [r0, r1]. */
  datatype Linear = Linear(d0: real, d1: real, r0: real, r1: real)

  /** The scale applied to `v`. A collapsed domain (d0 == d1) maps every
      value to the middle of the range. */
  function Apply(s: Linear, v: real): real {
    if s.d0 == s.d1 then (s.r0 + s.r1) / 2.0
    else s.r0 + (v - s.d0) * (s.r1 - s.r0) / (s.d1 - s.d0)
  }

  lemma ApplyEnds(s: Linear)
    requires s.d0 != s.d1
    ensures Apply(s, s.d0) == s.r0 && Apply(s, s.d1) == s.r1
  {
  }

  /** A value inside a proper domain lands inside the range, whichever way
      the range runs. */
  lemma ApplyWithin(s: Linear, v: real)
    requires s.d0 < s.d1 && s.d0 <= v <= s.d1
    ensures s.r0 <= s.r1 ==> s.r0 <= Apply(s, v) <= s.r1
    ensures s.r1 <= s.r0 ==> s.r1 <= Apply(s, v) <= s.r0
  {
    var t := (v - s.d0) / (s.d1 - s.d0);
    UnitFraction(v - s.d0, s.d1 - s.d0);
    var c := s.r1 - s.r0;
    assert Apply(s, v) == s.r0 + t * c;
    if 0.0 <= c {
      FractionOf(t, c);
    } else {
      FractionOf(t, -c);
      assert t * -c == -(t * c);
    }
  }

  /** A part over a whole lies in [0, 1]. */
  lemma UnitFraction(a: real, b: real)
    requires 0.0 <= a <= b && 0.0 < b
    ensures 0.0 <= a / b <= 1.0
  {
    assert a / b * b == a;
  }

  /** A fraction of a non-negative amount lies between nothing and all of it. */
  lemma FractionOf(t: real, c: real)
    requires 0.0 <= t <= 1.0 && 0.0 <= c
    ensures 0.0 <= t * c <= c
  {
    assert (1.0 - t) * c >= 0.0;
  }

  /** Over a proper domain the scale keeps the order of its arguments when
      the range rises. */
  lemma ApplyMonotone(s: Linear, v: real, w: real)
    requires s.d0 < s.d1 && s.r0 <= s.r1 && v <= w
    ensures Apply(s, v) <= Apply(s, w)
  {
    var tv, tw := (v - s.d0) / (s.d1 - s.d0), (w - s.d0) / (s.d1 - s.d0);
    assert tv <= tw;
    assert Apply(s, v) == s.r0 + tv * (s.r1 - s.r0);
    assert Apply(s, w) == s.r0 + tw * (s.r1 - s.r0);
  }

  /** The number a clean record holds for feature `f`. */
  function Value(d: Record, f: Feature): (v: real)
    requires Keep(d)
    ensures Field(d, f) == Some(v) && v > 0.0
  {
    match f
    case Horsepower => d.HorsepowerHP.value
    case CityMpg => d.CityMPG.value
    case HighwayMpg => d.HighwayMPG.value
    case Price => d.RetailPrice.value
    case EngineSize => d.EngineSizeL.value
    case Cylinders => d.Cyl.value
  }

  /** `d3.max(data, d => d[f])` over a non-empty clean dataset. */
  function MaxOf(data: seq<Record>, f: Feature): (m: real)
    requires |data| > 0 && Clean(data)
    ensures forall i :: 0 <= i < |data| ==> Value(data[i], f) <= m
    ensures m > 0.0
  {
    if |data| == 1 then Value(data[0], f)
    else
      var rest := MaxOf(data[1..], f);
      assert forall i :: 1 <= i < |data| ==> data[i] == data[1..][i - 1];
      if Value(data[0], f) >= rest then Value(data[0], f) else rest
  }

  /** The lower end of `d3.extent(data, d => d[f])` over a non-empty clean
      dataset. */
  function MinOf(data: seq<Record>, f: Feature): (m: real)
    requires |data| > 0 && Clean(data)
    ensures forall i :: 0 <= i < |data| ==> m <= Value(data[i], f)
    ensures m > 0.0
  {
    if |data| == 1 then Value(data[0], f)
    else
      var rest := MinOf(data[1..], f);
      assert forall i :: 1 <= i < |data| ==> data[i] == data[1..][i - 1];
      if Value(data[0], f) <= rest then Value(data[0], f) else rest
  }

  /** The maximum is the value of some car. */
  lemma {:induction false} MaxOfAttained(data: seq<Record>, f: Feature)
    requires |data| > 0 && Clean(data)
    ensures exists i :: 0 <= i < |data| && Value(data[i], f) == MaxOf(data, f)
  {
    if |data| == 1 {
      assert Value(data[0], f) == MaxOf(data, f);
    } else {
      var rest := data[1..];
      assert Clean(rest) by {
        forall i | 0 <= i < |rest| ensures Keep(rest[i]) {
          assert rest[i] == data[i + 1];
        }
      }
      MaxOfAttained(rest, f);
      var j :| 0 <= j < |rest| && Value(rest[j], f) == MaxOf(rest, f);
      assert rest[j] == data[j + 1];
      if Value(data[0], f) >= MaxOf(rest, f) {
        assert Value(data[0], f) == MaxOf(data, f);
      } else {
        assert Value(data[j + 1], f) == MaxOf(data, f);
      }
    }
  }

  /** The minimum is the value of some car. */
  lemma {:induction false} MinOfAttained(data: seq<Record>, f: Feature)
    requires |data| > 0 && Clean(data)
    ensures exists i :: 0 <= i < |data| && Value(data[i], f) == MinOf(data, f)
  {
    if |data| == 1 {
      assert Value(data[0], f) == MinOf(data, f);
    } else {
      var rest := data[1..];
      assert Clean(rest) by {
        forall i | 0 <= i < |rest| ensures Keep(rest[i]) {
          assert rest[i] == data[i + 1];
        }
      }
      MinOfAttained(rest, f);
      var j :| 0 <= j < |rest| && Value(rest[j], f) == MinOf(rest, f);
      assert rest[j] == data[j + 1];
      if Value(data[0], f) <= MinOf(rest, f) {
        assert Value(data[0], f) == MinOf(data, f);
      } else {
        assert Value(data[j + 1], f) == MinOf(data, f);
      }
    }
  }

  /** `x`: horsepower from 0 to its maximum across the plot's width. */
  function XScale(data: seq<Record>): Linear
    requires |data| > 0 && Clean(data)
  {
    Linear(0.0, MaxOf(data, Horsepower), 0.0, Width)
  }

  /** `y`: city economy from 0 to its maximum, drawn upwards, so 0 sits at
      the bottom of the plot. */
  function YScale(data: seq<Record>): Linear
    requires |data| > 0 && Clean(data)
  {
    Linear(0.0, MaxOf(data, CityMpg), Height, 0.0)
  }

  /** `size`: the price extent onto the dot radii 3 to 12. */
  function SizeScale(data: seq<Record>): Linear
    requires |data| > 0 && Clean(data)
  {
    Linear(MinOf(data, Price), MaxOf(data, Price), MinDot, MaxDot)
  }

  /** `featureScales[f]`: feature `f` from 0 to its maximum onto the star
      plot's radius. */
  function FeatureScale(data: seq<Record>, f: Feature): Linear
    requires |data| > 0 && Clean(data)
  {
    Linear(0.0, MaxOf(data, f), 0.0, StarRadius)
  }

  /** The x axis starts at the left edge, its maximum is the right edge and
      every dot lies across the plot's width. */
  lemma XScaleAnchors(data: seq<Record>)
    requires |data| > 0 && Clean(data)
    ensures Apply(XScale(data), 0.0) == 0.0
    ensures Apply(XScale(data), MaxOf(data, Horsepower)) == Width
    ensures forall i :: 0 <= i < |data| ==> 0.0 <= Apply(XScale(data), Value(data[i], Horsepower)) <= Width
  {
    ApplyEnds(XScale(data));
    forall i | 0 <= i < |data|
      ensures 0.0 <= Apply(XScale(data), Value(data[i], Horsepower)) <= Width
    {
      ApplyWithin(XScale(data), Value(data[i], Horsepower));
    }
  }

  /** The y axis puts 0 at the bottom, its maximum at the top and every dot
      within the plot's height. */
  lemma YScaleAnchors(data: seq<Record>)
    requires |data| > 0 && Clean(data)
    ensures Apply(YScale(data), 0.0) == Height
    ensures Apply(YScale(data), MaxOf(data, CityMpg)) == 0.0
    ensures forall i :: 0 <= i < |data| ==> 0.0 <= Apply(YScale(data), Value(data[i], CityMpg)) <= Height
  {
    ApplyEnds(YScale(data));
    forall i | 0 <= i < |data|
      ensures 0.0 <= Apply(YScale(data), Value(data[i], CityMpg)) <= Height
    {
      ApplyWithin(YScale(data), Value(data[i], CityMpg));
    }
  }

  /** The cheapest car gets radius 3 and the dearest radius 12 when their
      prices differ; when all prices are equal every dot gets the middle
      radius 7.5. */
  lemma SizeScaleAnchors(data: seq<Record>)
    requires |data| > 0 && Clean(data)
    ensures MinOf(data, Price) < MaxOf(data, Price) ==>
      Apply(SizeScale(data), MinOf(data, Price)) == MinDot &&
      Apply(SizeScale(data), MaxOf(data, Price)) == MaxDot
    ensures MinOf(data, Price) == MaxOf(data, Price) ==>
      forall v :: Apply(SizeScale(data), v) == 7.5
  {
    var s := SizeScale(data);
    assert MinOf(data, Price) <= Value(data[0], Price) <= MaxOf(data, Price);
    if s.d0 < s.d1 {
      ApplyEnds(s);
    }
  }

  /** The dot of the `i`-th car has a radius in [3, 12]. */
  lemma SizeRadiusWithin(data: seq<Record>, i: nat)
    requires |data| > 0 && Clean(data) && i < |data|
    ensures MinDot <= Apply(SizeScale(data), Value(data[i], Price)) <= MaxDot
  {
    var s := SizeScale(data);
    if s.d0 < s.d1 {
      ApplyWithin(s, Value(data[i], Price));
    }
  }

  /** Every dot's radius lies in [3, 12], and a dearer car never gets a
      smaller dot. */
  lemma SizeScaleBounds(data: seq<Record>)
    requires |data| > 0 && Clean(data)
    ensures forall i :: 0 <= i < |data| ==> MinDot <= Apply(SizeScale(data), Value(data[i], Price)) <= MaxDot
    ensures forall i, j :: 0 <= i < |data| && 0 <= j < |data| && Value(data[i], Price) <= Value(data[j], Price) ==>
      Apply(SizeScale(data), Value(data[i], Price)) <= Apply(SizeScale(data), Value(data[j], Price))
  {
    var s := SizeScale(data);
    forall i | 0 <= i < |data|
      ensures MinDot <= Apply(s, Value(data[i], Price)) <= MaxDot
    {
      SizeRadiusWithin(data, i);
    }
    forall i, j | 0 <= i < |data| && 0 <= j < |data| && Value(data[i], Price) <= Value(data[j], Price)
      ensures Apply(s, Value(data[i], Price)) <= Apply(s, Value(data[j], Price))
    {
      if s.d0 < s.d1 {
        ApplyMonotone(s, Value(data[i], Price), Value(data[j], Price));
      }
    }
  }

  /** The `i`-th car's value of `f` lands in (0, 100] on its radial scale. */
  lemma FeatureRadiusWithin(data: seq<Record>, f: Feature, i: nat)
    requires |data| > 0 && Clean(data) && i < |data|
    ensures 0.0 < Apply(FeatureScale(data, f), Value(data[i], f)) <= StarRadius
  {
    var s, v := FeatureScale(data, f), Value(data[i], f);
    ApplyWithin(s, v);
    var m := MaxOf(data, f);
    assert Apply(s, v) == v * StarRadius / m;
    assert v * StarRadius > 0.0;
  }

  /** Each radial scale maps 0 to the centre and the feature's maximum to the
      reference circle; every car's value lands in (0, 100]. */
  lemma FeatureScaleAnchors(data: seq<Record>, f: Feature)
    requires |data| > 0 && Clean(data)
    ensures Apply(FeatureScale(data, f), 0.0) == 0.0
    ensures Apply(FeatureScale(data, f), MaxOf(data, f)) == StarRadius
    ensures forall i :: 0 <= i < |data| ==> 0.0 < Apply(FeatureScale(data, f), Value(data[i], f)) <= StarRadius
  {
    ApplyEnds(FeatureScale(data, f));
    forall i | 0 <= i < |data|
      ensures 0.0 < Apply(FeatureScale(data, f), Value(data[i], f)) <= StarRadius
    {
      FeatureRadiusWithin(data, f, i);
    }
  }

  /** The `features.forEach` loop that fills the `featureScales` dictionary:
      one entry per listed feature, each the feature's radial scale. */
  method BuildFeatureScales(data: seq<Record>) returns (scales: map<Feature, Linear>)
    requires |data| > 0 && Clean(data)
    ensures scales.Keys == AllFeatures
    ensures forall f :: f in scales ==> scales[f] == FeatureScale(data, f)
  {
    scales := map[];
    for i := 0 to |Features|
      invariant scales.Keys == set f | f in Features[..i]
      invariant forall f :: f in scales ==> scales[f] == FeatureScale(data, f)
    {
      scales := scales[Features[i] := FeatureScale(data, Features[i])];
    }
    assert Features[..|Features|] == Features;
  }
}
