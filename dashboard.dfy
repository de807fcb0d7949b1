/** The interactive part: what is derived once the data has loaded, the
    scatterplot's dots, and the click that selects one car and redraws the
    details panel and the star plot for it. */
module Dashboard {
  import opened Records
  import opened Cleaning
  import opened Scales
  import opened TypeOrder

  /** Everything derived once from the clean dataset. */
  datatype Scene = Scene(
    clean: seq<Record>,
    x: Linear,
    y: Linear,
    size: Linear,
    types: seq<string>,
    featureScales: map<Feature, Linear>)

  /** The scene was built from its own clean dataset. */
  predicate Derived(s: Scene) {
    && Ready(s)
    && s.x == XScale(s.clean)
    && s.y == YScale(s.clean)
    && s.size == SizeScale(s.clean)
    && s.types == UniqueTypes(s.clean)
    && s.featureScales.Keys == AllFeatures
    && forall f :: f in s.featureScales ==> s.featureScales[f] == FeatureScale(s.clean, f)
  }

  /** What the interactive part relies on: a non-empty clean dataset and a
      radial scale for every feature. */
  predicate Ready(s: Scene) {
    |s.clean| > 0 && Clean(s.clean) && AllFeatures <= s.featureScales.Keys
  }

  /** The load callback up to the drawing: filter; stop on an empty result;
      otherwise build every scale. */
  method Setup(data: seq<Record>) returns (scene: Option<Scene>)
    ensures scene.None? <==> forall i :: 0 <= i < |data| ==> !Keep(data[i])
    ensures scene.Some? ==> Derived(scene.value) && scene.value.clean == Filter(data)
  {
    var clean := Filter(data);
    FilterEmptyIff(data);
    if |clean| == 0 {
      return None;
    }
    var featureScales := BuildFeatureScales(clean);
    scene := Some(Scene(clean, XScale(clean), YScale(clean), SizeScale(clean), UniqueTypes(clean), featureScales));
  }

  /** One dot of the scatterplot: centre, radius and palette slot. */
  datatype Dot = Dot(cx: real, cy: real, r: real, slot: nat)

  /** The dot of the `i`-th clean car. It lies in the plot area, its radius
      is in [3, 12], and it is filled with the palette slot of its own type. */
  function DotOf(s: Scene, i: nat): (dot: Dot)
    requires Derived(s) && i < |s.clean|
    ensures 0.0 <= dot.cx <= Width && 0.0 <= dot.cy <= Height
    ensures MinDot <= dot.r <= MaxDot
    ensures dot.slot < |s.types| && s.types[dot.slot] == s.clean[i].Type
  {
    var d := s.clean[i];
    ApplyWithin(s.x, Value(d, Horsepower));
    ApplyWithin(s.y, Value(d, CityMpg));
    SizeRadiusWithin(s.clean, i);
    UniqueTypesSpec(s.clean);
    Dot(
      Apply(s.x, Value(d, Horsepower)),
      Apply(s.y, Value(d, CityMpg)),
      Apply(s.size, Value(d, Price)),
      ColorSlot(s.types, d.Type))
  }

  /** The dots, one per clean car in dataset order: every one lies in the
      plot area, has a radius in [3, 12] and carries its own car's type. */
  function Dots(s: Scene): (dots: seq<Dot>)
    requires Derived(s)
    ensures |dots| == |s.clean|
    ensures forall i :: 0 <= i < |dots| ==>
      && 0.0 <= dots[i].cx <= Width && 0.0 <= dots[i].cy <= Height
      && MinDot <= dots[i].r <= MaxDot
      && dots[i].slot < |s.types| && s.types[dots[i].slot] == s.clean[i].Type
  {
    seq(|s.clean|, i requires 0 <= i < |s.clean| => DotOf(s, i))
  }

  /** The radius of feature `f`'s vertex for car `d`:
      `featureScales[f](d[f])`. */
  function Radius(d: Record, scales: map<Feature, Linear>, f: Feature): real
    requires Keep(d) && f in scales
  {
    Apply(scales[f], Value(d, f))
  }

  /** A vertex of the star plot: the axis it lies on and its distance from
      the centre. */
  datatype Vertex = Vertex(axis: nat, radius: real)

  /** The closed outline of the star plot: one vertex per feature, axis by
      axis, then the first vertex again. */
  function StarPath(d: Record, scales: map<Feature, Linear>): seq<Vertex>
    requires Keep(d) && AllFeatures <= scales.Keys
  {
    var open := seq(|Features|, i requires 0 <= i < |Features| => Vertex(i, Radius(d, scales, Features[i])));
    open + [open[0]]
  }

  /** The outline has seven vertices, its last repeats its first, and vertex
      `i` lies on axis `i` at the scaled value of feature `i`. */
  lemma StarPathShape(d: Record, scales: map<Feature, Linear>)
    requires Keep(d) && AllFeatures <= scales.Keys
    ensures |StarPath(d, scales)| == |Features| + 1 == 7
    ensures StarPath(d, scales)[|Features|] == StarPath(d, scales)[0]
    ensures forall i :: 0 <= i < |Features| ==>
      StarPath(d, scales)[i] == Vertex(i, Apply(scales[Features[i]], Value(d, Features[i])))
  {
  }

  /** Vertex `k` of a clean car's outline lies strictly outside the centre
      and at most on the reference circle. */
  lemma VertexInCircle(s: Scene, n: nat, k: nat)
    requires Ready(s) && n < |s.clean| && k <= |Features|
    requires forall f :: f in s.featureScales ==> s.featureScales[f] == FeatureScale(s.clean, f)
    ensures 0.0 < StarPath(s.clean[n], s.featureScales)[k].radius <= StarRadius
  {
    var d, scales := s.clean[n], s.featureScales;
    var j := if k < |Features| then k else 0;
    var f := Features[j];
    assert StarPath(d, scales)[k] == Vertex(j, Radius(d, scales, f));
    assert scales[f] == FeatureScale(s.clean, f);
    FeatureRadiusWithin(s.clean, f, n);
  }

  /** For a car of the clean dataset every vertex lies strictly outside the
      centre and at most on the reference circle. */
  lemma StarPathInCircle(s: Scene, n: nat)
    requires Ready(s) && n < |s.clean|
    requires forall f :: f in s.featureScales ==> s.featureScales[f] == FeatureScale(s.clean, f)
    ensures forall k :: 0 <= k < |StarPath(s.clean[n], s.featureScales)| ==>
      0.0 < StarPath(s.clean[n], s.featureScales)[k].radius <= StarRadius
  {
    StarPathShape(s.clean[n], s.featureScales);
    forall k | 0 <= k < |StarPath(s.clean[n], s.featureScales)|
      ensures 0.0 < StarPath(s.clean[n], s.featureScales)[k].radius <= StarRadius
    {
      VertexInCircle(s, n, k);
    }
  }

  /** The details panel: which car its text describes, and whether the hint
      beside it has been hidden. */
  class DetailsPanel {
    var shown: Option<Record>
    var hintHidden: bool

    constructor ()
      ensures shown == None && !hintHidden
    {
      shown := None;
      hintHidden := false;
    }

    /** `updateDetails`: describe `d` and hide the hint. */
    method Update(d: Record)
      modifies this
      ensures shown == Some(d) && hintHidden
    {
      shown := Some(d);
      hintHidden := true;
    }
  }

  /** The star plot's drawing area: the axes, the labels and the outline
      currently drawn in it. */
  class StarPlotArea {
    var axes: seq<nat>
    var labels: seq<string>
    var path: seq<Vertex>

    constructor ()
      ensures IsEmpty()
    {
      axes, labels, path := [], [], [];
    }

    predicate IsEmpty()
      reads this
    {
      axes == [] && labels == [] && path == []
    }

    /** What the area holds after drawing car `d`: six axes in feature order,
        each labelled with its feature's name, and the outline of `d`. */
    predicate Shows(d: Record, scales: map<Feature, Linear>)
      reads this
      requires Keep(d) && AllFeatures <= scales.Keys
    {
      && |axes| == |Features| && (forall i :: 0 <= i < |axes| ==> axes[i] == i)
      && |labels| == |Features| && (forall i :: 0 <= i < |labels| ==> labels[i] == FeatureName(Features[i]))
      && path == StarPath(d, scales)
    }

    /** `drawStarPlot`: clear the area, then per feature draw its axis and
        label and compute its vertex, then close the outline. */
    method Draw(d: Record, scales: map<Feature, Linear>)
      requires Keep(d) && AllFeatures <= scales.Keys
      modifies this
      ensures Shows(d, scales)
    {
      axes, labels, path := [], [], [];
      var lineData: seq<Vertex> := [];
      for i := 0 to |Features|
        invariant |axes| == i && forall k :: 0 <= k < i ==> axes[k] == k
        invariant |labels| == i && forall k :: 0 <= k < i ==> labels[k] == FeatureName(Features[k])
        invariant |lineData| == i && forall k :: 0 <= k < i ==> lineData[k] == Vertex(k, Radius(d, scales, Features[k]))
      {
        var f := Features[i];
        lineData := lineData + [Vertex(i, Radius(d, scales, f))];
        axes := axes + [i];
        labels := labels + [FeatureName(f)];
      }
      lineData := lineData + [lineData[0]];
      path := lineData;
    }
  }

  /** Exactly the circle `i` carries the flag. */
  predicate OnlyFlagged(flags: seq<bool>, i: nat) {
    forall k :: 0 <= k < |flags| ==> flags[k] == (k == i)
  }

  /** No circle carries the flag. */
  predicate NoneFlagged(flags: seq<bool>) {
    forall k :: 0 <= k < |flags| ==> !flags[k]
  }

  /** `d3.selectAll("circle").classed("selected-dot", false)`: clear the flag
      of every circle. */
  method ClearFlags(flags: array<bool>)
    modifies flags
    ensures NoneFlagged(flags[..])
  {
    for k := 0 to flags.Length
      invariant forall j :: 0 <= j < k ==> !flags[j]
    {
      flags[k] := false;
    }
  }

  /** The scatterplot with its `selected-dot` flags, wired to the details
      panel and the star plot. */
  class Scatter {
    const scene: Scene
    /** The `selected-dot` flag of every circle, in dataset order. */
    const flags: array<bool>
    /** The circle that was clicked last. */
    var selected: Option<nat>
    const details: DetailsPanel
    const star: StarPlotArea

    /** At most one circle is flagged, the selected one; the details panel and
        the star plot both show the selected car, and the hint has been
        hidden since the first click. Before any click nothing is flagged,
        shown or drawn. */
    ghost predicate Valid()
      reads this, flags, details, star
    {
      && Ready(scene)
      && flags.Length == |scene.clean|
      && match selected
         case None =>
           && NoneFlagged(flags[..])
           && details.shown == None
           && star.IsEmpty()
         case Some(i) =>
           && i < flags.Length
           && OnlyFlagged(flags[..], i)
           && details.shown == Some(scene.clean[i])
           && details.hintHidden
           && star.Shows(scene.clean[i], scene.featureScales)
    }

    /** The dots are drawn, none selected, the hint visible. */
    constructor (scene: Scene)
      requires Ready(scene)
      ensures Valid() && this.scene == scene && selected == None
      ensures !details.hintHidden
      ensures fresh(flags) && fresh(details) && fresh(star)
    {
      this.scene := scene;
      flags := new bool[|scene.clean|](_ => false);
      selected := None;
      details := new DetailsPanel();
      star := new StarPlotArea();
    }

    /** The click handler of circle `i`: clear every flag, flag circle `i`,
        then update the details panel and redraw the star plot with its car. */
    method Click(i: nat)
      requires Valid() && i < flags.Length
      modifies this, flags, details, star
      ensures Valid() && selected == Some(i)
      ensures OnlyFlagged(flags[..], i)
      ensures details.shown == Some(scene.clean[i]) && details.hintHidden
      ensures star.Shows(scene.clean[i], scene.featureScales)
    {
      var d, scales := scene.clean[i], scene.featureScales;
      assert Keep(d) && AllFeatures <= scales.Keys;
      ClearFlags(flags);
      flags[i] := true;
      assert OnlyFlagged(flags[..], i);
      selected := Some(i);
      details.Update(d);
      star.Draw(d, scales);
      assert details.shown == Some(d) && details.hintHidden;
    }

    /** A run of clicks: the last circle clicked is the only one flagged and
        both panels show its car; once hidden, the hint stays hidden. */
    method ClickAll(clicks: seq<nat>)
      requires Valid() && forall n :: 0 <= n < |clicks| ==> clicks[n] < flags.Length
      modifies this, flags, details, star
      ensures Valid()
      ensures clicks == [] ==> selected == old(selected)
      ensures clicks != [] ==>
        var last := clicks[|clicks| - 1];
        && selected == Some(last)
        && OnlyFlagged(flags[..], last)
        && details.shown == Some(scene.clean[last])
        && details.hintHidden
        && star.Shows(scene.clean[last], scene.featureScales)
      ensures old(details.hintHidden) ==> details.hintHidden
    {
      for n := 0 to |clicks|
        invariant Valid()
        invariant n == 0 ==> selected == old(selected)
        invariant n > 0 ==> selected == Some(clicks[n - 1])
        invariant old(details.hintHidden) ==> details.hintHidden
      {
        Click(clicks[n]);
      }
    }
  }

  /** The rows converted by `rowConverter`, in file order. */
  function ParseRows(rows: seq<RawRow>, toNumber: string -> Number): seq<Record>
    requires forall n :: 0 <= n < |rows| ==> "Name" in rows[n] && "Type" in rows[n]
  {
    seq(|rows|, n requires 0 <= n < |rows| => RowConverter(rows[n], toNumber))
  }

  /** From the loaded rows to the interactive chart: convert, filter, stop
      silently when no car is left, else derive the scales and draw the dots
      with nothing selected. */
  method Load(rows: seq<RawRow>, toNumber: string -> Number) returns (view: Option<Scatter>)
    requires forall n :: 0 <= n < |rows| ==> "Name" in rows[n] && "Type" in rows[n]
    ensures view.None? <==> Filter(ParseRows(rows, toNumber)) == []
    ensures view.Some? ==>
      && fresh(view.value) && fresh(view.value.flags) && fresh(view.value.details) && fresh(view.value.star)
      && view.value.Valid() && view.value.selected == None && !view.value.details.hintHidden
      && Derived(view.value.scene) && view.value.scene.clean == Filter(ParseRows(rows, toNumber))
  {
    var data := ParseRows(rows, toNumber);
    FilterEmptyIff(data);
    var scene := Setup(data);
    if scene.None? {
      return None;
    }
    var chart := new Scatter(scene.value);
    view := Some(chart);
  }

  /** A worked case: of a car with 200 HP and one with 0 HP only the
      first passes the filter, and with it alone in the dataset its
      horsepower vertex lies on the reference circle. */
  lemma ScenarioExample()
    ensures
      var first := Record("A", "Sedan", Some(200.0), Some(20.0), Some(30000.0), Some(2.0), Some(4.0), Some(28.0));
      var second := Record("B", "Sedan", Some(0.0), Some(25.0), Some(30000.0), Some(2.0), Some(4.0), Some(28.0));
      && Filter([first, second]) == [first]
      && StarPath(first, map f | f in AllFeatures :: FeatureScale([first], f))[0] == Vertex(0, StarRadius)
  {
    var first := Record("A", "Sedan", Some(200.0), Some(20.0), Some(30000.0), Some(2.0), Some(4.0), Some(28.0));
    var second := Record("B", "Sedan", Some(0.0), Some(25.0), Some(30000.0), Some(2.0), Some(4.0), Some(28.0));
    assert [first, second][..1] == [first];
    assert [first][..0] == [];
    FeatureScaleAnchors([first], Horsepower);
  }
}
