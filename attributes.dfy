/**
  The default attribute tree of the warp-noise effect: every tunable parameter,
  its default value, its bounds and the metadata the controls and the shader
  upload read (uniform setter tag, step, marks, uniform flag).

  The factories are pure. The only impurity of the original, the random
  number behind each noise layer's frequency, is a parameter here: `r` stands
  for one draw of a uniform random number in [0, 1).
*/
module ControllerAttributes {

  import opened Wrappers

  /** The uniform setter suffix a leaf is uploaded with: "1f" or "1i". */
  datatype UniformType = Float1 | Int1

  /**
    A node of the tree. A Group's value is an object of named children; a
    Leaf's value is a number with inclusive bounds and optional metadata.
    `isUniform` is None where the literal has no such key.
  */
  datatype Node =
    | Group(children: map<string, Node>, isUniform: Option<bool>)
    | Leaf(value: real, min: real, max: real, uniformType: Option<UniformType>,
           step: Option<real>, marks: Option<seq<real>>, isUniform: Option<bool>)

  // ---------------------------------------------------------------------------
  // Well-formedness of leaves and of whole trees
  // ---------------------------------------------------------------------------

  /** `p` holds of every leaf reachable from `n`. */
  predicate EveryLeaf(n: Node, p: Node -> bool)
  {
    match n
    case Leaf(_, _, _, _, _, _, _) => p(n)
    case Group(children, _) => forall name :: name in children ==> EveryLeaf(children[name], p)
  }

  predicate BoundsOrdered(n: Node)
  {
    n.Leaf? ==> n.min <= n.max
  }

  predicate ValueInBounds(n: Node)
  {
    n.Leaf? ==> n.min <= n.value <= n.max
  }

  predicate MarksInBounds(n: Node)
  {
    n.Leaf? && n.marks.Some? ==>
      forall i :: 0 <= i < |n.marks.value| ==> n.min <= n.marks.value[i] <= n.max
  }

  predicate IsInteger(x: real)
  {
    x == x.Floor as real
  }

  /** `x` is reached from `lo` by a whole, non-negative number of steps. */
  predicate OnGrid(x: real, lo: real, step: real)
    requires step > 0.0
  {
    var q := (x - lo) / step;
    q >= 0.0 && IsInteger(q)
  }

  /** A stepped leaf has a positive step, and its value and marks lie on the step grid from min. */
  predicate StepReachable(n: Node)
  {
    n.Leaf? && n.step.Some? ==>
      && n.step.value > 0.0
      && OnGrid(n.value, n.min, n.step.value)
      && (n.marks.Some? ==>
            forall i :: 0 <= i < |n.marks.value| ==> OnGrid(n.marks.value[i], n.min, n.step.value))
  }

  /** A leaf uploaded with an integer setter has integer value and bounds. */
  predicate IntegerTyped(n: Node)
  {
    n.Leaf? && n.uniformType == Some(Int1) ==>
      IsInteger(n.value) && IsInteger(n.min) && IsInteger(n.max)
  }

  /**
    A leaf feeds a uniform when it, or a node above it, is marked
    `isUniform: true`; `under` says whether an ancestor is so marked.
    Uniform leaves are exactly the leaves that carry a setter tag.
  */
  predicate UniformExactlyTyped(n: Node, under: bool)
  {
    var uniform := under || n.isUniform == Some(true);
    match n
    case Leaf(_, _, _, uniformType, _, _, _) => uniform == uniformType.Some?
    case Group(children, _) =>
      forall name :: name in children ==> UniformExactlyTyped(children[name], uniform)
  }

  /** The invariants every default leaf keeps, whatever the random draws. */
  predicate SoundLeaf(n: Node)
  {
    BoundsOrdered(n) && MarksInBounds(n) && StepReachable(n) && IntegerTyped(n)
  }

  predicate WellFormed(n: Node)
  {
    EveryLeaf(n, SoundLeaf) && UniformExactlyTyped(n, false)
  }

  lemma {:induction false} EveryLeafWeakens(n: Node, p: Node -> bool, q: Node -> bool)
    requires forall m :: p(m) ==> q(m)
    requires EveryLeaf(n, p)
    ensures EveryLeaf(n, q)
  {
    match n
    case Leaf(_, _, _, _, _, _, _) =>
    case Group(children, _) =>
      forall name | name in children
        ensures EveryLeaf(children[name], q)
      {
        EveryLeafWeakens(children[name], p, q);
      }
  }

  /** OnGrid names the natural number of steps that reaches `x`. */
  lemma GridIndex(x: real, lo: real, step: real)
    requires step > 0.0 && OnGrid(x, lo, step)
    ensures var k := ((x - lo) / step).Floor; k >= 0 && x == lo + (k as real) * step
  {
    var q := (x - lo) / step;
    assert q * step == x - lo;
  }

  // ---------------------------------------------------------------------------
  // The factories
  // ---------------------------------------------------------------------------

  const FREQUENCY_MIN: real := 0.0000001
  const FREQUENCY_MAX: real := 0.035
  /** The default frequency is a random draw in [0, 1) scaled by this factor. */
  const FREQUENCY_SCALE: real := 0.01

  function FloatLeaf(value: real, min: real, max: real): Node
  {
    Leaf(value, min, max, Some(Float1), None, None, None)
  }

  /**
    One noise layer with the given frequency. Every other value is a constant,
    so layers built with different draws differ only in their frequency.
  */
  function NoiseLayer(frequency: real): (n: Node)
    ensures n.Group? && n.isUniform == Some(true)
    ensures n.children.Keys ==
      {"frequency", "octaves", "lacunarity", "persistence", "amplitude", "modifications"}
    ensures n.children["frequency"].Leaf? && n.children["frequency"].value == frequency
  {
    Group(map[
      "frequency" := FloatLeaf(frequency, FREQUENCY_MIN, FREQUENCY_MAX),
      "octaves" := Leaf(3.0, 1.0, 5.0, Some(Int1), Some(2.0), Some([1.0, 3.0, 5.0]), None),
      "lacunarity" := FloatLeaf(2.0, 0.1, 5.0),
      "persistence" := FloatLeaf(0.5, 0.1, 2.0),
      "amplitude" := FloatLeaf(1.0, 0.1, 5.0),
      "modifications" := Group(map[
        "ridgeThreshold" := FloatLeaf(1.0, 0.5, 1.0),
        "pow" := FloatLeaf(1.0, 0.0, 5.0)
        ], None)
      ], Some(true))
  }

  /** octaves: value 3 in [1, 5], step 2, marks [1, 3, 5] all reachable from min in whole steps. */
  lemma OctavesOnStepGrid(frequency: real)
    ensures var octaves := NoiseLayer(frequency).children["octaves"];
      && octaves.Leaf? && octaves.step == Some(2.0) && octaves.marks == Some([1.0, 3.0, 5.0])
      && SoundLeaf(octaves) && ValueInBounds(octaves)
  {
    var octaves := NoiseLayer(frequency).children["octaves"];
    assert 3.0.Floor == 3 && 1.0.Floor == 1 && 5.0.Floor == 5;
    assert 0.0.Floor == 0 && 2.0.Floor == 2;
    assert OnGrid(1.0, 1.0, 2.0) && OnGrid(3.0, 1.0, 2.0) && OnGrid(5.0, 1.0, 2.0);
  }

  lemma NoiseLayerWellFormed(frequency: real)
    ensures WellFormed(NoiseLayer(frequency))
  {
    var n := NoiseLayer(frequency);
    OctavesOnStepGrid(frequency);
    var modifications := n.children["modifications"];
    assert EveryLeaf(modifications, SoundLeaf) && UniformExactlyTyped(modifications, true);
  }

  /** Every value of a layer is within its bounds exactly when its frequency is. */
  lemma NoiseLayerInBounds(frequency: real)
    ensures EveryLeaf(NoiseLayer(frequency), ValueInBounds) <==>
      FREQUENCY_MIN <= frequency <= FREQUENCY_MAX
  {
    var n := NoiseLayer(frequency);
    OctavesOnStepGrid(frequency);
    assert EveryLeaf(n.children["modifications"], ValueInBounds);
    if EveryLeaf(n, ValueInBounds) {
      assert EveryLeaf(n.children["frequency"], ValueInBounds);
    }
  }

  /** noiseSettings(): one layer whose frequency is the draw `r` scaled by 0.01. */
  function NoiseSettings(r: real): (n: Node)
    requires 0.0 <= r < 1.0
    ensures WellFormed(n)
    ensures n == NoiseLayer(r * FREQUENCY_SCALE)
    ensures n.children["frequency"].value < n.children["frequency"].max
    ensures EveryLeaf(n, ValueInBounds) <==> r >= 0.00001
  {
    NoiseLayerWellFormed(r * FREQUENCY_SCALE);
    NoiseLayerInBounds(r * FREQUENCY_SCALE);
    NoiseLayer(r * FREQUENCY_SCALE)
  }

  /** timeSettings(value): an untyped, unmarked leaf in [0, 3] with the given value. */
  function TimeSettings(value: real): (n: Node)
    ensures n.Leaf? && n.value == value && n.uniformType == None && n.isUniform == None
    ensures SoundLeaf(n)
    ensures ValueInBounds(n) <==> 0.0 <= value <= 3.0
  {
    Leaf(value, 0.0, 3.0, None, None, None, None)
  }

  function UniformLeaf(value: real, uniformType: UniformType, min: real, max: real): Node
  {
    Leaf(value, min, max, Some(uniformType), None, None, Some(true))
  }

  /** The four top-level scalars: scale, iterations, warpAmount, multisampling. */
  const SCALE: Node := UniformLeaf(1.0, Float1, 0.01, 10.0)
  const ITERATIONS: Node := UniformLeaf(2.0, Int1, 0.0, 4.0)
  const WARP_AMOUNT: Node := UniformLeaf(100.0, Float1, 0.0, 1000.0)
  const MULTISAMPLING: Node := UniformLeaf(0.0, Int1, 0.0, 1.0)

  const TOP_LEVEL: set<string> :=
    {"scale", "iterations", "warpAmount", "multisampling", "animationSpeed",
     "source", "angleControl", "amountControl"}

  /** animationSpeed: four time settings in a group marked as not uniform. */
  function AnimationSpeed(): (n: Node)
    ensures n.Group? && n.isUniform == Some(false)
    ensures n.children.Keys == {"general", "source", "angleControl", "amountControl"}
  {
    Group(map[
      "general" := TimeSettings(0.2),
      "source" := TimeSettings(1.0),
      "angleControl" := TimeSettings(1.0),
      "amountControl" := TimeSettings(1.0)
      ], Some(false))
  }

  /**
    The whole default tree, given the frequencies of its three noise layers.
    The root is a plain object of named children: it has no uniform flag.
  */
  function Attributes(sourceFrequency: real, angleFrequency: real, amountFrequency: real): (n: Node)
    ensures n.Group? && n.isUniform == None && n.children.Keys == TOP_LEVEL
    ensures n.children["source"] == NoiseLayer(sourceFrequency)
    ensures n.children["angleControl"] == NoiseLayer(angleFrequency)
    ensures n.children["amountControl"] == NoiseLayer(amountFrequency)
  {
    TopLevel(
      SCALE, ITERATIONS, WARP_AMOUNT, MULTISAMPLING,
      AnimationSpeed(),
      NoiseLayer(sourceFrequency),
      NoiseLayer(angleFrequency),
      NoiseLayer(amountFrequency))
  }

  /** The four top-level scalars: in bounds, and the "1i" ones integral. */
  lemma TopLevelLeavesSound()
    ensures SoundLeaf(SCALE) && ValueInBounds(SCALE)
    ensures SoundLeaf(ITERATIONS) && ValueInBounds(ITERATIONS)
    ensures SoundLeaf(WARP_AMOUNT) && ValueInBounds(WARP_AMOUNT)
    ensures SoundLeaf(MULTISAMPLING) && ValueInBounds(MULTISAMPLING)
  {
    assert 2.0.Floor == 2 && 0.0.Floor == 0 && 4.0.Floor == 4 && 1.0.Floor == 1;
  }

  /** The top-level object literal, over arbitrary children. */
  function TopLevel(scale: Node, iterations: Node, warpAmount: Node, multisampling: Node,
                    animationSpeed: Node, source: Node, angleControl: Node, amountControl: Node): Node
  {
    Group(map[
      "scale" := scale,
      "iterations" := iterations,
      "warpAmount" := warpAmount,
      "multisampling" := multisampling,
      "animationSpeed" := animationSpeed,
      "source" := source,
      "angleControl" := angleControl,
      "amountControl" := amountControl
      ], None)
  }

  lemma TopLevelEveryLeaf(a: Node, b: Node, c: Node, d: Node, e: Node, f: Node, g: Node, h: Node, p: Node -> bool)
    ensures EveryLeaf(TopLevel(a, b, c, d, e, f, g, h), p) <==>
      && EveryLeaf(a, p) && EveryLeaf(b, p) && EveryLeaf(c, p) && EveryLeaf(d, p)
      && EveryLeaf(e, p) && EveryLeaf(f, p) && EveryLeaf(g, p) && EveryLeaf(h, p)
  {
    var ch := TopLevel(a, b, c, d, e, f, g, h).children;
    assert ch["scale"] == a && ch["iterations"] == b && ch["warpAmount"] == c && ch["multisampling"] == d;
    assert ch["animationSpeed"] == e && ch["source"] == f && ch["angleControl"] == g && ch["amountControl"] == h;
  }

  lemma TopLevelUniform(a: Node, b: Node, c: Node, d: Node, e: Node, f: Node, g: Node, h: Node)
    ensures UniformExactlyTyped(TopLevel(a, b, c, d, e, f, g, h), false) <==>
      && UniformExactlyTyped(a, false) && UniformExactlyTyped(b, false)
      && UniformExactlyTyped(c, false) && UniformExactlyTyped(d, false)
      && UniformExactlyTyped(e, false) && UniformExactlyTyped(f, false)
      && UniformExactlyTyped(g, false) && UniformExactlyTyped(h, false)
  {
    var ch := TopLevel(a, b, c, d, e, f, g, h).children;
    assert ch["scale"] == a && ch["iterations"] == b && ch["warpAmount"] == c && ch["multisampling"] == d;
    assert ch["animationSpeed"] == e && ch["source"] == f && ch["angleControl"] == g && ch["amountControl"] == h;
  }

  /** The fixed part of the tree is sound; it is well-formed whenever the three layers are. */
  lemma FixedPartWellFormed(source: Node, angleControl: Node, amountControl: Node)
    requires WellFormed(source) && WellFormed(angleControl) && WellFormed(amountControl)
    ensures WellFormed(TopLevel(SCALE, ITERATIONS, WARP_AMOUNT, MULTISAMPLING, AnimationSpeed(),
                                source, angleControl, amountControl))
  {
    TopLevelLeavesSound();
    assert EveryLeaf(AnimationSpeed(), SoundLeaf) && UniformExactlyTyped(AnimationSpeed(), false);
    TopLevelEveryLeaf(SCALE, ITERATIONS, WARP_AMOUNT, MULTISAMPLING,
      AnimationSpeed(), source, angleControl, amountControl, SoundLeaf);
    TopLevelUniform(SCALE, ITERATIONS, WARP_AMOUNT, MULTISAMPLING,
      AnimationSpeed(), source, angleControl, amountControl);
  }

  /** The fixed part of the tree is in bounds: the whole is exactly when the three layers are. */
  lemma FixedPartInBounds(source: Node, angleControl: Node, amountControl: Node)
    ensures EveryLeaf(TopLevel(SCALE, ITERATIONS, WARP_AMOUNT, MULTISAMPLING, AnimationSpeed(),
                               source, angleControl, amountControl), ValueInBounds) <==>
      EveryLeaf(source, ValueInBounds) && EveryLeaf(angleControl, ValueInBounds) && EveryLeaf(amountControl, ValueInBounds)
  {
    TopLevelLeavesSound();
    assert EveryLeaf(AnimationSpeed(), ValueInBounds);
    TopLevelEveryLeaf(SCALE, ITERATIONS, WARP_AMOUNT, MULTISAMPLING,
      AnimationSpeed(), source, angleControl, amountControl, ValueInBounds);
  }

  lemma AttributesWellFormed(f1: real, f2: real, f3: real)
    ensures WellFormed(Attributes(f1, f2, f3))
  {
    NoiseLayerWellFormed(f1);
    NoiseLayerWellFormed(f2);
    NoiseLayerWellFormed(f3);
    FixedPartWellFormed(NoiseLayer(f1), NoiseLayer(f2), NoiseLayer(f3));
  }

  /**
    Every default value lies within its bounds exactly when the three
    frequencies do; all other leaves are always in bounds.
  */
  lemma AttributesInBounds(f1: real, f2: real, f3: real)
    ensures EveryLeaf(Attributes(f1, f2, f3), ValueInBounds) <==>
      && FREQUENCY_MIN <= f1 <= FREQUENCY_MAX
      && FREQUENCY_MIN <= f2 <= FREQUENCY_MAX
      && FREQUENCY_MIN <= f3 <= FREQUENCY_MAX
  {
    NoiseLayerInBounds(f1);
    NoiseLayerInBounds(f2);
    NoiseLayerInBounds(f3);
    FixedPartInBounds(NoiseLayer(f1), NoiseLayer(f2), NoiseLayer(f3));
  }

  /**
    getDefaultAttributes(): the three noise layers are built by three separate
    noiseSettings() calls, in the order source, angleControl, amountControl,
    each with its own draw.
  */
  function DefaultAttributes(rSource: real, rAngle: real, rAmount: real): (n: Node)
    requires 0.0 <= rSource < 1.0 && 0.0 <= rAngle < 1.0 && 0.0 <= rAmount < 1.0
    ensures n.Group? && n.children.Keys == TOP_LEVEL
    ensures WellFormed(n)
    ensures n.children["source"] == NoiseSettings(rSource)
    ensures n.children["angleControl"] == NoiseSettings(rAngle)
    ensures n.children["amountControl"] == NoiseSettings(rAmount)
    ensures EveryLeaf(n, ValueInBounds) <==> rSource >= 0.00001 && rAngle >= 0.00001 && rAmount >= 0.00001
  {
    var f1, f2, f3 := rSource * FREQUENCY_SCALE, rAngle * FREQUENCY_SCALE, rAmount * FREQUENCY_SCALE;
    AttributesWellFormed(f1, f2, f3);
    AttributesInBounds(f1, f2, f3);
    Attributes(f1, f2, f3)
  }

  /**
    Every leaf of the default tree has min <= max, whatever the draws: the
    bounds are ordered even where a frequency value falls outside them.
  */
  lemma DefaultBoundsOrdered(rSource: real, rAngle: real, rAmount: real)
    requires 0.0 <= rSource < 1.0 && 0.0 <= rAngle < 1.0 && 0.0 <= rAmount < 1.0
    ensures EveryLeaf(DefaultAttributes(rSource, rAngle, rAmount), BoundsOrdered)
  {
    EveryLeafWeakens(DefaultAttributes(rSource, rAngle, rAmount), SoundLeaf, BoundsOrdered);
  }

  /** The three layers are one shape: they differ in nothing but their frequency leaf. */
  lemma {:induction false} NoiseLayersDifferOnlyInFrequency(f1: real, f2: real)
    ensures NoiseLayer(f1).children - {"frequency"} == NoiseLayer(f2).children - {"frequency"}
    ensures NoiseLayer(f1) == NoiseLayer(f2) <==> f1 == f2
  {
    var c1, c2 := NoiseLayer(f1).children, NoiseLayer(f2).children;
    assert c1.Keys == c2.Keys;
    forall name | name in c1 && name != "frequency"
      ensures c1[name] == c2[name]
    {
    }
    if NoiseLayer(f1) == NoiseLayer(f2) {
      assert c1["frequency"].value == c2["frequency"].value;
    }
  }

  /** The time settings feed no uniform: their leaves carry no setter tag and stay within [0, 3]. */
  lemma AnimationSpeedUntyped()
    ensures forall name :: name in AnimationSpeed().children ==>
      var leaf := AnimationSpeed().children[name];
      leaf.Leaf? && leaf.uniformType == None && leaf.min == 0.0 && leaf.max == 3.0 && ValueInBounds(leaf)
  {
  }

  // ---------------------------------------------------------------------------
  // The frequency lower bound
  // ---------------------------------------------------------------------------

  /** With the draw 0, which the random source may return, the default frequency is below its minimum. */
  lemma FrequencyBelowMinimum()
    ensures var layer := NoiseSettings(0.0);
      layer.children["frequency"].value < layer.children["frequency"].min
    ensures !EveryLeaf(DefaultAttributes(0.0, 0.5, 0.5), ValueInBounds)
  {
  }

  function Max(a: real, b: real): real
  {
    if a < b then b else a
  }

  /** The draw scaled as in the original, raised to the frequency minimum when it falls below it. */
  function ClampedFrequency(r: real): (f: real)
    requires 0.0 <= r < 1.0
    ensures FREQUENCY_MIN <= f <= FREQUENCY_MAX
    ensures r >= 0.00001 ==> f == r * FREQUENCY_SCALE
  {
    Max(r * FREQUENCY_SCALE, FREQUENCY_MIN)
  }

  /** The default tree with the frequency clamped into its bounds: every value is in bounds. */
  function IntendedDefaultAttributes(rSource: real, rAngle: real, rAmount: real): (n: Node)
    requires 0.0 <= rSource < 1.0 && 0.0 <= rAngle < 1.0 && 0.0 <= rAmount < 1.0
    ensures n.Group? && n.children.Keys == TOP_LEVEL
    ensures WellFormed(n) && EveryLeaf(n, ValueInBounds)
    ensures rSource >= 0.00001 && rAngle >= 0.00001 && rAmount >= 0.00001 ==>
      n == DefaultAttributes(rSource, rAngle, rAmount)
  {
    var f1, f2, f3 := ClampedFrequency(rSource), ClampedFrequency(rAngle), ClampedFrequency(rAmount);
    AttributesWellFormed(f1, f2, f3);
    AttributesInBounds(f1, f2, f3);
    Attributes(f1, f2, f3)
  }
}
