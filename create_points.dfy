/** A model of the point-cloud generator of create_points.py.

    A point cloud is a 2 x N array: row 0 holds the x coordinates, row 1 the
    y coordinates, and column i is point i.  Coordinates are `real`, so the
    floating-point rounding of NumPy is not modelled.  The process-wide NumPy
    random generator is passed explicitly as a `RandomSource` value and handed
    back advanced by the number of points drawn.
 */
module CreatePoints {

  /** One point as `random_point` returns it. */
  datatype Point = Point(x: real, y: real)

  /** The sampling geometry `random_point` and `create_base_image` take:
      the centre (xPos, yPos), the radius, and the inner radius. */
  datatype Geometry = Geometry(xPos: real, yPos: real, radius: real, innerR: real)

  /** The keyword defaults x_pos=100, y_pos=100, radius=40, inner_r=10. */
  const DefaultGeometry: Geometry := Geometry(100.0, 100.0, 40.0, 10.0)

  /** The keyword default of `scatter_image_v`. */
  const DefaultScatter: real := 5.0

  /** A point cloud: the two rows of the 2 x N array. */
  datatype Cloud = Cloud(xs: seq<real>, ys: seq<real>) {

    /** A 2-D array has rows of one length. */
    predicate WellFormed() {
      |xs| == |ys|
    }

    /** `len(image_array[0])`: the number of points. */
    function Size(): nat {
      |xs|
    }
  }

  /** The only error modelled: `np.zeros` refuses a negative length. */
  datatype Error = NegativeDimensions

  datatype Result<T> = Ok(value: T) | Err(error: Error)

  /** The random generator behind `random_point`, seen one call at a time:
      one draw here stands for one `random_point` call, which takes two
      `np.random.rand()` values (angle and radius).  `sample(g, k)` is the
      point the k-th call yields for geometry g; it is an arbitrary function,
      so nothing is assumed about where that point lies.  `drawn` is the
      number of calls made so far. */
  datatype RandomSource = RandomSource(sample: (Geometry, nat) -> Point, drawn: nat) {

    /** The same generator after k more draws. */
    function Advanced(k: nat): RandomSource {
      RandomSource(sample, drawn + k)
    }
  }

  /** `random_point(g)`: the next draw of the generator, which it consumes. */
  function RandomPoint(g: Geometry, src: RandomSource): (Point, RandomSource) {
    (src.sample(g, src.drawn), src.Advanced(1))
  }

  /** Reference definition of the cloud `create_base_image(n, g)` builds from
      generator `src`: the draws drawn, drawn+1, ..., drawn+n-1, appended one
      column at a time. */
  function BaseImage(g: Geometry, src: RandomSource, n: nat): (c: Cloud)
    ensures c.WellFormed() && c.Size() == n
    ensures forall i :: 0 <= i < n ==>
              c.xs[i] == src.sample(g, src.drawn + i).x && c.ys[i] == src.sample(g, src.drawn + i).y
    decreases n
  {
    if n == 0 then Cloud([], [])
    else
      var c := BaseImage(g, src, n - 1);
      var p := src.sample(g, src.drawn + n - 1);
      Cloud(c.xs + [p.x], c.ys + [p.y])
  }

  /** `create_base_image(n_points, g)`: preallocate two zero rows, fill slot idx
      with the idx-th draw, and return the rows as one cloud.  A negative length
      makes `np.zeros` raise before anything is drawn. */
  method CreateBaseImage(src: RandomSource, nPoints: int := 0, g: Geometry := DefaultGeometry) returns (r: Result<Cloud>, after: RandomSource)
    ensures nPoints < 0 ==> r == Err(NegativeDimensions) && after == src
    ensures nPoints >= 0 ==> r == Ok(BaseImage(g, src, nPoints)) && after == src.Advanced(nPoints)
  {
    if nPoints < 0 {
      return Err(NegativeDimensions), src;
    }
    var x := new real[nPoints](_ => 0.0);
    var y := new real[nPoints](_ => 0.0);
    after := src;
    for idx := 0 to nPoints
      invariant after == src.Advanced(idx)
      invariant forall i :: 0 <= i < idx ==>
                  x[i] == src.sample(g, src.drawn + i).x && y[i] == src.sample(g, src.drawn + i).y
    {
      var drawn := RandomPoint(g, after);
      x[idx], y[idx] := drawn.0.x, drawn.0.y;
      after := drawn.1;
    }
    var expected := BaseImage(g, src, nPoints);
    assert x[..] == expected.xs && y[..] == expected.ys;
    r := Ok(Cloud(x[..], y[..]));
  }

  /** NumPy's `row + k`: add k to every entry. */
  function AddScalar(s: seq<real>, k: real): (r: seq<real>)
    ensures |r| == |s|
    ensures forall i :: 0 <= i < |s| ==> r[i] == s[i] + k
  {
    if s == [] then [] else [s[0] + k] + AddScalar(s[1..], k)
  }

  /** `scatter_image_v(image, scatter)`: the cloud followed by a copy of itself
      moved up by `scatter`.  (The source wraps the two rows in `np.array`,
      which adds a singleton axis, 2 x 1 x 2N; the model keeps two rows, as
      for the other operations.) */
  function ScatterImageV(image: Cloud, scatter: real := DefaultScatter): (r: Cloud)
    requires image.WellFormed()
    ensures r.WellFormed() && r.Size() == 2 * image.Size()
    ensures forall i :: 0 <= i < image.Size() ==>
              r.xs[i] == image.xs[i] && r.ys[i] == image.ys[i]
    ensures forall i :: image.Size() <= i < r.Size() ==>
              r.xs[i] == image.xs[i - image.Size()] && r.ys[i] == image.ys[i - image.Size()] + scatter
  {
    Cloud(image.xs + image.xs, image.ys + AddScalar(image.ys, scatter))
  }

  /** The two halves of a scattered cloud give the input back: the first half
      as it is, the second once moved down by `scatter`. */
  lemma ScatterImageVHalves(image: Cloud, scatter: real)
    requires image.WellFormed()
    ensures var r := ScatterImageV(image, scatter);
            var n := image.Size();
            Cloud(r.xs[..n], r.ys[..n]) == image &&
            Cloud(r.xs[n..], AddScalar(r.ys[n..], -scatter)) == image
  {
  }

  /** The concrete case of a single point (10, 20) scattered by the default 5. */
  lemma ScatterImageVOnePoint()
    ensures ScatterImageV(Cloud([10.0], [20.0])) == Cloud([10.0, 10.0], [20.0, 25.0])
  {
  }

  /** Reference definition of `randomize_image(image)` on generator `src`: the
      input followed by a fresh default-geometry cloud of the same size. */
  function RandomizedImage(image: Cloud, src: RandomSource): (r: Cloud)
    requires image.WellFormed()
    ensures r.WellFormed() && r.Size() == 2 * image.Size()
    ensures r.xs[..image.Size()] == image.xs && r.ys[..image.Size()] == image.ys
    ensures Cloud(r.xs[image.Size()..], r.ys[image.Size()..]) == BaseImage(DefaultGeometry, src, image.Size())
  {
    var another := BaseImage(DefaultGeometry, src, image.Size());
    Cloud(image.xs + another.xs, image.ys + another.ys)
  }

  /** The fresh half of a randomized cloud depends on the number of points
      alone: two inputs of one size, randomized from one generator state, get
      the same second half whatever their coordinates. */
  lemma RandomHalfDependsOnlyOnSize(a: Cloud, b: Cloud, src: RandomSource)
    requires a.WellFormed() && b.WellFormed() && a.Size() == b.Size()
    ensures var n := a.Size();
            RandomizedImage(a, src).xs[n..] == RandomizedImage(b, src).xs[n..] &&
            RandomizedImage(a, src).ys[n..] == RandomizedImage(b, src).ys[n..]
  {
  }

  /** `randomize_image(image)`: build a default-geometry cloud of the input's
      size and append it to the input. */
  method RandomizeImage(image: Cloud, src: RandomSource) returns (r: Cloud, after: RandomSource)
    requires image.WellFormed()
    ensures r == RandomizedImage(image, src)
    ensures after == src.Advanced(image.Size())
  {
    var nPoints := image.Size();
    var built, next := CreateBaseImage(src, nPoints, DefaultGeometry);
    assert built.Ok?;
    var another := built.value;
    r := Cloud(image.xs + another.xs, image.ys + another.ys);
    after := next;
  }

  /** `create_base_image()` with its default n_points=0 yields two empty rows. */
  lemma BaseImageEmpty(g: Geometry, src: RandomSource)
    ensures BaseImage(g, src, 0) == Cloud([], [])
  {
  }

  /** `create_base_image()` called with every default: two empty rows, and no
      draw made. */
  method CreateBaseImageDefaults(src: RandomSource) returns (r: Result<Cloud>, after: RandomSource)
    ensures r == Ok(Cloud([], [])) && after == src
  {
    r, after := CreateBaseImage(src);
  }

  /** The draws fill the slots in order: building m + n points is building m
      points and then n more from the generator those m draws left behind. */
  lemma BaseImageSplit(g: Geometry, src: RandomSource, m: nat, n: nat)
    ensures var whole := BaseImage(g, src, m + n);
            var first := BaseImage(g, src, m);
            var rest := BaseImage(g, src.Advanced(m), n);
            whole == Cloud(first.xs + rest.xs, first.ys + rest.ys)
  {
  }
}
