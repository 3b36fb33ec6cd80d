# Point-cloud generator model

A Dafny model of the point-cloud generator in `create_points.py`. The generator builds a
synthetic 2-D point cloud by drawing random points in a ring around a centre. It then
assembles larger clouds from it in two ways:

- `scatter_image_v` appends a vertically shifted copy of the cloud;
- `randomize_image` appends a fresh cloud of the same size.

A cloud is modelled as `Cloud(xs, ys)`. These are the two rows of the 2 x N NumPy array,
and column `i` is point `i`. Coordinates are `real`.

The process-wide NumPy random generator is an explicit value, `RandomSource(sample, drawn)`:

- One draw of the model stands for one `random_point` call. That call takes two
  `np.random.rand()` values, one for the angle and one for the radius. Nothing else in the
  code draws random values, so counting calls is enough.
- `drawn` counts the `random_point` calls made so far.
- `sample(g, k)` is the point that call `k` yields for geometry `g`. It is an arbitrary
  function, so nothing is assumed about where a point lies.

Each operation that draws takes a generator and hands back the generator advanced by
the number of draws made. This is how the model states that `create_base_image(n)` calls
the sampler exactly `n` times, in slot order.

All of it is in `create_points.dfy`, module `CreatePoints`:

- `CreateBaseImage` is a method. It fills two preallocated arrays in a `for` loop, as the
  source does. It is proved equal to the recursive reference definition `BaseImage`.
- `ScatterImageV` is a function over sequences.
- `RandomizeImage` is a method, because it calls the builder. It is proved equal to the
  function `RandomizedImage`.

When `n_points` is negative, `np.zeros` raises `ValueError` before any point is drawn. The
model returns `Err(NegativeDimensions)` for that case and leaves the generator unchanged.

## Model

| member | source | states |
|---|---|---|
| CreatePoints.BaseImage | create_points.py:35-38 | the cloud built from `n` draws has two rows of length exactly `n`, and slot `i` of each row holds the coordinate of the `i`-th draw from the starting generator state |
| CreatePoints.CreateBaseImage | create_points.py:25-39 | a negative `n_points` is an error with no draw made; otherwise the two filled arrays, read as rows, are exactly `BaseImage(g, src, n_points)` (length `n_points`, slot `idx` = `idx`-th sampler result), and the generator has advanced by exactly `n_points` draws |
| CreatePoints.BaseImageEmpty | create_points.py:25-39 | with the default `n_points = 0` the result is two empty rows |
| CreatePoints.CreateBaseImageDefaults | create_points.py:25-39 | calling the builder with every keyword default (`n_points = 0`, centre (100, 100), radius 40, inner radius 10) succeeds with two empty rows and makes no draw |
| CreatePoints.BaseImageSplit | create_points.py:37-38 | draws fill slots in order: building `m + n` points is building `m` points and then `n` more from the generator state those `m` draws leave |
| CreatePoints.AddScalar | create_points.py:53 | broadcasting `y + scatter` keeps the length and adds `scatter` to every entry |
| CreatePoints.ScatterImageV | create_points.py:42-55 | an N-point cloud becomes a 2N-point cloud; for `i < N` both coordinates equal the input's; for `N <= i < 2N` x equals input x[i-N] and y equals input y[i-N] + `scatter` |
| CreatePoints.ScatterImageVHalves | create_points.py:50-54 | the first half of the result is the input unchanged, and the second half moved down by `scatter` is the input again |
| CreatePoints.ScatterImageVOnePoint | create_points.py:42-55 | the single point (10, 20), with `scatter` left at its default 5, gives the points (10, 20) and (10, 25) |
| CreatePoints.RandomizedImage | create_points.py:64-68 | the result has 2N points; its first N columns are the input's rows exactly, in order; its last N columns are a default-geometry `BaseImage` of N points |
| CreatePoints.RandomHalfDependsOnlyOnSize | create_points.py:64-67 | two inputs of the same size, randomized from the same generator state, get the same second half whatever their coordinates |
| CreatePoints.RandomizeImage | create_points.py:58-68 | the method returns exactly `RandomizedImage(image, src)`, always succeeds, and advances the generator by exactly N draws (default geometry, line 65) |

## Left out

- CreatePoints.RandomPoint: the body of `random_point` (angle `2*pi*rand()`, radius `radius*sqrt(|rand()|) + inner_r`, `cos`/`sin` projection, lines 14-20) is not modelled, because it needs floating-point trigonometry and square roots. The sampler is an arbitrary function of the geometry and the call index, so no radius bound is stated.
- `plot_points` (lines 71-72) and the `__main__` demonstration (lines 75-81) are left out. They only call matplotlib for display.
- Floating-point rounding in `y + scatter` is not modelled, because coordinates are `real`.
- The array shapes differ in the source, and the model does not keep that difference. Line 55 wraps the two reshaped rows in `np.array`, which gives a 2 x 1 x 2N array. Lines 39 and 68 use `np.concatenate`, which gives a two-row array (2 x N at line 39, 2 x 2N at line 68). Every cloud in the model is two rows.
- Ragged input is not modelled. `scatter_image_v` and `randomize_image` require rows of equal length, as any 2-D NumPy array has.
- Non-integer `n_points` is not modelled. In the source it makes NumPy raise a `TypeError`; in the model `n_points` is typed `int`.
- Seeding the generator is not modelled. It corresponds to choosing the `RandomSource` value; two calls from the same value yield the same points by construction.
