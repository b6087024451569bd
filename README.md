# Genes and integer helpers of an image-evolving genetic algorithm

This project models, in Dafny, the two self-contained parts of an early
version of a genetic algorithm that evolves triangles to approximate an image:

- `ColorGene` and `TriangleGene` (`src/genes.py`), in module `Genes`
  (`genes.dfy`). A `ColorGene` is one RGBA colour packed into a 32-bit
  unsigned integer, red in the most significant byte. Its constructor rejects
  any integer outside `[0, 0xFFFFFFFF]` with a `ValueError`; the four read-only
  properties `red`, `green`, `blue` and `alpha` each take one byte out of the
  word with a right shift and a `0xFF` mask. A `TriangleGene` is a record of
  three integer vertices.
- The integer helpers (`src/utils.py`), in module `Utils` (`utils.dfy`):
  `randint` (a draw from a half-open range), `rand_vertex` (a random point on a
  canvas), `clamp` and `sum_vec` (2-D vector addition).

Module `Wrappers` (`wrappers.dfy`) holds the `Result` type used for the
source's error paths.

Modelling choices:

- Python integers are unbounded, like Dafny's `int`. Python's `x >> k` is
  floor division by 2^k and `x & 0xFF` is the remainder modulo 256; Dafny's
  `/` and `%` by a positive divisor agree with both, so `ShiftRight` and
  `LowByte` are written with them.
- The colour's field has the subset type `Word32`: a `ColorGene` value exists
  only once the range check has passed, which is how the source's constructor
  behaves (it raises before assigning). The source never reassigns the field
  and the channels are read-only properties, so the model is an immutable
  datatype whose accessors are functions; reading a channel cannot change the
  stored word.
- `NewColorGene` is the checked constructor: `Failure(RgbaOutOfRange(rgba))`
  stands for the `ValueError`.
- `Pack` is not in the source: it is the byte layout written as arithmetic
  (`red * 2^24 + green * 2^16 + blue * 2^8 + alpha`), the reference the
  accessors are proved against in both directions.
- `randint` and `rand_vertex` are methods whose result is a nondeterministic
  choice (`:|`) constrained only by the range. The random source's
  `ValueError` for an empty range is modelled as `Failure(EmptyRange(start,
  stop))` rather than as a precondition; `rand_vertex` draws x before y, so a
  canvas with no columns reports the width.
- Equality of two `ColorGene` or `TriangleGene` values in the model is value
  equality: equal stored word, or equal vertex triple. The Python classes
  define no `__eq__`, so Python's `==` on two such objects compares identity;
  `ChannelsDetermineColor` and `TriangleGeneKeepsVertices` speak of the
  stored contents, not of object identity.
- Vertices and vectors are Python pairs of integers, modelled as the tuple
  type `(int, int)`.

## Model

| member | source | states |
|---|---|---|
| `Genes.NewColorGene` | src/genes.py:5-8 | construction succeeds exactly when `0 <= rgba <= 0xFFFFFFFF`; on success the stored word is the argument unchanged; otherwise the result is the out-of-range error for that argument and no colour is produced |
| `Genes.NewColorGeneOfStored` | src/genes.py:5-8 | every stored word passes the constructor's check again and rebuilds the same colour |
| `Genes.ColorGene.Red` | src/genes.py:10-12 | red is a byte, in `[0, 255]` |
| `Genes.ColorGene.Green` | src/genes.py:14-16 | green is a byte, in `[0, 255]` |
| `Genes.ColorGene.Blue` | src/genes.py:18-20 | blue is a byte, in `[0, 255]` |
| `Genes.ColorGene.Alpha` | src/genes.py:22-24 | alpha is a byte, in `[0, 255]` |
| `Genes.ChannelsAreDigits` | src/genes.py:10-24 | alpha, blue, green and red are the base-256 digits of the word, least significant first |
| `Genes.RedIsTopByte` | src/genes.py:10-24 | red needs no mask: it equals `rgba / 2^24`; alpha equals `rgba % 256` |
| `Genes.PackChannels` | src/genes.py:10-24 | round trip: `red * 2^24 + green * 2^16 + blue * 2^8 + alpha` is the stored word, for every valid colour |
| `Genes.ChannelsOfPack` | src/genes.py:10-24 | round trip the other way: the colour packed from any four bytes returns those four bytes from its accessors |
| `Genes.ChannelsDetermineColor` | src/genes.py:10-24 | packing is injective: two colours with equal red, green, blue and alpha are equal |
| `Genes.TriangleGeneKeepsVertices` | src/genes.py:34-36 | the record holds exactly the three vertices it was given, each in its place, and distinct triples give distinct records |
| `Utils.RandInt` | src/utils.py:4-8 | for `min < max` the draw `r` satisfies `min <= r < max`; for `max <= min` the draw fails with the empty-range error for `[min, max)` |
| `Utils.RandVertex` | src/utils.py:13-14 | for positive limits the point lies in `[0, lims[0]) x [0, lims[1])`; otherwise it fails with the error of the first draw whose range is empty |
| `Utils.Clamp` | src/utils.py:10-11 | for `min_val <= max_val` the result lies in `[min_val, max_val]` and an `x` already inside is returned unchanged; for `min_val > max_val` the result is always `min_val` |
| `Utils.ClampIsNearest` | src/utils.py:10-11 | on a non-empty interval the result is the unique point of the interval nearest to `x` |
| `Utils.ClampIdempotent` | src/utils.py:10-11 | clamping twice with the same bounds equals clamping once |
| `Utils.ClampMonotone` | src/utils.py:10-11 | clamping is monotone in `x` |
| `Utils.SumVec` | src/utils.py:16-17 | componentwise addition of two integer pairs: subtracting either summand from the sum, component by component, gives back the other |
| `Utils.SumVecCommutative` | src/utils.py:16-17 | vector addition is commutative |
| `Utils.SumVecAssociative` | src/utils.py:16-17 | vector addition is associative |
| `Utils.SumVecIdentity` | src/utils.py:16-17 | `(0, 0)` is a two-sided identity of vector addition |

## Left out

- `ColorGene.__repr__` (src/genes.py:26-27): formats the channels as decimal text for display; string formatting is not modelled.
- The commented-out `ShapeGene` (src/genes.py:29-32) has no behaviour.
- `Utils.RandInt` and `Utils.RandVertex`: the actual pseudo-random generator and its distribution are not modelled; the methods promise only the range every draw lies in.
- `Utils.Clamp`: the source's `clamp` is untyped and also works on floats; no file of this version calls it, and the model covers integers only.
- src/individual.py: image creation and alpha compositing through an external imaging library, and a one-line fitness setter.
- src/generator.py: population set-up calls `Shape.random`, `Triangle`, `Elipse` and `Individual`, and `Shape`, `Triangle` and `Elipse` are not defined in `src/genes.py` of this version. Its loops `range(1, initial_pop)` and `range(1, shape_count)` (src/generator.py:24,26) build one individual and one shape fewer than requested; the model does not cover this, because the shape and individual construction it depends on is not part of this model.
- src/genetic_algorithm.py, main.py and src/main.py: configuration file reading, wall-clock timing, printing, image saving, float fitness comparisons, and calls to strategy enums and `Generator` members (`new_generation`, `fittest`, `trad_generational_jump`) that no file of this version defines. The builder setters only assign a field.
- No selection, crossover, mutation, replacement or fitness logic is modelled: none of it exists in this version of the program.
