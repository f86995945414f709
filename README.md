# pypalette: k-means palette extraction, modelled in Dafny

The project models three parts of pypalette.

- **`KMeans` in `pypalette/kmeans.py`.** The constructor seeds centroids k-means++ style. It takes a random first pixel, then runs one weighted draw per remaining cluster. After that it runs exactly ten Lloyd rounds, each a `reassign_points` followed by an `update_centroids`.
- **The exact parts of `pypalette/conversions.py`.** These are the hexadecimal spelling of an RGB triple and its reading back, the range guards every conversion starts with, and the black-input fallback of `rgb2cmyk`.
- **The helpers of `pypalette/pypalette.py`.** These are `average_color`, the `#`-less `rgb2hex` and the unguarded `rgb2cmyk`.

Files:

- `colors.dfy` (module `Colors`) holds what everything shares:
  - RGB triples;
  - Python's exception kinds, as an `Error` datatype with Python's messages;
  - the `Result`/`Option`/`Outcome` wrappers that stand for a raised exception;
  - channel sums.
- `conversions.dfy` (module `Conversions`) models `conversions.py`.
- `pypalette.dfy` (module `PyPalette`) models the `pypalette.py` helpers.
- `kmeans_spec.dfy` (module `KMeansSpec`) describes the mathematics behind the class as pure functions, with the lemmas about them:
  - the nearest-centroid scan;
  - the seeding weights and the prefix-sum selection;
  - the seeding rounds;
  - the member lists that reassignment rebuilds;
  - the round-half-even mean;
  - the ten Lloyd rounds.
- `kmeans.dfy` (module `KMeans`) holds `class KMeans`, whose fields are the object's attributes: `im`, `k`, the weight buffer `d` and `clusters`. Each loop of the source is a method with loop invariants. Each method is proved to compute the `KMeansSpec` function that describes it.

Inputs the program gets from outside are parameters of the model:

- `random.choice(self.im)` becomes the index `first` of the chosen pixel.
- Each call of `random.uniform(0, total)` becomes one entry of `draws`. An entry is a function from the round's total to the value drawn. The lemmas assume only that the value lies in `[0, total]` (`IsUniform`). Where they need the draw to stay below a positive total, they say so (`BelowTop`).
- `math.sqrt` becomes the parameter `root`. It is assumed to be zero at zero and strictly increasing (`IsRoot`), which is all that distance comparisons rely on.

Distances are compared exactly. `euclid_dist` is `root` of the integer squared distance, so under `IsRoot` comparing distances is comparing squared distances. Python 3's `round(s / n)` on the integer sums is modelled as exact round-half-even (`RoundHalfEven`).

Where the code departs from the design it is meant to implement (textbook k-means++ and Lloyd iteration), the model follows the code:

- The seeding weights are plain distances, not squared distances. The loop at `pypalette/kmeans.py:31-32` only rebinds its loop variable, so it leaves `d` unchanged.
- Seeding is not guaranteed to produce k clusters. A round whose draw reaches its total appends nothing.
- An empty cluster is not kept with its old centroid. `update_centroids` divides by zero, and the constructor fails with `ZeroDivisionError`.
- There is no convergence test and no timeout. Exactly ten rounds run.
- An empty image raises `IndexError` from `random.choice`, not an invalid-input error.
- `k <= 1` is accepted, and seeding then runs no rounds.

The last two are also listed under "## Findings", where `KMeans.CreateChecked` models the constructor the tests expect.

## Model

| member | source | states |
|---|---|---|
| KMeansSpec.EuclidDistOrder | pypalette/kmeans.py:60-62 | euclid_dist is never negative, is zero exactly between equal colours, and orders pairs as their squared distances do |
| KMeansSpec.NearestIsNearest | pypalette/kmeans.py:69-75 | the reassignment scan picks a centroid at minimal distance, and no lower index is as close (ties go to the lowest index) |
| KMeansSpec.NearestIsUnique | pypalette/kmeans.py:69-75 | that choice is unique: two indices that both satisfy it are equal |
| KMeans.Closest | pypalette/kmeans.py:69-74 | the min-distance loop started at infinity with strict `<` returns `min_index`, the index the reassignment scan chooses, and that centroid's distance, which is also the `min_dist` the seeding loop at pypalette/kmeans.py:24-29 appends |
| KMeansSpec.WeightsMeaning | pypalette/kmeans.py:20-29 | there is one weight per pixel; a weight is never negative, and it is zero exactly when the pixel already is a centroid |
| KMeansSpec.WeightIsLeast | pypalette/kmeans.py:24-29 | a pixel's weight is at most its distance to any chosen centroid |
| KMeans.KMeans.FillDistances | pypalette/kmeans.py:20-29 | the single-centroid branch and the min-loop branch both append exactly the weights of the current centroids to `d`, and nothing else changes |
| KMeansSpec.PickFrom | pypalette/kmeans.py:38-43 | the scan from index i returns an index whose cumulative weight exceeds r, with no earlier prefix doing so, or None when no prefix up to the end exceeds r |
| KMeansSpec.PickMeaning | pypalette/kmeans.py:33-43 | with non-negative weights, a pixel is selected iff the draw is below the total; the selected i has prefix(i) <= r < prefix(i) + w[i], and its weight is positive |
| KMeans.Select | pypalette/kmeans.py:38-43 | the `upto` loop with its early `break` returns the scan's selection |
| KMeansSpec.SeedRound | pypalette/kmeans.py:20-45 | a seeding round either leaves the centroids as they are or appends one pixel of the image |
| KMeansSpec.SeedRoundMeaning | pypalette/kmeans.py:31-43 | when the draw is below the total, the round keeps the old centroids as a prefix and appends one image pixel that is not yet a centroid; otherwise it changes nothing (a zero-total round appends nothing) |
| KMeansSpec.RoundAppendsIff | pypalette/kmeans.py:33-43 | a round can append only while some pixel is not yet a centroid, and with a draw below the top it then does append |
| KMeansSpec.Seeded | pypalette/kmeans.py:19-46 | after the rounds, the first centroids are still there, and at most one centroid per round has been added |
| KMeansSpec.SeededLength | pypalette/kmeans.py:19-46 | the seeding reaches one centroid per round (k in all) exactly when every round's draw is below that round's total |
| KMeansSpec.SeededDistinct | pypalette/kmeans.py:19-46 | seeding from distinct centroids gives distinct centroids, each the first pick or a pixel of the image |
| KMeansSpec.SeededGrows | pypalette/kmeans.py:19-46 | with more distinct colours than centroids so far and no draw at the top, every round adds a new colour of the image |
| KMeans.KMeans.SeedingRound | pypalette/kmeans.py:20-45 | one pass of the seeding loop body turns the clusters into those of one more seeding round, and leaves `d` empty |
| KMeans.KMeans.constructor | pypalette/kmeans.py:14-46 | the constructor's clusters are the seeded centroids with empty member lists; there are between 1 and max(k, 1) of them; `d` is empty, and `k` has counted down to 1 (or is left as it was when k <= 1) |
| KMeansSpec.MembersMeaning | pypalette/kmeans.py:68-75 | a pixel value is in list j exactly when it occurs in the image and is assigned to j |
| KMeansSpec.ReassignPartitions | pypalette/kmeans.py:64-75 | after reassignment the lists together hold every pixel exactly as often as the image does, and so `len(im)` pixels in all; each member sits in the list of its nearest centroid; the centroids are unchanged |
| KMeans.KMeans.ReassignPoints | pypalette/kmeans.py:64-75 | the clearing loop and the append loop leave exactly the reassigned clusters |
| KMeansSpec.RoundHalfEvenNearest | pypalette/kmeans.py:79-81 | `round(s / n)` is within one half of s / n and is even on a tie |
| KMeansSpec.RoundHalfEvenWithin | pypalette/kmeans.py:79-81 | rounding a mean keeps it between the least and greatest values averaged |
| KMeansSpec.MeanWithin | pypalette/kmeans.py:79-81 | each channel of the rounded mean lies between that channel's least and greatest member values |
| KMeansSpec.MeanOfCopies | pypalette/kmeans.py:79-81 | the mean of copies of one colour is that colour |
| KMeansSpec.FirstEmpty | pypalette/kmeans.py:77-81 | every cluster before the index where update_centroids stops has members |
| KMeansSpec.FirstEmptyMeaning | pypalette/kmeans.py:77-81 | the cluster where update_centroids stops, if any, has no members |
| KMeansSpec.FirstEmptyIff | pypalette/kmeans.py:77-81 | update_centroids gets through every cluster exactly when none is empty |
| KMeans.KMeans.UpdateCentroids | pypalette/kmeans.py:77-81 | the centroids before the first empty cluster become their rounded means and the rest are untouched; it succeeds exactly when no cluster is empty |
| KMeansSpec.LloydRoundSteps | pypalette/kmeans.py:54-55 | a round succeeds exactly when update_centroids gets through every reassigned cluster, and then it yields the updated clusters |
| KMeansSpec.LloydRoundInRange | pypalette/kmeans.py:64-81 | on an image of in-range pixels, a successful round gives in-range centroids |
| KMeansSpec.LloydRoundWithin | pypalette/kmeans.py:64-81 | a successful round puts every centroid inside any band [lo, hi] that holds the whole image on that channel |
| KMeansSpec.LloydWithin | pypalette/kmeans.py:53-55 | after any number of successful rounds, centroids that started inside the image's band on a channel are still inside it |
| KMeansSpec.SeededFromImage | pypalette/kmeans.py:18-46 | every seed is the first centroid or a pixel of the image |
| KMeansSpec.PaletteWithin | pypalette/kmeans.py:18-55 | the constructor's palette, seeded from image pixels and refined, lies within the least and greatest pixel value on every channel |
| KMeansSpec.LloydFailureIsFinal | pypalette/kmeans.py:53-55 | once a round divides by zero, no later round count succeeds |
| KMeans.KMeans.Refine | pypalette/kmeans.py:53-55 | the refinement loop succeeds exactly when the given number of Lloyd rounds succeeds, and then leaves their clusters |
| KMeansSpec.NearestOfCentroid | pypalette/kmeans.py:69-75 | among distinct centroids, each centroid is its own nearest centroid |
| KMeansSpec.MembersOfOwnColour | pypalette/kmeans.py:64-75 | when the distinct centroids are exactly the image's colours, each list is non-empty and holds only copies of its centroid |
| KMeansSpec.LloydRoundFixed | pypalette/kmeans.py:64-81 | such centroids are a fixed point of a round |
| KMeansSpec.LloydFixedPoint | pypalette/kmeans.py:53-55 | such centroids survive any number of rounds unchanged |
| KMeansSpec.PaletteOfDistinctColours | pypalette/kmeans.py:14-55 | with k equal to the number of distinct colours and no draw at the top, seeding picks each colour once, and the ten rounds succeed and keep those centroids: the palette is a permutation of the image's colours |
| KMeansSpec.OneClusterNeverFails | pypalette/kmeans.py:53-81 | with one cluster and a non-empty image, every pixel joins that cluster, so any number of rounds succeeds |
| KMeansSpec.OneClusterPalette | pypalette/kmeans.py:14-55 | with k = 1 the seeding adds nothing and the rounds succeed, leaving one cluster: nothing rejects k = 1 |
| KMeans.Create | pypalette/kmeans.py:14-58 | `KMeans(im, k)`: IndexError on an empty image; otherwise it succeeds exactly when the ten rounds from the seeded clusters succeed, and then holds their clusters, the image, empty weights and k counted down to 1 (k itself when k <= 1); ZeroDivisionError otherwise |
| KMeans.CreateChecked | pypalette/kmeans.py:14-18 | the constructor the tests expect: ValueError exactly when the image is empty or k < 2, checked before seeding; otherwise the same outcome as `KMeans.Create` |
| Colors.ChannelSumWithin | pypalette/kmeans.py:79-81 | a channel sum over n pixels lies between n times the channel's least and greatest values |
| Colors.ChannelSumConstant | pypalette/kmeans.py:79-81 | a channel sum over n copies of a colour is n times its channel value |
| Conversions.CheckAll | pypalette/conversions.py:26-28 | the validation loop raises ValueError with its message exactly when some value is outside [lo, hi] |
| Conversions.Cmyk2RgbCheck | pypalette/conversions.py:26-28 | cmyk2rgb raises ValueError exactly when one of the four components is outside [0, 1] |
| Conversions.CheckRgb | pypalette/conversions.py:206-208 | rgb2hex (and rgb2cmyk, rgb2hsl and rgb2hsv, lines 176-178, 239-241 and 296-298) raise ValueError exactly when a channel is outside [0, 255] |
| Conversions.CheckHueAnd | pypalette/conversions.py:79-82 | the hue test comes first and gives the hue message; only an in-range hue reaches the second test and its message |
| Conversions.Hsl2RgbCheck | pypalette/conversions.py:77-82 | hsl2rgb passes exactly when h / 60 is in [0, 6) and S and L are in [0, 1], with the hue error taking precedence |
| Conversions.Hsv2RgbCheck | pypalette/conversions.py:129-134 | hsv2rgb passes exactly when h / 60 is in [0, 6) and S and V are in [0, 1], with the hue error taking precedence |
| Conversions.Rgb2Cmyk | pypalette/conversions.py:176-190 | ValueError exactly for out-of-range input; otherwise k = 1 - max / 255, and k = 1 exactly for black |
| Conversions.Rgb2CmykBlack | pypalette/conversions.py:182-188 | black takes the zero-division fallback and gives (0, 0, 0, 1) |
| Conversions.Rgb2CmykUnitRange | pypalette/conversions.py:180-190 | every in-range input converts, with all four components in [0, 1] |
| Conversions.ZFilledHexIsPair | pypalette/conversions.py:210-214 | `hex(v)[2:].zfill(2)` is the two-digit lowercase spelling of every byte |
| Conversions.Rgb2Hex | pypalette/conversions.py:206-214 | ValueError exactly for out-of-range channels; otherwise '#' and three two-digit lowercase pairs, 7 characters |
| Conversions.Rgb2HexGrey | pypalette/conversions.py:210-214 | (128, 128, 128) is spelled "#808080" |
| Conversions.Rgb2HexGreen | pypalette/conversions.py:210-214 | (89, 216, 114) is spelled "#59d872" |
| Conversions.Rgb2HexRejects | pypalette/conversions.py:206-208 | (-1, 250, 50) and (255, 256, 0) are rejected |
| Conversions.ParseInt16Short | pypalette/conversions.py:51-53 | `int(s, 16)` of a slice of at most two characters lies in [-15, 255] |
| Conversions.ParseInt16SkipsTab | pypalette/conversions.py:51-53 | `int("\t1", 16)` skips the tab and reads 1 |
| Conversions.ParseInt16Separator | pypalette/conversions.py:51-53 | `int` does not skip the separator 0x1C: the slice is an invalid literal, quoted as `repr` spells it ('\x1c1') |
| Conversions.ParseInt16Quote | pypalette/conversions.py:51-53 | the invalid literal `'1` is quoted with double quotes in the ValueError message, as `repr` does |
| Conversions.Hex2Rgb | pypalette/conversions.py:50-53 | an empty string raises IndexError; a successful result has each channel in [-15, 255] |
| Conversions.Hex2RgbSeparator | pypalette/conversions.py:50-53 | a string starting with the separator 0x1C raises ValueError on its first slice |
| Conversions.ParseHexPair | pypalette/conversions.py:51 | `int` reads a two-digit pair back as the byte it spells |
| Conversions.Hex2RgbRoundTrip | pypalette/conversions.py:37-53 | hex2rgb(rgb2hex(c)) == c for every in-range triple |
| Conversions.Hex2RgbHashOptional | pypalette/conversions.py:50-53 | for a non-empty string that does not already start with '#', a leading '#' makes no difference to hex2rgb (outside that domain it does: "" raises IndexError but "#" ValueError, and "#abcdef" reads but "##abcdef" raises) |
| Conversions.Hex2RgbExample | pypalette/conversions.py:52-53 | "b155d2" reads as (177, 85, 210) |
| Conversions.Hex2RgbHashExample | pypalette/conversions.py:50-51 | "#b155d2" reads as (177, 85, 210) |
| PyPalette.AverageColor | pypalette/pypalette.py:5-19 | the loop sums each channel; an empty list divides by zero; otherwise the result is (mean of channel 0, mean of channel 2, mean of channel 1) |
| PyPalette.ChannelMeanWithin | pypalette/pypalette.py:15-17 | a channel mean lies between that channel's least and greatest values |
| PyPalette.FibonacciMeans | pypalette/pypalette.py:10-17 | the Fibonacci pixels have channel means 11, 18 and 29 |
| PyPalette.AverageColorFibonacci | pypalette/pypalette.py:15-19 | average_color as written returns (11, 29, 18) on the Fibonacci pixels, not (11, 18, 29) |
| PyPalette.IntendedAverageColor | pypalette/pypalette.py:5-19 | the corrected average: divides by zero exactly on the empty list, gives components in [0, 255] for in-range pixels, and puts component i inside every band that holds channel i of every pixel |
| PyPalette.MeansWithinBands | pypalette/pypalette.py:10-17 | each channel's mean lies within every band that holds that channel of every pixel |
| PyPalette.IntendedAverageColorFibonacci | pypalette/pypalette.py:5-19 | the corrected average gives (11, 18, 29) on the Fibonacci pixels |
| PyPalette.Rgb2Hex | pypalette/pypalette.py:130-135 | for in-range channels, six characters that are conversions.rgb2hex's spelling without its '#' |
| PyPalette.Rgb2HexUnchecked | pypalette/pypalette.py:130-135 | out-of-range channels are spelled, not rejected: 256 gives "100", and -1 gives "x1" |
| PyPalette.Rgb2Cmyk | pypalette/pypalette.py:113-123 | divides by zero exactly when the largest channel is 0 |
| PyPalette.Rgb2CmykBlack | pypalette/pypalette.py:118-121 | black divides by zero here, while conversions.rgb2cmyk returns (0, 0, 0, 1) |
| PyPalette.Rgb2CmykAgrees | pypalette/pypalette.py:113-123 | on every other in-range triple, the two rgb2cmyk functions agree before rounding |

## Left out

- Console output, `kmeans.main` and PIL image loading (`pypalette/kmeans.py:3-10`, `34`, `36`, `48-51`, `56-58`), as well as `pypalette.main`: these are I/O.
- Randomness. `random.choice` and `random.uniform` are parameters, and no probabilistic statement is made.
- `math.sqrt` is the parameter `root`, so the model does not compute any distance as a number. Only the order of distances and the zero distance are used.
- Floating-point arithmetic. Sums, means and CMYK components are exact integers or reals. Python's `round` on a float quotient is exact round-half-even of the rational, which agrees with the float result whenever the float quotient is exact.
- The floating-point formula bodies of `cmyk2rgb`, `hsl2rgb`, `hsv2rgb`, `rgb2hsl` and `rgb2hsv` in both files, and `round(x, prec)` to a decimal precision. Only the guards of the conversions are modelled, and of `rgb2cmyk` its exact value before rounding.
- The stubs of `pypalette.py` that return None (`hsl2rgb`, `cmyk2rgb`, `hex2rgb`).
- `get_colors` is not part of this model, because `kmeans.py` does not define it. The final centroids are read from `clusters`.
- RGBA tuples, NaN and non-integer channels. Pixels and the RGB guards (`CheckRgb`, `Conversions.Rgb2Cmyk`) take integer triples, so a fractional channel is outside the model: Python judges it by value, so (127.5, 0, 0) passes the guard and (255.5, 0, 0) raises ValueError. The hue, saturation, lightness and CMYK guards take reals.
- `int(s, 16)` is modelled for ASCII input on the two-character slices hex2rgb reads. It skips only the space and `\t\n\v\f\r`, as Python's parser does for an ASCII string (not the separators 0x1C-0x1F that `str.isspace` accepts); how Python treats Unicode whitespace in a slice holding a non-ASCII character is not modelled, and underscores between digits, non-ASCII digits and a `0x` prefix (which cannot fit before a digit in two characters) are not accepted. The ValueError message quotes the slice as `repr` does for ASCII characters; a non-ASCII character that `repr` escapes (a non-printable one) appears unescaped.
- KMeans.CreateChecked: the tests check only the exception type, so its two ValueError messages are the model's own.
- The image `[0, 0, 0]` of tests/tests.py:218 holds integers, not triples. Pixels here are triples, so the model cannot express it; in the source, `reassign_points` would fail on it when `euclid_dist` indexes an integer. The second Findings row uses a one-pixel image of triples instead.
- Aliasing. Each cluster dictionary is an immutable `Cluster` value inside the `clusters` sequence. Nothing else in the source holds a reference to those dictionaries.
- KMeans.Create: when a round fails, the source leaves the half-built object unreachable because `__init__` raises. The model therefore states nothing about the clusters after a failure.
- KMeans.KMeans.constructor: the number of draws is an input. The model requires exactly max(k - 1, 0) draws, one per seeding round.

## Findings

| source | as written | input that shows it | evidently intended | confidence | as-written member | corrected member |
|---|---|---|---|---|---|---|
| pypalette/pypalette.py:16-17 | `g_avg = b_sum / len(rgb)` and `b_avg = g_sum / len(rgb)` swap the green and blue means | the Fibonacci pixels (0,1,1), (2,3,5), (8,13,21), (34,55,89) give (11, 29, 18) | component i is the mean of channel i: (11, 18, 29) | not executed | PyPalette.AverageColorFibonacci | PyPalette.IntendedAverageColorFibonacci |
| pypalette/kmeans.py:14-18 | no check of the image before `random.choice(self.im)` | `KMeans([], 3)` raises IndexError, while tests/tests.py:213 expects ValueError | an empty image raises ValueError before seeding | not executed | KMeans.Create | KMeans.CreateChecked |
| pypalette/kmeans.py:14-19 | no check of k: `while self.k - 1 > 0` simply runs no seeding round when k <= 1 | with a pixel triple, `KMeans([(0, 0, 0)], 1)` seeds one cluster and its ten rounds succeed, while tests/tests.py:218 expects ValueError for k = 1 | k < 2 raises ValueError before seeding | not executed | KMeansSpec.OneClusterPalette | KMeans.CreateChecked |
