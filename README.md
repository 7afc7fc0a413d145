# Matrix of the SVG generator, modelled in Dafny

The SVG-to-vector-drawable generator keeps 2D transforms in a small `Matrix`
class. The class holds a 3x3 homogeneous matrix in a private nine-slot float
array, in row-major order. The model keeps it in a public `const` array field;
the constructor allocates a fresh one for every matrix:

    scaleX  skewX   transX
    skewY   scaleY  transY
    persp0  persp1  persp2

`reset`, `setValues`, `set`, `preConcat` and the post-operations overwrite that array in place. `getValues` and the string forms only read it. Operation by operation:

- `set` copies another matrix through a scratch buffer; a null argument means reset.
- `reset` writes a fixed pattern.
- `getValues` and `setValues` copy nine values out and in. A short array raises an index-out-of-bounds exception.
- `preConcat` computes `M' = M * other`.
- `postTranslate`, `postScale` and `postRotate` build a transform `T`, take a snapshot of the current matrix, multiply `T * snapshot` and copy the result back.
- `toString` and `toShortString` render the nine values as three bracketed rows.

The project has three modules:

- `Affine` (`affine.dfy`) is the algebra, on a datatype `Mat` with one field per slot. It holds:
  - the nine-slot layout;
  - the multiplication kernel `Mul`, written slot by slot like the source;
  - an independent textbook product built from row-by-column dot products;
  - the transforms the post-operations build;
  - the action of a matrix on homogeneous points;
  - the text layout.
- `SvgMatrix` (`matrix.dfy`) is the class `Matrix` over a `const slots: array<real>`, and a `StringBuilder` class. Each method changes only what its `modifies` clause names. Each method's `ensures` ties the new contents to an `Affine` function of the old contents.
- `MatrixUsage` (`usage.dfy`) holds short call sequences on the class and the values they end in.

`reset` is modelled as the code writes it: `[1, 0, 0, 1, 0, 0, 0, 0, 1]`. Slot 3 (skew Y) is 1 and slot 4 (scale Y) is 0. The comments of `reset` and `set` call this "the identity", but it is not. A new matrix starts as the true identity, so after a reset the matrix no longer equals a fresh one (`Affine.ResetIsNotIdentity`, `MatrixUsage.FreshThenReset`). The reset pattern also maps every point onto the line y = x. So a matrix that was "set to null" and then post-concatenated collapses what it transforms.

Where the source would throw `ArrayIndexOutOfBoundsException`, the model's `getValues`/`setValues` return `IndexOutOfBounds`. The array or the matrix is then left exactly as it was, since the source checks the length before writing anything.

## Model

| member | source | states |
|---|---|---|
| SvgMatrix.Matrix.constructor | SVG-Generator/src/main/java/com/android/svg/support/utils/Matrix.java:20 | a new matrix owns a fresh nine-slot array holding the identity |
| SvgMatrix.Matrix.Reset | SVG-Generator/src/main/java/com/android/svg/support/utils/Matrix.java:37-47 | all nine slots are overwritten with [1, 0, 0, 1, 0, 0, 0, 0, 1] |
| SvgMatrix.Matrix.GetValues | SVG-Generator/src/main/java/com/android/svg/support/utils/Matrix.java:126-139 | an array shorter than 9 gets the exception and stays unchanged; otherwise its first nine cells describe the matrix and the cells from index 9 on are kept; the matrix itself never changes |
| SvgMatrix.Matrix.SetValues | SVG-Generator/src/main/java/com/android/svg/support/utils/Matrix.java:147-160 | an array shorter than 9 gets the exception and the matrix stays unchanged; otherwise the matrix becomes the one its first nine cells describe; the array read from is not changed |
| SvgMatrix.Matrix.Set | SVG-Generator/src/main/java/com/android/svg/support/utils/Matrix.java:26-34 | null gives the reset pattern; otherwise the matrix takes the source's old value and the source keeps it |
| SvgMatrix.Matrix.PreConcat | SVG-Generator/src/main/java/com/android/svg/support/utils/Matrix.java:53-77 | returns true; the new matrix is old M times old other, also when other is this matrix (then it is squared); a distinct other keeps its value |
| SvgMatrix.Matrix.PostTranslate | SVG-Generator/src/main/java/com/android/svg/support/utils/Matrix.java:83-91 | returns true; the new matrix is T(dx, dy) times the old one |
| SvgMatrix.Matrix.PostScale | SVG-Generator/src/main/java/com/android/svg/support/utils/Matrix.java:97-105 | returns true; the new matrix is S(sx, sy) times the old one |
| SvgMatrix.Matrix.PostRotate | SVG-Generator/src/main/java/com/android/svg/support/utils/Matrix.java:111-122 | returns true; the new matrix is the rotation by the given sine and cosine about (px, py) times the old one |
| SvgMatrix.Matrix.ToShortStringInto | SVG-Generator/src/main/java/com/android/svg/support/utils/Matrix.java:178-188 | the builder's text grows by exactly the short form of the current matrix |
| SvgMatrix.Matrix.ToShortString | SVG-Generator/src/main/java/com/android/svg/support/utils/Matrix.java:172-176 | the result is the short form of the current matrix |
| SvgMatrix.Matrix.ToString | SVG-Generator/src/main/java/com/android/svg/support/utils/Matrix.java:162-170 | the result is "Matrix{", the short form, then "}" |
| SvgMatrix.StringBuilder.Append | SVG-Generator/src/main/java/com/android/svg/support/utils/Matrix.java:181-187 | appending adds the piece at the end of the text and changes nothing else |
| Affine.FromSlotsOfSlots | SVG-Generator/src/main/java/com/android/svg/support/utils/Matrix.java:10-18 | reading back a matrix laid out in the nine slots gives the same matrix |
| Affine.SlotsOfFromSlots | SVG-Generator/src/main/java/com/android/svg/support/utils/Matrix.java:10-18 | laying out the matrix read from a buffer gives back the buffer's first nine values |
| Affine.FromSlotsSame | SVG-Generator/src/main/java/com/android/svg/support/utils/Matrix.java:126-160 | two buffers describe the same matrix if and only if their first nine values agree |
| Affine.MulOfSlots | SVG-Generator/src/main/java/com/android/svg/support/utils/Matrix.java:56-74 | a buffer filled slot by slot with the kernel's nine sums describes the product of the two matrices read |
| Affine.MulIsProduct | SVG-Generator/src/main/java/com/android/svg/support/utils/Matrix.java:49-74 | the slot-by-slot kernel equals the row-by-column matrix product, entry by entry |
| Affine.ApplyMul | SVG-Generator/src/main/java/com/android/svg/support/utils/Matrix.java:49-74 | transforming a point by M * other is transforming it by other, then by M |
| Affine.MulAssociative | SVG-Generator/src/main/java/com/android/svg/support/utils/Matrix.java:53-122 | the kernel is associative, so a chain of pre- and post-concatenations is one product however it is grouped |
| Affine.IdentityIsUnit | SVG-Generator/src/main/java/com/android/svg/support/utils/Matrix.java:20 | the initial matrix leaves any matrix unchanged when multiplied on either side |
| Affine.ResetIsNotIdentity | SVG-Generator/src/main/java/com/android/svg/support/utils/Matrix.java:36-47 | the reset pattern differs from the identity, exactly in slots 3 and 4 |
| Affine.ResetCollapsesOntoDiagonal | SVG-Generator/src/main/java/com/android/svg/support/utils/Matrix.java:37-47 | the reset pattern sends every point (x, y, w) to (x, x, w), whereas the identity fixes it |
| Affine.ResetKeepsRowsEqual | SVG-Generator/src/main/java/com/android/svg/support/utils/Matrix.java:37-77 | after a reset, pre-concatenating anything keeps rows 0 and 1 equal |
| Affine.TranslationMoves | SVG-Generator/src/main/java/com/android/svg/support/utils/Matrix.java:85 | the translation matrix moves (x, y, w) to (x + dx w, y + dy w, w) |
| Affine.ScalingStretches | SVG-Generator/src/main/java/com/android/svg/support/utils/Matrix.java:99 | the scaling matrix maps (x, y, w) to (sx x, sy y, w) |
| Affine.RotationFixesPivot | SVG-Generator/src/main/java/com/android/svg/support/utils/Matrix.java:116 | the rotation matrix maps its pivot to itself for every sine and cosine |
| Affine.PostTranslationShiftsImage | SVG-Generator/src/main/java/com/android/svg/support/utils/Matrix.java:83-91 | after a post-translation, every point lands where it landed before, shifted by (dx, dy) |
| Affine.PostScalingScalesImage | SVG-Generator/src/main/java/com/android/svg/support/utils/Matrix.java:97-105 | after a post-scale, every point lands where it landed before, scaled by (sx, sy) |
| Affine.PostRotationKeepsPivot | SVG-Generator/src/main/java/com/android/svg/support/utils/Matrix.java:111-122 | a point the old matrix sent to the pivot is still sent to the pivot after a post-rotation |
| Affine.TranslateThenScale | SVG-Generator/src/main/java/com/android/svg/support/utils/Matrix.java:83-105 | from the identity, translating then scaling gives diagonal (sx, sy) and translation (sx dx, sy dy) |
| Affine.ScaleThenTranslate | SVG-Generator/src/main/java/com/android/svg/support/utils/Matrix.java:83-105 | from the identity, scaling then translating gives diagonal (sx, sy) and translation (dx, dy), which is the product T * S |
| Affine.AppendShortString | SVG-Generator/src/main/java/com/android/svg/support/utils/Matrix.java:178-188 | appending the nineteen pieces one at a time leaves the same text as appending the short form whole |
| Affine.IdentityShortString | SVG-Generator/src/main/java/com/android/svg/support/utils/Matrix.java:172-188 | the identity renders as the rendering of 1 on the diagonal and of 0 elsewhere, in three bracketed rows |
| Affine.ShortStringShape | SVG-Generator/src/main/java/com/android/svg/support/utils/Matrix.java:178-188 | the short form opens with '[', closes with ']', and is 18 characters longer than the nine renderings together |
| MatrixUsage.TranslatedThenScaledValues | SVG-Generator/src/main/java/com/android/svg/support/utils/Matrix.java:83-139 | a new matrix, post-translated then post-scaled, reads back as [sx, 0, sx dx, 0, sy, sy dy, 0, 0, 1] |
| MatrixUsage.TranslateTenThenDouble | SVG-Generator/src/main/java/com/android/svg/support/utils/Matrix.java:83-105 | translate(10, 0) then scale(2, 2) reads back as [2, 0, 20, 0, 2, 0, 0, 0, 1] |
| MatrixUsage.FreshThenReset | SVG-Generator/src/main/java/com/android/svg/support/utils/Matrix.java:20-47 | a new matrix reads back as the identity and, after reset, as the reset pattern, and the two differ |
| MatrixUsage.StoreThenLoad | SVG-Generator/src/main/java/com/android/svg/support/utils/Matrix.java:126-160 | nine values stored with setValues come back unchanged from getValues |
| MatrixUsage.CopyReadsBackAlike | SVG-Generator/src/main/java/com/android/svg/support/utils/Matrix.java:26-34 | after set, the source and the target read back the same nine values, namely those the source held before |
| MatrixUsage.CopyThenResetSource | SVG-Generator/src/main/java/com/android/svg/support/utils/Matrix.java:26-47 | after set, the two matrices share no storage: resetting the source leaves the target with the values it copied |

## Left out

- Floating point: the slots are exact reals. The model does not capture float rounding in the kernel or in the rotation's entries, nor NaN or infinities. The source's own comment about 16.16 fixed point concerns other implementations, not this one.
- `Math.toRadians`, `Math.sin` and `Math.cos` are passed in as the functions `sinOf` and `cosOf`, which take the angle in degrees. The rotation properties hold for every sine and cosine.
- `Float.toString`, used by `StringBuilder.append(float)`, is passed in as `fmt`. The initial capacity of 64 given to the builder has no visible effect and is not modelled.
- `printShortString` writes to a `PrintWriter`. That is output and is not modelled. Its layout is the one `ShortString` describes.
- SVGLoaderTemplateWriter.java is not part of this model.
- SvgMatrix.Matrix.PreConcat: "the other matrix keeps its value" is stated only when the two matrices do not share an array. Every Java matrix owns its private array, and the constructor here returns a fresh one.
- The exceptions of `getValues` and `setValues` become a returned `Outcome`. Nothing propagates, so the model does not capture a caller being unwound.
- SvgMatrix.Matrix.PreConcat, SvgMatrix.Matrix.GetValues, SvgMatrix.Matrix.SetValues, SvgMatrix.Matrix.ToShortStringInto: a null argument is not modelled. The parameters have non-null types, so the NullPointerException the source raises on `other`, `values` or `sb` stays outside the model. Only `set`, which handles null itself, takes a nullable matrix.
