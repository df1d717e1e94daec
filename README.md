# Linear Matrix Lab — a Dafny model of its state and linear algebra

Linear Matrix Lab is an interactive visualiser of 2D and 3D linear maps. The
user edits an active matrix A (2x2 or 3x3, by mode), a second 2x2 matrix B,
and a list of labelled vectors per mode. The user can replace A by A x B,
transpose A, reset A, one vector or everything, read a statistics panel
(determinant, trace, Frobenius norm) and share the scene as a link whose
fragment holds an encoded snapshot that is restored on load.

This project models that logic in Dafny 4.11:

- `types.dfy` (module `Types`): the mode, `Matrix2x2` and `Matrix3x3` as sequences
  of rows, the vector records and the insight payload. Numbers are reals. The
  vectors' `label` field is called `name` here, because `label` is a Dafny keyword.
- `matrices.dfy` (module `Matrices`): the identities, the 2x2 product, both
  transposes, the statistics panel, and their algebra. The laws proved are
  involution, diagonal/trace/determinant invariance under transpose, the
  identity laws, and the determinant of a product. Pressing "A = A x B" k times
  multiplies the determinant by det(B)^k.
- `app.dfy` (module `App`): the application state as a class `AppState`, with
  one method per handler. Each handler states the whole new state as a function
  of the old one. The snapshot carried by a link is a record of optional fields
  (`Snapshot`). `Restore` is the merge rule the load-time effect follows.
- `control_panel.dfy` (module `ControlPanel`): the cell and coordinate edits
  the panel performs on the application state, the parse-or-zero rule, and
  the vector-norm bars.

The presets `INITIAL_MATRIX_2D`, `INITIAL_VECTORS_2D`, `INITIAL_MATRIX_3D` and
`INITIAL_VECTORS_3D` come from `constants.ts`, which is not part of this model.
They are the `Defaults` value the state is built from. `types.ts` is not part of
this model either. Its record shapes are read off their uses.

Behaviour worth noting:

- In 3D mode the statistics panel shows the constants det 1, trace 3, norm 0.
  No 3x3 determinant is computed.
- The shared snapshot leaves out matrix B (`App.tsx:45-51`), so a shared link
  never restores B.
- Full reset in 3D mode resets the 3x3 matrix and the 2D vector list. It keeps
  the 3D vector list.

## Model

| member | source | states |
|---|---|---|
| `Matrices.Identity2x2` | App.tsx:105 | the 2D reset matrix has 1 on the diagonal and 0 elsewhere |
| `Matrices.Identity3x3` | App.tsx:105 | the 3D reset matrix has 1 on the diagonal and 0 elsewhere |
| `Matrices.Multiply2x2` | App.tsx:76-79 | entry (i, j) of the result is row i of A times column j of B, for every i, j |
| `Matrices.Transpose2x2` | App.tsx:86 | entry (i, j) of the result is entry (j, i) of the input |
| `Matrices.Transpose3x3` | App.tsx:88-92 | entry (i, j) of the result is entry (j, i) of the input |
| `Matrices.Det2x2` | App.tsx:64 | ad - bc is 0 when the two rows are equal or either row is zero |
| `Matrices.Trace2x2` | App.tsx:65 | a + d is 2 for the identity and equals the diagonal sum of the transpose |
| `Matrices.FrobeniusSq2x2` | App.tsx:66 | the sum of squared entries under the norm's square root is nonnegative |
| `Matrices.MatrixStats` | App.tsx:61-70 | in 2D, det, trace and the squared Frobenius norm of A (a² + b² + c² + d², nonnegative); in 3D, the constant (1, 3, 0), whatever the 3x3 matrix holds (it is not an input) |
| `Matrices.Transpose2x2Involution` | App.tsx:86 | transposing a 2x2 matrix twice gives it back |
| `Matrices.Transpose3x3Involution` | App.tsx:88-92 | transposing a 3x3 matrix twice gives it back |
| `Matrices.TransposeKeepsStats` | App.tsx:64-66 | transpose keeps the diagonal, the determinant ad - bc, the trace, the squared norm and so the whole panel |
| `Matrices.Transpose3x3KeepsDiagonal` | App.tsx:88-92 | the 3x3 transpose keeps every diagonal entry |
| `Matrices.MultiplyIdentity` | App.tsx:76-79 | A x I = A and I x A = A |
| `Matrices.DetMultiply` | App.tsx:76-79 | det(A x B) = det(A) * det(B) with det as at line 64 |
| `Matrices.DetMultiplyRepeatedly` | App.tsx:72-82 | after k presses of multiply with the same B, det is det(A) * det(B)^k |
| `Matrices.MultiplyRepeatedly` | App.tsx:72-82 | k presses of multiply with the same B; one press is A x B, and any number of presses with B = I leaves A unchanged |
| `Matrices.StatsExamples` | App.tsx:61-70 | I has det 1, trace 2, squared norm 2; [[1,2],[2,4]] has det 0; [[2,0],[0,2]] has det 4, trace 4 |
| `App.Capture` | App.tsx:45-51 | the shared object has every field present (mode, A, both vector lists, the 3x3 matrix) and no B; restoring it into the same scene changes nothing |
| `App.Restore` | App.tsx:28-42 | a failed or empty decode keeps the scene; each present field replaces its value and each absent one keeps it; matrix B is always kept |
| `App.RestoreCapture` | App.tsx:45-51 | restoring a shared snapshot yields the shared scene with the current matrix B; restoring a scene's own snapshot changes nothing |
| `App.RestoreEmptyAndIdempotent` | App.tsx:33-37 | a snapshot with no field present changes nothing; restoring the same snapshot twice equals restoring it once |
| `App.AppState.constructor` | App.tsx:15-24 | 2D mode, A and B both at the 2D preset, vector lists and 3x3 matrix at their presets, no insight |
| `App.AppState.HandleMultiply` | App.tsx:72-82 | in 2D, A becomes A x B and nothing else changes; in 3D nothing changes, neither matrix |
| `App.AppState.HandleTranspose` | App.tsx:84-94 | the active matrix of the mode becomes its transpose; everything else is unchanged |
| `App.AppState.HandleResetMatrix` | App.tsx:105 | the active matrix of the mode becomes the identity of its dimension; everything else is unchanged |
| `App.AppState.HandleResetVector` | App.tsx:106-112 | the current list keeps its length, entry i becomes preset i, every other entry and the other mode's list are unchanged |
| `App.AppState.HandleResetAll` | App.tsx:167 | the active matrix becomes the identity, the 2D list its preset, the insight is cleared; the 3D list and matrix B are kept |
| `App.AppState.HandleShare` | App.tsx:44-52 | the snapshot holds mode, A, the 2D list, the 3x3 matrix and the 3D list, and not B |
| `App.AppState.RestoreFromHash` | App.tsx:28-42 | the new scene is `Restore` of the old one with the decoded fragment; an empty fragment or failed decode changes nothing |
| `ControlPanel.ParsedOrZero` | components/ControlPanel.tsx:30 | a text that parses to NaN stores 0; otherwise the parsed number is stored |
| `ControlPanel.SetEntry` | components/ControlPanel.tsx:33-34 | the copy has the same shape, the new value at (row, col) and every other entry unchanged |
| `ControlPanel.SetEntryKeepsSquare` | components/ControlPanel.tsx:33-34 | a cell edit keeps an n x n matrix n x n |
| `ControlPanel.SetEntrySameValue` | components/ControlPanel.tsx:34 | writing back a cell's own value gives the same matrix |
| `ControlPanel.WithAxis2D` | components/ControlPanel.tsx:47 | only the edited coordinate changes; the other coordinate, label and colour are kept |
| `ControlPanel.WithAxis3D` | components/ControlPanel.tsx:51 | only the edited coordinate changes; the other two, label and colour are kept |
| `ControlPanel.SquaredNorm2D` | components/ControlPanel.tsx:162 | x² + y² is nonnegative |
| `ControlPanel.SquaredNorm3D` | components/ControlPanel.tsx:162 | x² + y² + z² is nonnegative |
| `ControlPanel.BarWidth` | components/ControlPanel.tsx:170 | for a nonnegative norm, the width is min(10 * norm, 100) and lies in [0, 100] |
| `ControlPanel.BarFullIffSquaredNormAtLeast100` | components/ControlPanel.tsx:162-170 | the bar is full exactly when the squared norm is at least 100 |
| `ControlPanel.BarWidthMonotone` | components/ControlPanel.tsx:170 | a larger norm never gives a narrower bar |
| `ControlPanel.HandleMatrixChange` | components/ControlPanel.tsx:29-41 | in 2D, B (isB) or A (otherwise) gets the edited cell and the other matrix is untouched; in 3D only the 3x3 matrix changes, whatever isB is |
| `ControlPanel.HandleVectorChange` | components/ControlPanel.tsx:43-54 | the current mode's list gets the edited vector at `index`; the other list and all matrices are unchanged |
| `ControlPanel.VectorEditFrame2D` | components/ControlPanel.tsx:46-47 | a 2D vector edit keeps the list length, every other vector, and the edited vector's label and colour |
| `ControlPanel.VectorEditFrame3D` | components/ControlPanel.tsx:50-51 | a 3D vector edit keeps the list length, every other vector, and the edited vector's label and colour |

## Left out

- Rendering: all markup, styling, tabs, the canvases, and the grid toggle (`showGrid`).
- The insight request (`handleAnalyze`, the loading flag, the service call and its prompt): a network round trip to an external service. `GeminiInsights` only displays its payload. An insight is kept as an opaque value that full reset clears.
- Browser calls: base64 and JSON decoding are a function parameter of `RestoreFromHash`. Writing the fragment, copying to the clipboard and the alert in `handleShare` are I/O, so `HandleShare` only returns the snapshot. Clearing the fragment on full reset is not modelled.
- Floating point: numbers are reals. NaN, infinities and `-0` are not modelled, and `parseFloat` is abstracted as a parse that yields `None` for NaN.
- Square roots and `toFixed`: the Frobenius norm and the vector norms are stated through their squares (`Stats.normSq`, `SquaredNorm2D`, `SquaredNorm3D`). In 3D the displayed norm 0 is a squared norm of 0.
- Matrices.FrobeniusSq2x2: states only that the squared norm is nonnegative, not that it vanishes only for the zero matrix.
- App.Restore: the decoded fields are taken to have the right shapes. The source does not check them, so a wrong-shaped matrix or a mode other than '2D'/'3D' would be installed as it is.
- App.AppState.HandleResetVector: requires the index to lie within the current list and within the preset list. Past the preset list the source stores an empty object, and the panel offers a reset only for listed vectors.
- ControlPanel.HandleMatrixChange: requires row and column within the current dimension. Those are the only cells the panel offers, and a row outside fails in the source.
- ControlPanel.HandleVectorChange: requires an index within the list and, in 2D mode, the axis x or y. Those are the only fields the panel offers. The source would otherwise add a property or extend the list.
- Deep copies: Dafny sequences are values, so "the old matrix or list is not mutated" holds by construction. Aliasing of rows between the copy and the original is therefore not modelled.
- Presets (`constants.ts`, the preset buttons): table lookups whose contents are not shown. The presets enter only as the `Defaults` value.
