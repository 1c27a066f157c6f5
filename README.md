# Orbit interaction and vertex binding of the vispy scatter widget

A verified model of the two pieces of logic in `QtScatVispyWidget`, the 3D
scatter viewer of glue-vispy-viewers:

- **The orbit/interaction state machine.** The widget keeps a camera distance
  `translate` (at least 2), the orbit angles `theta` (about the z-axis) and
  `phi` (about the y-axis), a clock `timer_t` with auto-rotation speeds, the
  previous cursor position, the `is_dragging` / `is_mouse_pressed` flags, and
  the uniforms it has written to the GPU program (`u_model`, `u_view`,
  `u_size`, `u_linewidth`, `u_antialias`). The mouse and timer handlers are
  methods of the class `ScatWidget.QtScatVispyWidget` that update these
  fields in place. Each method names the fields it may change in its
  `modifies` clause. Its `ensures` gives their new values and keeps the class
  invariant `Valid()`: `translate >= 2`, the view matrix is the translation by
  `-translate`, and every written uniform agrees with the state it comes from
  (`u_size * translate == 5`, `u_view == view`, `u_model == model`).
  A model matrix `rotate(theta, z) . rotate(phi, y)` is represented by its two
  angles (`Orbit.ModelMatrix`). The initial identity matrix is
  `Rotation(0, 0)`.
- **The vertex-record builder of `set_program`.** Four data columns (x, y, z,
  mass) become `n = len(mass)` GPU records: position `(x[i], y[i], z[i])`
  (a one-value column is repeated for every record, as numpy broadcasts it),
  size `5 * cbrt(mass[i]) / 10`, foreground `(0, 0, 0, 1)`, and a background
  colour drawn per point with channels in `[0.85, 1.0)`.
  `Vertices.BuildVertices` fills a zero-initialised record array in a loop.
  It is proved equal to the specification function `Vertices.Bind`.

Modules: `Wrappers` (Option), `Orbit` (scalar formulas of the camera),
`Vertices` (records and the builder), `ScatWidget` (the widget class).

Modelling decisions:

- Floats are reals.
- Cursor positions are integer pixels.
- The cube root is a parameter `cbrt: real -> real`.
- The random background draw is a parameter `draw`. It must hold `n` colours
  in range, which is what `np.random.uniform(0.85, 1.00, (n, 4))` returns.
- The data and the four selected columns come into `SetProgram` as one
  parameter. `None` stands for "no data".
- The move handler is guarded by the *event's* drag flag (`event.is_dragging`),
  which is a parameter. The widget's own `is_dragging` field is written but
  never read.
- The exceptions the Python handlers can raise are modelled as outcomes, not
  preconditions. Each exception path leaves exactly the state the Python code
  has reached when it raises:
  - a drag-move before any press has no `prev_cursor_x` (AttributeError, after
    `is_dragging` is already set);
  - a drag-move to a zero x coordinate divides by zero before any angle
    changes;
  - a drag-move to a zero y coordinate divides by zero after `phi` has already
    turned, so `theta`, the model matrix, the cursor and `prev_timer_t` stay
    as they were. For this reason the class invariant does not claim
    `model == Rotation(theta, phi)`; the handlers that rebuild the model matrix
    state it in their own `ensures`;
  - in `set_program`, a position column that numpy cannot broadcast to `n`
    slots (a length other than `n` or 1) raises ValueError before anything is
    stored.

## Model

| member | source | states |
|---|---|---|
| ScatWidget.QtScatVispyWidget.constructor | glue_vispy_viewers/scatter/scat_vispy_widget.py:231-259 | initial state: translate 20, view translation -20, theta = phi = 0 with the identity model matrix, clock, speeds and previous angles 0, both flags false, no cursor, no bound data, no uniform written; the invariant (translate >= 2) holds |
| ScatWidget.QtScatVispyWidget.OnMouseWheel | glue_vispy_viewers/scatter/scat_vispy_widget.py:374-381 | translate becomes Zoom(old translate, delta), the view translation becomes -translate, u_view and u_size are rewritten with u_size = 5/translate in (0, 2.5]; only translate, view and the uniforms change; the invariant is preserved |
| ScatWidget.QtScatVispyWidget.OnMousePress | glue_vispy_viewers/scatter/scat_vispy_widget.py:383-386 | the previous cursor becomes the event position and is_mouse_pressed becomes true; nothing else changes |
| ScatWidget.QtScatVispyWidget.OnMouseMove | glue_vispy_viewers/scatter/scat_vispy_widget.py:388-403 | without a drag in the event nothing changes; with one, is_dragging is set, phi turns by DragTurn on x and theta by DragTurn on y, the model matrix is rebuilt from the new angles and uploaded, the cursor and prev_timer_t are recorded, translate is untouched; the missing-cursor and division-by-zero exits keep exactly what was changed before the raise |
| ScatWidget.QtScatVispyWidget.OnMouseRelease | glue_vispy_viewers/scatter/scat_vispy_widget.py:405-407 | is_dragging and is_mouse_pressed become false and nothing else changes |
| ScatWidget.QtScatVispyWidget.OnTimer | glue_vispy_viewers/scatter/scat_vispy_widget.py:350-358 | the clock advances by 1/60, theta and phi by the rotation speeds (so not at all with zero speeds), the model matrix is rebuilt and uploaded; translate and the flags never change |
| ScatWidget.QtScatVispyWidget.SetProgram | glue_vispy_viewers/scatter/scat_vispy_widget.py:301-341 | with no data nothing changes; with unbroadcastable columns nothing changes; otherwise the bound data is exactly Bind(columns, draw, cbrt), the uniforms are model, view, 5/translate, linewidth 1 and antialias 1, and the timer is started |
| ScatWidget.ScrollSession | glue_vispy_viewers/scatter/scat_vispy_widget.py:374-380 | a fresh widget scrolled in by 5 five times ends exactly at distance 2 with u_size 2.5, with angles and flags untouched (the body also asserts distance 5 and u_size 1 after the third scroll) |
| ScatWidget.DragSession | glue_vispy_viewers/scatter/scat_vispy_widget.py:383-407 | press at (100, 50), drag to (200, 100) and release give phi = theta = 90 degrees, the matching model matrix, the new cursor recorded, both flags cleared and translate still 20 |
| Orbit.Zoom | glue_vispy_viewers/scatter/scat_vispy_widget.py:375-376 | the new distance is the least value that is at least 2 and at least translate - delta (the clamp max(2, translate - delta)) |
| Orbit.PointSizeBounds | glue_vispy_viewers/scatter/scat_vispy_widget.py:380 | at any distance >= 2 the size uniform 5/translate is in (0, 2.5] and times the distance gives 5 |
| Orbit.DragTurnSpec | glue_vispy_viewers/scatter/scat_vispy_widget.py:392-395 | an angle's drag turn times the new cursor coordinate equals the displacement times 180, and the angle is unchanged exactly when that cursor coordinate is |
| Orbit.Zooms | glue_vispy_viewers/scatter/scat_vispy_widget.py:374-376 | after any non-empty sequence of wheel events the distance is at least 2, whatever it was before |
| Orbit.SumNonNegative | glue_vispy_viewers/scatter/scat_vispy_widget.py:375 | the total of non-negative wheel deltas is non-negative |
| Orbit.ZoomsInward | glue_vispy_viewers/scatter/scat_vispy_widget.py:374-376 | scrolling inwards only, the final distance is max(2, start - total delta), so a total at least the headroom lands exactly on 2 |
| Orbit.ZoomsOutward | glue_vispy_viewers/scatter/scat_vispy_widget.py:374-376 | scrolling outwards only, the clamp never acts and the distance grows by exactly the total delta |
| Orbit.ScrollScenario | glue_vispy_viewers/scatter/scat_vispy_widget.py:236 | from distance 20, three scrolls of 5 give distances 15, 10 and 5 with point sizes 1/3, 1/2 and 1 |
| Vertices.Broadcast | glue_vispy_viewers/scatter/scat_vispy_widget.py:310-312 | a column of length n gives its own i-th value, a single-value column gives that value for every slot |
| Vertices.Bind | glue_vispy_viewers/scatter/scat_vispy_widget.py:306-327 | exactly len(mass) records; record i has position (Broadcast(x, n, i), Broadcast(y, n, i), Broadcast(z, n, i)), that is x[i] for a column of n values and x[0] for a one-value column, size 5*cbrt(mass[i])/10, foreground (0,0,0,1), and the i-th drawn background, whose channels lie in [0.85, 1.0) |
| Vertices.BuildVertices | glue_vispy_viewers/scatter/scat_vispy_widget.py:306-327 | filling the preallocated record array row by row yields exactly Bind(columns, draw, cbrt) |
| Vertices.BindGeometryIgnoresDraw | glue_vispy_viewers/scatter/scat_vispy_widget.py:310-327 | binding the same columns twice gives the same positions and sizes, whatever the two colour draws |
| Vertices.SizeNonNegative | glue_vispy_viewers/scatter/scat_vispy_widget.py:316 | a real cube root of a non-negative mass gives a non-negative point size |
| Vertices.BindSizesNonNegative | glue_vispy_viewers/scatter/scat_vispy_widget.py:315-327 | for non-negative masses with a real cube root, every bound record's size is non-negative |
| Vertices.ThreeRowScenario | glue_vispy_viewers/scatter/scat_vispy_widget.py:306-327 | columns x = [0,1,2], y = z = [0,0,0], mass = [1,8,27] give points (0,0,0), (1,0,0), (2,0,0) with sizes 0.5, 1.0 and 1.5 |

## Left out

- The GLSL vertex and fragment shaders (lines 22-219): GPU code. Every
  shape function except `disc` is dead code.
- The vispy canvas, `gloo.Program`, `gloo.VertexBuffer`, `set_state`,
  `glClear`, `draw` and the `canvas.update()` redraw requests: rendering
  backend calls. The uniforms the handlers write are kept as state.
- `rotate`, `translate` and `perspective` from `vispy.util.transforms`, and
  with them `set_projection` and `on_resize`: foreign float matrix builders.
  A model matrix is kept as its two angles and a view matrix as its
  z-translation. The projection matrix is not modelled.
- The Qt widget base, the `data` property setter, the `components` property
  (it reads the option widget's combo boxes), `set_subsets` and `_refresh`:
  host user-interface plumbing or unimplemented stubs. `SetProgram` receives
  the four columns that `components` returns. The model assumes the
  selection does not change between the property's repeated reads, and
  treats an exception raised by that lookup as out of scope.
- The `app.Timer` scheduling: the event loop is not modelled. `SetProgram`
  records that the timer was started, and `OnTimer` models one tick.
- `canvas.dragging_marked`, written by the press handler and never read.
- `np.random.uniform`: replaced by a given draw whose channels are in range.
- float32/float64 rounding: all quantities are reals.
- SetProgram: does not model the NaN that numpy's `** (1./3)` gives for a
  negative mass. The cube root is an arbitrary function, and non-negative
  sizes are proved only under the premise that it is a real cube root of a
  non-negative mass (`SizeNonNegative`, `BindSizesNonNegative`).
