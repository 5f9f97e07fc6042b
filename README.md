# MedidorFuerza: a verified model of the quantum launch controller

`MedidorFuerza` is the Godot script behind one turn of a "quantum pétanque" game.
The player aims with an arrow (`ControladorFlecha`), confirms to charge a force
meter (`BarraVisual`) that oscillates as a triangle wave, and confirms again to
launch two rigid bodies (`PelotaA`, `PelotaB`). A is launched with the full force
and B with 0.95 of it, at angles mirrored about the aim. When both bodies sleep,
a marker (`PuntoColapso`) starts to swing between them. A third confirm
"collapses" the pair: A moves to the marker, B is hidden and disabled, and a
3-second timer brings the scene back to aiming.

The script runs a four-state controller:
`Apuntando → CargandoFuerza → Lanzado → EsperandoColapso → Lanzado → (timer) → Apuntando`.
`Lanzado` has two meanings: "in flight" and "collapse done, reset pending".

## Layout

- `geometria.dfy` (module `Geometria`): 2D vectors over `real`, `Lerp`, and
  `Polar(angle, length)`, which stands for `Vector2.Right.Rotated(angle) * length`
  without computing trigonometry.
- `escena.dfy` (module `Escena`):
  - the engine objects as value records (`Flecha`, `Barra`, `Pelota`, `Linea`,
    `Punto`), with the script's own fields gathered in `Scene`;
  - one function per method of the script, giving the scene after that method;
  - the engine events (`Evento`) and a run of events (`Ejecutar`).
- `propiedades.dfy` (module `Propiedades`): the invariant `Coherente` and the
  lemmas. They cover each transition, the reset, the marker's segment, the match
  between preview and launch, preservation over any run of events, and "the rest
  detector fires at most once between two resets".
- `medidor_fuerza.dfy` (module `Medidor`): class `MedidorFuerza`.
  - Its fields mirror the script's fields and the engine objects.
  - It has one method per method of the script and one per engine event.
  - Each method updates the fields in place, as the script does.
  - Each method's `ensures` ties `Snapshot()` to the matching `Escena` function of
    the old snapshot.
  - The event methods also keep `Coherente()`.

Engine behaviour the model relies on:

- `BarraVisual` has `MinValue` 0, `Page` 0, and `AllowGreater` and `AllowLesser`
  off. Its `Value` setter then clamps to `[MinValue, MaxValue - Page]`, which is
  `[0, MaxValue]` (`Escena.FijarValor`). Line 98 of the script does not clamp by
  itself. With this assumption the bar value stays in `[0, MaxValue]`.
- The script relies on that configuration. With `AllowGreater` or `AllowLesser`
  on, the value would leave the range. With `MinValue > 0`, the test
  `Value <= 0` at line 102 would never hold: once falling, the bar would stay at
  `MinValue` for the rest of the charge. With `Page > 0`, the rising bar would
  stop at `MaxValue - Page` and the test `Value >= MaxValue` at line 99 would
  never hold. None of these configurations is modelled.
- A body emits `SleepingStateChanged` only when its sleeping flag actually
  changes. The handler runs only while it is connected to that body.
- Connecting an already connected handler leaves one connection. Disconnecting an
  unconnected handler does nothing.
- `Line2D.SetPointPosition(1, …)` on a line with fewer than two points does nothing.

What is passed in as a parameter:

- The frame's `delta`.
- Whether `ui_accept` was just pressed.
- The value of `Mathf.Sin` at the updated oscillation time (`seno`).
- The arrow as `ScriptFlecha.Reiniciar()` leaves it (`flechaReiniciada`).
- The body positions and velocities set by the physics engine.
- The arrow rotations set by the aim collaborator.

Behaviour of the script worth noting, which the model keeps:

- While charging, both preview lines and the meter are visible together
  (lines 112-113).
- The reset makes the arrow visible, but does not set `Activo` itself. Whether
  the arrow is enabled again depends only on `ControladorFlecha.Reiniciar()`,
  which is not part of this model.
- `_fuerzaSubiendo` is not reset between cycles. A cycle that ended while the bar
  was falling starts the next charge falling from 0. The clamp keeps the value at
  0 and the flag flips back to rising on that first frame.
- Confirm is handled before the per-tick update (lines 49-62). A confirm in the
  first frame after the rest handler fires therefore collapses A onto the marker
  where it stood before that frame, not where that frame would move it
  (`Propiedades.ColapsoEnPrimerCuadro`). The marker moves only while
  `EsperandoColapso` (lines 59-61) and the rest handler does not move it. So that
  position is where the marker was left in the previous cycle, or where the scene
  placed it in the first. It need not lie on the segment between the resting
  bodies: with the bodies at (0, 0) and (1, 0) and the marker left at (50, 0), A
  lands at (50, 0).

## Model

| member | source | states |
|---|---|---|
| `Medidor.MedidorFuerza.Ready` | MedidorFuerza_ControladorFlecha/src/MedidorFuerza.cs:28-45 | The node starts with its declared field values (Apuntando, rising, time 0). `_Ready` hides the bar, the marker and both lines, enables sleeping on both bodies, and gives each line at least two points. If the arrow and both bodies start shown and processing, the result is `Coherente` |
| `Medidor.MedidorFuerza.Process` | MedidorFuerza_ControladorFlecha/src/MedidorFuerza.cs:47-63 | The new state is the confirm (skipped while `Lanzado`) followed by the per-tick update of the resulting state. While `Lanzado` nothing changes. Coherence is preserved |
| `Medidor.MedidorFuerza.ProcesarMovimientoPunto` | MedidorFuerza_ControladorFlecha/src/MedidorFuerza.cs:65-75 | The oscillation time advances by `delta * VelocidadOscilacion`; the marker moves to `Lerp(A, B, (sin + 1) / 2)`. For a sine in [-1, 1] the marker lies between the two bodies on each axis |
| `Medidor.MedidorFuerza.ActualizarDibujoProyeccion` | MedidorFuerza_ControladorFlecha/src/MedidorFuerza.cs:77-92 | Adds a point to a line that has fewer than two. Sets each line's tip to the reversed launch direction for the current charge, of length `charge * 2.5` |
| `Medidor.MedidorFuerza.OscilarBarra` | MedidorFuerza_ControladorFlecha/src/MedidorFuerza.cs:94-104 | One oscillator step (`Escena.Oscilacion`) with step `VelocidadCarga * delta`; the bar value stays in `[0, MaxValue]` |
| `Medidor.MedidorFuerza.AvanzarEstado` | MedidorFuerza_ControladorFlecha/src/MedidorFuerza.cs:106-125 | The state after the transition that the current state selects: charge, launch, collapse, or nothing while `Lanzado` |
| `Medidor.MedidorFuerza.EjecutarLanzamientoCuantico` | MedidorFuerza_ControladorFlecha/src/MedidorFuerza.cs:127-141 | Connects the rest handler to both bodies, appends A's and B's impulses (`Escena.Impulsos` of `Rotation` and the charge), and hides the bar and the arrow |
| `Medidor.MedidorFuerza.AlPararseLasPelotas` | MedidorFuerza_ControladorFlecha/src/MedidorFuerza.cs:143-154 | Changes nothing unless both bodies sleep. Otherwise it disconnects from both bodies, enters `EsperandoColapso`, shows the marker and zeroes the time |
| `Medidor.MedidorFuerza.EjecutarColapsoEnPunto` | MedidorFuerza_ControladorFlecha/src/MedidorFuerza.cs:156-169 | State `Lanzado`; A at the marker's position; B hidden and `Disabled`; marker hidden; one more timer armed |
| `Medidor.MedidorFuerza.ReiniciarJuego` | MedidorFuerza_ControladorFlecha/src/MedidorFuerza.cs:171-182 | State `Apuntando`; the arrow as left by its reset, made visible; bar value 0 and hidden; marker hidden; both bodies reset |
| `Medidor.MedidorFuerza.ResetearPelotaFisica` | MedidorFuerza_ControladorFlecha/src/MedidorFuerza.cs:184-202 | Only the named body changes. It becomes `Inherit`, visible and awake, with zero linear and angular velocity, at the spawn position; its other fields are unchanged |
| `Medidor.MedidorFuerza.CambiarSueno` | MedidorFuerza_ControladorFlecha/src/MedidorFuerza.cs:133-134 | A change of one body's sleeping flag runs the rest handler exactly when the handler is connected to that body. No change emits nothing. Coherence is preserved |
| `Medidor.MedidorFuerza.MoverPelota` | MedidorFuerza_ControladorFlecha/src/MedidorFuerza.cs:74 | The physics engine moves a body (read live by the marker); only that body's position and velocities change; coherence is preserved |
| `Medidor.MedidorFuerza.GirarFlecha` | MedidorFuerza_ControladorFlecha/src/MedidorFuerza.cs:79 | The aim collaborator sets the arrow's rotations; nothing else changes; coherence is preserved |
| `Medidor.MedidorFuerza.DispararTemporizador` | MedidorFuerza_ControladorFlecha/src/MedidorFuerza.cs:168 | An armed timer times out: one fewer timer, then `ReiniciarJuego`; coherence is preserved |
| `Geometria.Lerp` | MedidorFuerza_ControladorFlecha/src/MedidorFuerza.cs:74 | For t in [0, 1] the interpolated point lies between its ends on each axis, at the first end for 0 and the second for 1 |
| `Escena.FijarValor` | MedidorFuerza_ControladorFlecha/src/MedidorFuerza.cs:98-101 | The clamping `Range.Value` setter: the result is in `[0, MaxValue]`. It equals the requested value when that is in range, MaxValue above, 0 below. Max and visibility are untouched |
| `Escena.Impulsos` | MedidorFuerza_ControladorFlecha/src/MedidorFuerza.cs:129-137 | A's magnitude is charge times `MultiplicadorFuerza`, and B's is 0.95 of A's. The two angles are mirrored about `Rotation - Pi/2` and lie `2 * charge * 0.008` apart |
| `Escena.Proyeccion` | MedidorFuerza_ControladorFlecha/src/MedidorFuerza.cs:79-85 | Both tips have length `charge * 2.5`. Their angles are the launch angles for the same rotation and charge, reversed |
| `Escena.Oscilacion` | MedidorFuerza_ControladorFlecha/src/MedidorFuerza.cs:94-104 | Rising adds the step and falling subtracts it, when the result is in range. A step that overshoots lands on the bound it crossed: MaxValue with the flag turned to falling, or 0 with the flag turned to rising. The value stays in `[0, MaxValue]`. A rising flag turns to falling exactly when the value reaches MaxValue, and a falling flag turns to rising exactly when it reaches 0 |
| `Escena.Process` | MedidorFuerza_ControladorFlecha/src/MedidorFuerza.cs:49-62 | While `Lanzado`, a frame changes nothing, whether or not confirm was pressed |
| `Propiedades.ReadyCoherente` | MedidorFuerza_ControladorFlecha/src/MedidorFuerza.cs:28-45 | `_Ready` on a scene with the arrow and both bodies shown and processing gives a coherent `Apuntando` state with lines of at least two points |
| `Propiedades.ConfirmarApuntando` | MedidorFuerza_ControladorFlecha/src/MedidorFuerza.cs:108-114 | Confirm while aiming: `CargandoFuerza`, arrow `Activo = false`, bar and both lines shown, nothing else changes |
| `Propiedades.ConfirmarCargando` | MedidorFuerza_ControladorFlecha/src/MedidorFuerza.cs:115-141 | Confirm while charging: `Lanzado`; both lines, the bar and the arrow hidden; the handler connected to both bodies. A is impulsed at base - d with the force, B at base + d with 0.95 of it. Nothing else changes |
| `Propiedades.DetectorDeReposo` | MedidorFuerza_ControladorFlecha/src/MedidorFuerza.cs:143-154 | Both directions: without both bodies asleep the handler is a no-op. With both asleep it disconnects both, enters `EsperandoColapso`, shows the marker, zeroes the time, and nothing else changes |
| `Propiedades.ConfirmarEsperando` | MedidorFuerza_ControladorFlecha/src/MedidorFuerza.cs:156-169 | Confirm while awaiting the collapse: `Lanzado`, A at the marker, B hidden and disabled, marker hidden, one timer armed, nothing else changes |
| `Propiedades.ReinicioDejaConfiguracion` | MedidorFuerza_ControladorFlecha/src/MedidorFuerza.cs:171-202 | From any scene, the reset gives: `Apuntando`; arrow visible; bar 0 and hidden; marker hidden; both bodies `Inherit`, visible and awake, still, at the spawn point |
| `Propiedades.PuntoEnSegmento` | MedidorFuerza_ControladorFlecha/src/MedidorFuerza.cs:65-75 | For any sine in [-1, 1] the marker lies between the two bodies' live positions on each axis |
| `Propiedades.LanzamientoSigueProyeccion` | MedidorFuerza_ControladorFlecha/src/MedidorFuerza.cs:129-137 | The launching frame uses the charge shown by the previous frame's preview. When `Rotation` equals `GlobalRotation`, each impulse is its preview direction reversed, with the force in place of the line length |
| `Propiedades.PasoConservaRango` | MedidorFuerza_ControladorFlecha/src/MedidorFuerza.cs:94-104 | No event takes the bar value out of `[0, MaxValue]` |
| `Propiedades.EjecutarConservaRango` | MedidorFuerza_ControladorFlecha/src/MedidorFuerza.cs:94-104 | Over any run of events the bar value stays in `[0, MaxValue]` |
| `Propiedades.ProcessConservaCoherencia` | MedidorFuerza_ControladorFlecha/src/MedidorFuerza.cs:47-63 | A frame, with or without confirm, keeps the controller coherent |
| `Propiedades.SuenoConservaCoherencia` | MedidorFuerza_ControladorFlecha/src/MedidorFuerza.cs:143-154 | A sleeping change, with or without the handler running, keeps the controller coherent |
| `Propiedades.PasoConservaCoherencia` | MedidorFuerza_ControladorFlecha/src/MedidorFuerza.cs:106-182 | Every event keeps the controller coherent (see `Coherente` below) |
| `Propiedades.EjecutarConservaCoherencia` | MedidorFuerza_ControladorFlecha/src/MedidorFuerza.cs:106-182 | Over any run of events the controller stays coherent |
| `Propiedades.PasoPendientes` | MedidorFuerza_ControladorFlecha/src/MedidorFuerza.cs:143-154 | An event other than a timeout never makes a rest transition possible again once it happened; the handler's transition enters `EsperandoColapso` |
| `Propiedades.UnAvisoPorCiclo` | MedidorFuerza_ControladorFlecha/src/MedidorFuerza.cs:143-154 | Between two resets, whatever events arrive, the rest handler transitions at most once |
| `Propiedades.SoloAvisos` | MedidorFuerza_ControladorFlecha/src/MedidorFuerza.cs:143-154 | After a launch, any number of sleeping notifications gives either no transition (still in flight) or exactly one (awaiting the collapse); once awaiting, further notifications change nothing |
| `Propiedades.ColapsoEnPrimerCuadro` | MedidorFuerza_ControladorFlecha/src/MedidorFuerza.cs:49-62 | Confirm is handled before the marker moves. A confirm in the first frame after the rest handler fires puts A at the marker's position from before that frame, where the handler left it |
| `Propiedades.ReinicioManualDejaTemporizador` | MedidorFuerza_ControladorFlecha/src/MedidorFuerza.cs:168-173 | A direct call of the public `ReiniciarJuego` during a pending reset does not cancel the timer. The timer still fires during the next charge and returns the controller to `Apuntando` |
| `Propiedades.CicloCompleto` | MedidorFuerza_ControladorFlecha/src/MedidorFuerza.cs:106-202 | Aim, charge, launch, A then B at rest, collapse, and the timeout run through the expected states. The run ends coherent in `Apuntando`, with both bodies shown, processing, at the spawn point, with zero linear and angular velocity |

`Coherente` says:

- The bar value is in `[0, MaxValue]`.
- Both lines have at least two points.
- At most one timer is armed, and only while `Lanzado`.
- The handler is connected to both bodies or to neither, and to both exactly while in flight.
- The marker is shown exactly while `EsperandoColapso`.
- The bar and both lines are shown exactly while `CargandoFuerza`.
- The arrow is shown exactly while aiming or charging, and is disabled outside `Apuntando`.
- A is shown and processing.
- B is hidden and disabled exactly between a collapse and the following reset.

## Left out

- Rendering: `TopLevel`, `ZIndex`, the lines' `GlobalPosition`, point 0 of each line, `Sprite2D` and drawing. Only visibility, point counts and the tip are modelled.
- Trigonometry: `Vector2.Rotated` is kept as the angle passed to it (`Polar`). `Mathf.Sin` is an input (`seno`), so the periodicity of the marker's parameter is not modelled.
- Floating point: all arithmetic is on `real`. The `float`/`double` conversions and single-precision rounding are not modelled. `Mathf.Pi` is the literal 3.1415927.
- `Range.Step` and `Rounded`: the bar setter is modelled as a clamp only. The rounding of `Value` to the bar's step is not modelled.
- The physics engine: how bodies fall asleep, what `ApplyImpulse` does to a body, and `ProcessMode.Disabled` stopping the simulation. Impulses are logged in `impulsos`. Sleeping changes and movements are events.
- `Medidor.MedidorFuerza.ResetearPelotaFisica`: the write through `PhysicsServer2D.BodyGetDirectState` (lines 192-200) and the deferred `GlobalPosition` write (line 201) are one assignment. The case where the direct state is null is not told apart, because the deferred write places the body at the spawn point either way.
- `Medidor.MedidorFuerza.ReiniciarJuego`: `ControladorFlecha.Reiniciar()` is not part of this model. Its effect is the parameter `flechaReiniciada`, so nothing is proved about the arrow's `Activo` or rotation after a reset.
- Input polling and the scene tree's timer: the frame's confirm is a parameter, and each armed timer is counted. The 3-second delay is not modelled; a timeout is an event.
- Engine objects are values held by the controller. Aliasing between the exported nodes (for example `PelotaA` and `PelotaB` being one node) is not modelled.
- The engine's error messages for a duplicate connection or a missing one are not modelled, only their effect on the connection.
- `VelocidadOscilacion`, `VelocidadCarga` and `MultiplicadorFuerza` are exported public fields (lines 16-19) that other code or the editor could change at run time. The model fixes them for the node's lifetime (`const` fields set once by the constructor), so a change between frames is not modelled. Their declared defaults are 4, 150 and 20.
- `_Ready`'s `foreach` over the two lines is written out once per line.
- `CanSleep` is recorded but the engine's use of it is not modelled.
