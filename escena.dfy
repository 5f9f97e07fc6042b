/** The state of the MedidorFuerza script and of the engine objects it drives, as
    plain values, and one function per method of the script that gives the state
    after that method runs. The class in medidor_fuerza.dfy is proved against
    these functions; the lemmas in propiedades.dfy are stated over them. */
module Escena {
  import opened Geometria

  datatype Estado = Apuntando | CargandoFuerza | Lanzado | EsperandoColapso

  /** `Node.ProcessMode`, restricted to the two values the script writes. */
  datatype ProcessMode = Inherit | Disabled

  /** Names one of the two bodies, `PelotaA` or `PelotaB`. */
  datatype Cual = A | B

  /** What the script reads and writes of the aim collaborator `ControladorFlecha`:
      its `Activo` flag, its visibility and its two rotations (`Rotation` is read
      at launch, `GlobalRotation` by the preview). */
  datatype Flecha = Flecha(activo: bool, visible: bool, rotation: real, globalRotation: real)

  /** `BarraVisual`, a `Range` whose `MinValue` is 0. */
  datatype Barra = Barra(value: real, maxValue: real, visible: bool)

  /** A `RigidBody2D`. `conectada` says whether `AlPararseLasPelotas` is connected
      to this body's `SleepingStateChanged` signal; `impulsos` records, in order,
      the impulses passed to `ApplyImpulse`. */
  datatype Pelota = Pelota(
    visible: bool,
    processMode: ProcessMode,
    canSleep: bool,
    sleeping: bool,
    globalPosition: Vec,
    linearVelocity: Vec,
    angularVelocity: real,
    conectada: bool,
    impulsos: seq<Polar>)

  /** A preview `Line2D`: its visibility, how many points it holds, and the
      position of point 1 (the tip). */
  datatype Linea = Linea(visible: bool, puntos: nat, punta: Polar)

  /** The collapse marker `PuntoColapso`. */
  datatype Punto = Punto(visible: bool, globalPosition: Vec)

  /** The exported tuning values `VelocidadOscilacion`, `VelocidadCarga` and
      `MultiplicadorFuerza`. */
  datatype Config = Config(velocidadOscilacion: real, velocidadCarga: real, multiplicadorFuerza: real)

  /** Everything the script reads or writes. `temporizadores` counts the one-shot
      timers that are armed and will call `ReiniciarJuego`. */
  datatype Scene = Scene(
    flecha: Flecha,
    barra: Barra,
    pelotaA: Pelota,
    pelotaB: Pelota,
    lineaA: Linea,
    lineaB: Linea,
    punto: Punto,
    estado: Estado,
    fuerzaSubiendo: bool,
    tiempoOscilacion: real,
    temporizadores: nat)

  const PosicionSpawn: Vec := Vec(0.0, 0.0)
  /** Spread in radians per unit of charge. */
  const DispersionPorCarga: real := 0.008
  /** Preview line length per unit of charge. */
  const LargoPorCarga: real := 2.5
  /** Body B's share of body A's impulse. */
  const FraccionB: real := 0.95

  function Bola(s: Scene, c: Cual): Pelota
  {
    if c == A then s.pelotaA else s.pelotaB
  }

  function ConBola(s: Scene, c: Cual, p: Pelota): (r: Scene)
    ensures Bola(r, c) == p
  {
    if c == A then s.(pelotaA := p) else s.(pelotaB := p)
  }

  // ---------------------------------------------------------------- engine objects

  /** The `Range.Value` setter of the engine: it clamps the new value into
      [MinValue, MaxValue], the upper bound first, with `MinValue` 0. */
  function FijarValor(b: Barra, v: real): (r: Barra)
    ensures r.maxValue == b.maxValue && r.visible == b.visible
    ensures 0.0 <= b.maxValue ==> 0.0 <= r.value <= r.maxValue
    ensures 0.0 <= v <= b.maxValue ==> r.value == v
    ensures v > b.maxValue >= 0.0 ==> r.value == b.maxValue
    ensures v < 0.0 ==> r.value == 0.0
  {
    var bajoMaximo := if v > b.maxValue then b.maxValue else v;
    b.(value := if bajoMaximo < 0.0 then 0.0 else bajoMaximo)
  }

  /** `Line2D.AddPoint(Vector2.Zero)` when the line holds fewer than two points. */
  function AgregarPuntoSiFalta(l: Linea): Linea
  {
    if l.puntos < 2 then l.(puntos := l.puntos + 1) else l
  }

  /** `Line2D.SetPointPosition(1, p)`: the engine ignores an index out of range. */
  function FijarPunta(l: Linea, p: Polar): Linea
  {
    if l.puntos >= 2 then l.(punta := p) else l
  }

  // ---------------------------------------------------------------- launch arithmetic

  /** The fire direction: the arrow's rotation turned back a quarter revolution. */
  function AnguloBase(rotacion: real): real
  {
    rotacion - Pi / 2.0
  }

  function Dispersion(carga: real): real
  {
    carga * DispersionPorCarga
  }

  /** The impulses of `EjecutarLanzamientoCuantico` for bodies A and B. They are
      mirrored about the base angle, and B's magnitude is 0.95 of A's. */
  function Impulsos(rotacion: real, carga: real, multiplicador: real): (r: (Polar, Polar))
    ensures r.0.length == carga * multiplicador
    ensures r.1.length == FraccionB * r.0.length
    ensures r.0.angle + r.1.angle == 2.0 * AnguloBase(rotacion)
    ensures r.1.angle - r.0.angle == 2.0 * carga * DispersionPorCarga
  {
    var base := AnguloBase(rotacion);
    var fuerza := carga * multiplicador;
    var d := Dispersion(carga);
    (Polar(base - d, fuerza), Polar(base + d, fuerza * FraccionB))
  }

  /** The tips that `ActualizarDibujoProyeccion` gives lines A and B: the launch
      directions of A and B reversed, with length `carga * 2.5`. */
  function Proyeccion(rotacionGlobal: real, carga: real): (r: (Polar, Polar))
    ensures r.0.length == r.1.length == carga * LargoPorCarga
    ensures r.0.angle == Reversed(Impulsos(rotacionGlobal, carga, 0.0).0).angle
    ensures r.1.angle == Reversed(Impulsos(rotacionGlobal, carga, 0.0).1).angle
  {
    var base := AnguloBase(rotacionGlobal);
    var d := Dispersion(carga);
    var largo := carga * LargoPorCarga;
    (Polar(base - d + Pi, largo), Polar(base + d + Pi, largo))
  }

  /** One step of the charge oscillator on the bar value and the direction flag. */
  function Oscilacion(b: Barra, subiendo: bool, paso: real): (r: (Barra, bool))
    ensures r.0.maxValue == b.maxValue && r.0.visible == b.visible
    ensures 0.0 <= b.maxValue ==> 0.0 <= r.0.value <= r.0.maxValue
    ensures subiendo && 0.0 <= b.value + paso <= b.maxValue ==> r.0.value == b.value + paso
    ensures !subiendo && 0.0 <= b.value - paso <= b.maxValue ==> r.0.value == b.value - paso
    ensures subiendo ==> (r.1 <==> r.0.value < b.maxValue)
    ensures !subiendo ==> (r.1 <==> r.0.value <= 0.0)
    ensures subiendo && b.value + paso > b.maxValue >= 0.0 ==> r.0.value == b.maxValue && !r.1
    ensures !subiendo && b.value - paso < 0.0 <= b.maxValue ==> r.0.value == 0.0 && r.1
  {
    if subiendo then
      var nueva := FijarValor(b, b.value + paso);
      (nueva, !(nueva.value >= nueva.maxValue))
    else
      var nueva := FijarValor(b, b.value - paso);
      (nueva, nueva.value <= 0.0)
  }

  // ---------------------------------------------------------------- the script's methods

  /** The body reset of `ResetearPelotaFisica`; the transform write through the
      physics server and the deferred `GlobalPosition` write are one assignment. */
  function ResetearPelotaFisica(p: Pelota): Pelota
  {
    p.(processMode := Inherit, visible := true, sleeping := false,
       linearVelocity := Zero, angularVelocity := 0.0, globalPosition := PosicionSpawn)
  }

  /** The per-line body of the loop in `_Ready` (rendering properties left out). A
      short line gets two `Vector2.Zero` points appended, so point 1 is the zero
      vector afterwards. */
  function PrepararLinea(l: Linea): Linea
  {
    if l.puntos < 2 then l.(visible := false, puntos := l.puntos + 2, punta := Polar(0.0, 0.0))
    else l.(visible := false)
  }

  /** The script's own fields at their declared initial values, over a scene. */
  function Inicial(flecha: Flecha, barra: Barra, a: Pelota, b: Pelota, la: Linea, lb: Linea, punto: Punto): Scene
  {
    Scene(flecha, barra, a, b, la, lb, punto, Apuntando, true, 0.0, 0)
  }

  function Ready(s: Scene): Scene
  {
    s.(barra := s.barra.(visible := false),
       pelotaA := s.pelotaA.(canSleep := true),
       pelotaB := s.pelotaB.(canSleep := true),
       punto := s.punto.(visible := false),
       lineaA := PrepararLinea(s.lineaA),
       lineaB := PrepararLinea(s.lineaB))
  }

  /** How far the bar moves in one frame: `VelocidadCarga * delta`. */
  function PasoDeCarga(c: Config, delta: real): real
  {
    c.velocidadCarga * delta
  }

  function OscilarBarra(s: Scene, c: Config, delta: real): Scene
  {
    var r := Oscilacion(s.barra, s.fuerzaSubiendo, PasoDeCarga(c, delta));
    s.(barra := r.0, fuerzaSubiendo := r.1)
  }

  function ActualizarDibujoProyeccion(s: Scene): Scene
  {
    var puntas := Proyeccion(s.flecha.globalRotation, s.barra.value);
    s.(lineaA := FijarPunta(AgregarPuntoSiFalta(s.lineaA), puntas.0),
       lineaB := FijarPunta(AgregarPuntoSiFalta(s.lineaB), puntas.1))
  }

  /** `ProcesarMovimientoPunto`. `seno` is the value of `Mathf.Sin` at the updated
      oscillation time, which the model does not compute. */
  function ProcesarMovimientoPunto(s: Scene, c: Config, delta: real, seno: real): Scene
  {
    var t := (seno + 1.0) / 2.0;
    s.(tiempoOscilacion := s.tiempoOscilacion + delta * c.velocidadOscilacion,
       punto := s.punto.(globalPosition := Lerp(s.pelotaA.globalPosition, s.pelotaB.globalPosition, t)))
  }

  function EjecutarLanzamientoCuantico(s: Scene, c: Config): Scene
  {
    var impulsos := Impulsos(s.flecha.rotation, s.barra.value, c.multiplicadorFuerza);
    s.(pelotaA := s.pelotaA.(conectada := true, impulsos := s.pelotaA.impulsos + [impulsos.0]),
       pelotaB := s.pelotaB.(conectada := true, impulsos := s.pelotaB.impulsos + [impulsos.1]),
       barra := s.barra.(visible := false),
       flecha := s.flecha.(visible := false))
  }

  function AlPararseLasPelotas(s: Scene): Scene
  {
    if s.pelotaA.sleeping && s.pelotaB.sleeping then
      s.(pelotaA := s.pelotaA.(conectada := false),
         pelotaB := s.pelotaB.(conectada := false),
         estado := EsperandoColapso,
         punto := s.punto.(visible := true),
         tiempoOscilacion := 0.0)
    else
      s
  }

  function EjecutarColapsoEnPunto(s: Scene): Scene
  {
    s.(estado := Lanzado,
       pelotaA := s.pelotaA.(globalPosition := s.punto.globalPosition),
       pelotaB := s.pelotaB.(visible := false, processMode := Disabled),
       punto := s.punto.(visible := false),
       temporizadores := s.temporizadores + 1)
  }

  function AvanzarEstado(s: Scene, c: Config): Scene
  {
    match s.estado
    case Apuntando =>
      s.(flecha := s.flecha.(activo := false),
         estado := CargandoFuerza,
         barra := s.barra.(visible := true),
         lineaA := s.lineaA.(visible := true),
         lineaB := s.lineaB.(visible := true))
    case CargandoFuerza =>
      EjecutarLanzamientoCuantico(
        s.(estado := Lanzado,
           lineaA := s.lineaA.(visible := false),
           lineaB := s.lineaB.(visible := false)), c)
    case EsperandoColapso =>
      EjecutarColapsoEnPunto(s)
    case Lanzado =>
      s
  }

  /** `ReiniciarJuego`. `flechaReiniciada` is the aim collaborator as its own
      `Reiniciar()` leaves it; that method is not part of this model. */
  function ReiniciarJuego(s: Scene, flechaReiniciada: Flecha): Scene
  {
    s.(estado := Apuntando,
       flecha := flechaReiniciada.(visible := true),
       barra := FijarValor(s.barra, 0.0).(visible := false),
       punto := s.punto.(visible := false),
       pelotaA := ResetearPelotaFisica(s.pelotaA),
       pelotaB := ResetearPelotaFisica(s.pelotaB))
  }

  /** `_Process`: the confirm action first, then the per-tick update of the state
      that results. */
  function Process(s: Scene, c: Config, delta: real, pulsado: bool, seno: real): (r: Scene)
    ensures s.estado == Lanzado ==> r == s
  {
    var tras := if pulsado && s.estado != Lanzado then AvanzarEstado(s, c) else s;
    if tras.estado == CargandoFuerza then
      ActualizarDibujoProyeccion(OscilarBarra(tras, c, delta))
    else if tras.estado == EsperandoColapso then
      ProcesarMovimientoPunto(tras, c, delta, seno)
    else
      tras
  }

  // ---------------------------------------------------------------- engine events

  /** The physics engine changes one body's sleeping flag. The body emits
      `SleepingStateChanged` only when the flag actually changes, and the rest
      handler runs only when it is connected to that body. */
  function CambioSueno(s: Scene, c: Cual, dormida: bool): Scene
  {
    var p := Bola(s, c);
    if p.sleeping == dormida then s
    else
      var movida := ConBola(s, c, p.(sleeping := dormida));
      if p.conectada then AlPararseLasPelotas(movida) else movida
  }

  /** The physics engine moves one body. */
  function Fisica(s: Scene, c: Cual, posicion: Vec, velocidad: Vec, velocidadAngular: real): Scene
  {
    ConBola(s, c, Bola(s, c).(globalPosition := posicion, linearVelocity := velocidad,
                              angularVelocity := velocidadAngular))
  }

  /** The aim collaborator turns the arrow. */
  function GiroFlecha(s: Scene, rotacion: real, rotacionGlobal: real): Scene
  {
    s.(flecha := s.flecha.(rotation := rotacion, globalRotation := rotacionGlobal))
  }

  /** An armed timer times out and calls `ReiniciarJuego`. */
  function Temporizador(s: Scene, flechaReiniciada: Flecha): Scene
    requires s.temporizadores > 0
  {
    ReiniciarJuego(s.(temporizadores := s.temporizadores - 1), flechaReiniciada)
  }

  datatype Evento =
    | Cuadro(delta: real, pulsado: bool, seno: real)
    | Sueno(cual: Cual, dormida: bool)
    | Movimiento(cual: Cual, posicion: Vec, velocidad: Vec, velocidadAngular: real)
    | Giro(rotacion: real, rotacionGlobal: real)
    | FinTemporizador(flechaReiniciada: Flecha)

  /** One event. A timeout with no timer armed cannot be delivered; it changes nothing. */
  function Paso(s: Scene, c: Config, e: Evento): Scene
  {
    match e
    case Cuadro(delta, pulsado, seno) => Process(s, c, delta, pulsado, seno)
    case Sueno(cual, dormida) => CambioSueno(s, cual, dormida)
    case Movimiento(cual, pos, vel, ang) => Fisica(s, cual, pos, vel, ang)
    case Giro(rot, glob) => GiroFlecha(s, rot, glob)
    case FinTemporizador(f) => if s.temporizadores > 0 then Temporizador(s, f) else s
  }

  function Ejecutar(s: Scene, c: Config, eventos: seq<Evento>): Scene
    decreases |eventos|
  {
    if eventos == [] then s else Ejecutar(Paso(s, c, eventos[0]), c, eventos[1..])
  }
}
