/** What the launch controller promises, stated over the functions of Escena:
    the effect of each confirm, the rest detector, the collapse and the reset, an
    invariant that every event preserves, and the rule that the rest detector
    fires at most once between two resets. */
module Propiedades {
  import opened Geometria
  import opened Escena

  /** Launched and still in flight: no reset is pending yet. */
  predicate EnVuelo(s: Scene)
  {
    s.estado == Lanzado && s.temporizadores == 0
  }

  /** `Lanzado` reused after a collapse: a reset is pending. */
  predicate Colapsado(s: Scene)
  {
    s.estado == Lanzado && s.temporizadores > 0
  }

  predicate Activa(p: Pelota)
  {
    p.visible && p.processMode == Inherit
  }

  predicate Descartada(p: Pelota)
  {
    !p.visible && p.processMode == Disabled
  }

  predicate AmbasDormidas(s: Scene)
  {
    s.pelotaA.sleeping && s.pelotaB.sleeping
  }

  predicate BarraEnRango(b: Barra)
  {
    0.0 <= b.value <= b.maxValue
  }

  /** The configuration the controller keeps through a whole cycle: the bar and
      both preview lines are shown exactly while charging, the marker exactly
      while awaiting the collapse, the arrow while aiming or charging; the rest
      handler is connected to both bodies exactly while in flight; at most one
      reset is pending, and only after a collapse; body B is discarded exactly
      between a collapse and the reset that follows it. */
  predicate Coherente(s: Scene)
  {
    && BarraEnRango(s.barra)
    && s.lineaA.puntos >= 2 && s.lineaB.puntos >= 2
    && s.temporizadores <= 1
    && (s.temporizadores == 1 ==> s.estado == Lanzado)
    && s.pelotaA.conectada == s.pelotaB.conectada
    && (s.pelotaA.conectada <==> EnVuelo(s))
    && (s.punto.visible <==> s.estado == EsperandoColapso)
    && (s.barra.visible <==> s.estado == CargandoFuerza)
    && (s.lineaA.visible <==> s.estado == CargandoFuerza)
    && (s.lineaB.visible <==> s.estado == CargandoFuerza)
    && (s.flecha.visible <==> (s.estado == Apuntando || s.estado == CargandoFuerza))
    && (s.estado != Apuntando ==> !s.flecha.activo)
    && Activa(s.pelotaA)
    && (if Colapsado(s) then Descartada(s.pelotaB) else Activa(s.pelotaB))
  }

  // ---------------------------------------------------------------- single operations

  /** `_Ready` on a scene whose arrow and bodies are shown and processing starts
      the controller in a coherent configuration. */
  lemma ReadyCoherente(flecha: Flecha, barra: Barra, a: Pelota, b: Pelota, la: Linea, lb: Linea, punto: Punto)
    requires BarraEnRango(barra) && !a.conectada && !b.conectada
    requires flecha.visible && Activa(a) && Activa(b)
    ensures var s := Ready(Inicial(flecha, barra, a, b, la, lb, punto));
      Coherente(s) && s.estado == Apuntando && s.fuerzaSubiendo && s.tiempoOscilacion == 0.0
      && s.lineaA.puntos >= 2 && s.lineaB.puntos >= 2 && s.pelotaA.canSleep && s.pelotaB.canSleep
  {
  }

  /** Confirm while `Apuntando`: to `CargandoFuerza`, the arrow disabled, the bar and
      both lines shown, and nothing else changes. */
  lemma ConfirmarApuntando(s: Scene, c: Config)
    requires s.estado == Apuntando
    ensures var r := AvanzarEstado(s, c);
      && r.estado == CargandoFuerza
      && r.flecha == s.flecha.(activo := false)
      && r.barra == s.barra.(visible := true)
      && r.lineaA == s.lineaA.(visible := true) && r.lineaB == s.lineaB.(visible := true)
      && r.(estado := s.estado, flecha := s.flecha, barra := s.barra, lineaA := s.lineaA, lineaB := s.lineaB) == s
  {
  }

  /** Confirm while `CargandoFuerza`: to `Lanzado`; lines, bar and arrow hidden; the
      rest handler connected to both bodies; A impulsed at base - d with the full
      force, B at base + d with 0.95 of it; nothing else changes. */
  lemma ConfirmarCargando(s: Scene, c: Config)
    requires s.estado == CargandoFuerza
    ensures var r := AvanzarEstado(s, c);
      var (ia, ib) := Impulsos(s.flecha.rotation, s.barra.value, c.multiplicadorFuerza);
      && r.estado == Lanzado
      && !r.lineaA.visible && !r.lineaB.visible && !r.barra.visible && !r.flecha.visible
      && r.pelotaA.conectada && r.pelotaB.conectada
      && r.pelotaA.impulsos == s.pelotaA.impulsos + [ia]
      && r.pelotaB.impulsos == s.pelotaB.impulsos + [ib]
      && ia.angle == AnguloBase(s.flecha.rotation) - s.barra.value * DispersionPorCarga
      && ib.angle == AnguloBase(s.flecha.rotation) + s.barra.value * DispersionPorCarga
      && ia.length == s.barra.value * c.multiplicadorFuerza && ib.length == FraccionB * ia.length
      && r.(estado := s.estado, lineaA := s.lineaA, lineaB := s.lineaB, barra := s.barra,
            flecha := s.flecha, pelotaA := s.pelotaA, pelotaB := s.pelotaB) == s
      && r.pelotaA.(conectada := s.pelotaA.conectada, impulsos := s.pelotaA.impulsos) == s.pelotaA
      && r.pelotaB.(conectada := s.pelotaB.conectada, impulsos := s.pelotaB.impulsos) == s.pelotaB
  {
  }

  /** The rest handler changes nothing unless both bodies sleep; when both do it
      disconnects itself from both, enters `EsperandoColapso`, shows the marker
      and zeroes the oscillation time. */
  lemma DetectorDeReposo(s: Scene)
    ensures !AmbasDormidas(s) ==> AlPararseLasPelotas(s) == s
    ensures AmbasDormidas(s) ==>
      var r := AlPararseLasPelotas(s);
      && r.estado == EsperandoColapso && r.punto.visible && r.tiempoOscilacion == 0.0
      && !r.pelotaA.conectada && !r.pelotaB.conectada
      && r.(estado := s.estado, punto := s.punto, tiempoOscilacion := s.tiempoOscilacion,
            pelotaA := s.pelotaA, pelotaB := s.pelotaB) == s
      && r.punto.globalPosition == s.punto.globalPosition
  {
  }

  /** Confirm while `EsperandoColapso`: the state is `Lanzado` again, A sits at the
      marker, B is hidden and disabled, the marker hidden, one more reset armed. */
  lemma ConfirmarEsperando(s: Scene, c: Config)
    requires s.estado == EsperandoColapso
    ensures var r := AvanzarEstado(s, c);
      && r.estado == Lanzado
      && r.pelotaA == s.pelotaA.(globalPosition := s.punto.globalPosition)
      && Descartada(r.pelotaB)
      && !r.punto.visible
      && r.temporizadores == s.temporizadores + 1
      && r.(estado := s.estado, pelotaA := s.pelotaA, pelotaB := s.pelotaB, punto := s.punto,
            temporizadores := s.temporizadores) == s
  {
  }

  /** Whatever the scene, the reset leaves the controller aiming with the arrow
      shown, the bar at 0 and hidden, the marker hidden, and both bodies shown,
      processing, awake, still and at the spawn point. */
  lemma ReinicioDejaConfiguracion(s: Scene, f: Flecha)
    ensures var r := ReiniciarJuego(s, f);
      && r.estado == Apuntando && r.flecha == f.(visible := true)
      && r.barra.value == 0.0 && !r.barra.visible && !r.punto.visible
      && (forall c: Cual :: Activa(Bola(r, c)) && !Bola(r, c).sleeping
            && Bola(r, c).linearVelocity == Zero && Bola(r, c).angularVelocity == 0.0
            && Bola(r, c).globalPosition == PosicionSpawn)
  {
  }

  /** The marker always lies between the two bodies, coordinate by coordinate. */
  lemma PuntoEnSegmento(s: Scene, c: Config, delta: real, seno: real)
    requires -1.0 <= seno <= 1.0
    ensures var r := ProcesarMovimientoPunto(s, c, delta, seno);
      var a, b := s.pelotaA.globalPosition, s.pelotaB.globalPosition;
      Between(a.x, r.punto.globalPosition.x, b.x) && Between(a.y, r.punto.globalPosition.y, b.y)
  {
  }

  /** In a frame in which confirm is pressed while charging, the launch uses the
      charge drawn by the previous frame: if the lines show the preview of the
      current charge and the arrow's rotation equals its global rotation, each
      body's impulse is its preview line reversed, scaled to the force. */
  lemma LanzamientoSigueProyeccion(s: Scene, c: Config, delta: real, seno: real)
    requires s.estado == CargandoFuerza
    requires s.flecha.rotation == s.flecha.globalRotation
    requires s.lineaA.punta == Proyeccion(s.flecha.globalRotation, s.barra.value).0
    requires s.lineaB.punta == Proyeccion(s.flecha.globalRotation, s.barra.value).1
    ensures var r := Process(s, c, delta, true, seno);
      && |r.pelotaA.impulsos| > 0 && |r.pelotaB.impulsos| > 0
      && Reversed(r.pelotaA.impulsos[|r.pelotaA.impulsos| - 1]).angle == s.lineaA.punta.angle
      && Reversed(r.pelotaB.impulsos[|r.pelotaB.impulsos| - 1]).angle == s.lineaB.punta.angle
      && r.pelotaA.impulsos[|r.pelotaA.impulsos| - 1].length * LargoPorCarga
         == s.lineaA.punta.length * c.multiplicadorFuerza
  {
  }

  // ---------------------------------------------------------------- invariants over runs

  /** Every event keeps the bar value inside [0, MaxValue]. */
  lemma PasoConservaRango(s: Scene, c: Config, e: Evento)
    requires BarraEnRango(s.barra)
    ensures BarraEnRango(Paso(s, c, e).barra)
  {
  }

  lemma {:induction false} EjecutarConservaRango(s: Scene, c: Config, eventos: seq<Evento>)
    requires BarraEnRango(s.barra)
    ensures BarraEnRango(Ejecutar(s, c, eventos).barra)
    decreases |eventos|
  {
    if eventos != [] {
      PasoConservaRango(s, c, eventos[0]);
      EjecutarConservaRango(Paso(s, c, eventos[0]), c, eventos[1..]);
    }
  }

  lemma ProcessConservaCoherencia(s: Scene, c: Config, delta: real, pulsado: bool, seno: real)
    requires Coherente(s)
    ensures Coherente(Process(s, c, delta, pulsado, seno))
  {
  }

  lemma SuenoConservaCoherencia(s: Scene, k: Cual, dormida: bool)
    requires Coherente(s)
    ensures Coherente(CambioSueno(s, k, dormida))
  {
  }

  /** Every event the engine can deliver keeps the controller coherent. */
  lemma PasoConservaCoherencia(s: Scene, c: Config, e: Evento)
    requires Coherente(s)
    ensures Coherente(Paso(s, c, e))
  {
  }

  lemma {:induction false} EjecutarConservaCoherencia(s: Scene, c: Config, eventos: seq<Evento>)
    requires Coherente(s)
    ensures Coherente(Ejecutar(s, c, eventos))
    decreases |eventos|
  {
    if eventos != [] {
      PasoConservaCoherencia(s, c, eventos[0]);
      EjecutarConservaCoherencia(Paso(s, c, eventos[0]), c, eventos[1..]);
    }
  }

  // ---------------------------------------------------------------- the rest detector fires once

  /** The event is a sleeping change on a body the handler is connected to, and
      after it both bodies sleep: the handler's body runs. */
  predicate Dispara(s: Scene, e: Evento)
  {
    e.Sueno? &&
    var p := Bola(s, e.cual);
    p.sleeping != e.dormida && p.conectada &&
    AmbasDormidas(ConBola(s, e.cual, p.(sleeping := e.dormida)))
  }

  /** How many events of the run make the rest handler transition. */
  function Avisos(s: Scene, c: Config, eventos: seq<Evento>): nat
    decreases |eventos|
  {
    if eventos == [] then 0
    else (if Dispara(s, eventos[0]) then 1 else 0) + Avisos(Paso(s, c, eventos[0]), c, eventos[1..])
  }

  /** 1 while a rest transition is still to come in this cycle, 0 once it happened. */
  function Pendientes(s: Scene): nat
  {
    if s.estado == Apuntando || s.estado == CargandoFuerza || EnVuelo(s) then 1 else 0
  }

  predicate SinTemporizador(eventos: seq<Evento>)
  {
    forall i :: 0 <= i < |eventos| ==> !eventos[i].FinTemporizador?
  }

  lemma PasoPendientes(s: Scene, c: Config, e: Evento)
    requires Coherente(s) && !e.FinTemporizador?
    ensures Pendientes(Paso(s, c, e)) + (if Dispara(s, e) then 1 else 0) <= Pendientes(s)
    ensures Dispara(s, e) ==> Paso(s, c, e).estado == EsperandoColapso
  {
  }

  /** Between two resets, however many sleeping notifications arrive and whatever
      else happens, the rest handler transitions at most once. */
  lemma {:induction false} UnAvisoPorCiclo(s: Scene, c: Config, eventos: seq<Evento>)
    requires Coherente(s) && SinTemporizador(eventos)
    ensures Avisos(s, c, eventos) <= Pendientes(s) <= 1
    decreases |eventos|
  {
    if eventos != [] {
      PasoConservaCoherencia(s, c, eventos[0]);
      PasoPendientes(s, c, eventos[0]);
      assert SinTemporizador(eventos[1..]) by {
        forall i | 0 <= i < |eventos| - 1 ensures !eventos[1..][i].FinTemporizador? {
          assert eventos[1..][i] == eventos[i + 1];
        }
      }
      UnAvisoPorCiclo(Paso(s, c, eventos[0]), c, eventos[1..]);
    }
  }

  /** After the launch, a run of sleeping notifications ends either still in flight
      with no transition, or awaiting the collapse after exactly one. */
  lemma {:induction false} SoloAvisos(s: Scene, c: Config, eventos: seq<Evento>)
    requires Coherente(s) && (EnVuelo(s) || s.estado == EsperandoColapso)
    requires forall i :: 0 <= i < |eventos| ==> eventos[i].Sueno?
    ensures var r := Ejecutar(s, c, eventos);
      && Coherente(r)
      && (s.estado == EsperandoColapso ==> r.estado == EsperandoColapso && Avisos(s, c, eventos) == 0)
      && (EnVuelo(s) ==>
            (EnVuelo(r) && Avisos(s, c, eventos) == 0)
            || (r.estado == EsperandoColapso && Avisos(s, c, eventos) == 1))
    decreases |eventos|
  {
    if eventos != [] {
      var e := eventos[0];
      var s1 := Paso(s, c, e);
      SuenoConservaCoherencia(s, e.cual, e.dormida);
      assert EnVuelo(s) && !Dispara(s, e) ==> EnVuelo(s1);
      assert Dispara(s, e) ==> s1.estado == EsperandoColapso;
      assert s.estado == EsperandoColapso ==> s1.estado == EsperandoColapso && !Dispara(s, e);
      assert forall i :: 0 <= i < |eventos[1..]| ==> eventos[1..][i].Sueno? by {
        forall i | 0 <= i < |eventos[1..]| ensures eventos[1..][i].Sueno? {
          assert eventos[1..][i] == eventos[i + 1];
        }
      }
      SoloAvisos(s1, c, eventos[1..]);
    }
  }

  /** Confirm is read before the marker moves: a confirm in the first frame after
      the rest handler fires collapses A onto the marker's position from before
      that frame, which is where the marker was when both bodies came to rest. */
  lemma ColapsoEnPrimerCuadro(s: Scene, c: Config, delta: real, seno: real)
    requires Coherente(s) && EnVuelo(s)
    requires s.pelotaA.sleeping && !s.pelotaB.sleeping
    ensures var s1 := Paso(s, c, Sueno(B, true));
      var r := Process(s1, c, delta, true, seno);
      && s1.estado == EsperandoColapso
      && r.estado == Lanzado
      && r.pelotaA.globalPosition == s1.punto.globalPosition == s.punto.globalPosition
  {
  }

  // ---------------------------------------------------------------- the timer cannot be cancelled

  /** A reset requested from outside while a timed reset is pending leaves that
      timer armed: when it fires during the next cycle it throws away the charge
      in progress and returns to `Apuntando`. */
  lemma ReinicioManualDejaTemporizador(s: Scene, c: Config, f: Flecha, g: Flecha, delta: real, seno: real)
    requires Coherente(s) && Colapsado(s)
    ensures var r1 := ReiniciarJuego(s, f);
      var r2 := Process(r1, c, delta, true, seno);
      && r1.estado == Apuntando && r1.temporizadores == 1
      && r2.estado == CargandoFuerza && r2.temporizadores == 1
      && Temporizador(r2, g).estado == Apuntando && !Temporizador(r2, g).barra.visible
  {
  }

  // ---------------------------------------------------------------- one whole cycle

  /** Aim, charge, launch, both bodies come to rest, collapse, and the timed reset. */
  lemma CicloCompleto(s: Scene, c: Config, d1: real, w1: real, d2: real, w2: real,
                      d3: real, w3: real, f: Flecha)
    requires Coherente(s) && s.estado == Apuntando
    requires !s.pelotaA.sleeping && !s.pelotaB.sleeping
    ensures
      var s1 := Paso(s, c, Cuadro(d1, true, w1));
      var s2 := Paso(s1, c, Cuadro(d2, true, w2));
      var s3 := Paso(s2, c, Sueno(A, true));
      var s4 := Paso(s3, c, Sueno(B, true));
      var s5 := Paso(s4, c, Cuadro(d3, true, w3));
      var s6 := Paso(s5, c, FinTemporizador(f));
      var imp := Impulsos(s1.flecha.rotation, s1.barra.value, c.multiplicadorFuerza);
      && s1.estado == CargandoFuerza && s1.barra.visible && s1.lineaA.visible && s1.lineaB.visible
      && !s1.flecha.activo
      && s2.estado == Lanzado && !s2.lineaA.visible && !s2.lineaB.visible
      && s2.pelotaA.impulsos == s.pelotaA.impulsos + [imp.0]
      && s2.pelotaB.impulsos == s.pelotaB.impulsos + [imp.1]
      && s3.estado == Lanzado
      && s4.estado == EsperandoColapso && s4.punto.visible
      && s5.estado == Lanzado && s5.pelotaA.globalPosition == s4.punto.globalPosition
      && Descartada(s5.pelotaB) && !s5.punto.visible && s5.temporizadores == 1
      && s6.estado == Apuntando && s6.flecha.visible && s6.temporizadores == 0
      && Activa(s6.pelotaA) && Activa(s6.pelotaB)
      && s6.pelotaA.globalPosition == PosicionSpawn && s6.pelotaB.globalPosition == PosicionSpawn
      && s6.pelotaA.linearVelocity == Zero && s6.pelotaB.linearVelocity == Zero
      && s6.pelotaA.angularVelocity == 0.0 && s6.pelotaB.angularVelocity == 0.0
      && Coherente(s6)
  {
  }
}
