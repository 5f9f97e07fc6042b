/** The MedidorFuerza script as an object: its own fields and the engine objects it
    drives, updated in place by one method per method of the script, plus one
    method per engine event (a frame, a sleeping change, a body moved by the
    physics, the arrow turned, a timer timing out). Each method is proved to leave
    the state that the matching function of Escena gives. */
module Medidor {
  import opened Geometria
  import opened Escena
  import Propiedades

  class MedidorFuerza {
    var scriptFlecha: Flecha
    var barraVisual: Barra
    var pelotaA: Pelota
    var pelotaB: Pelota
    var lineaA: Linea
    var lineaB: Linea
    var puntoColapso: Punto

    const velocidadOscilacion: real
    const velocidadCarga: real
    const multiplicadorFuerza: real

    var estadoActual: Estado
    var fuerzaSubiendo: bool
    var tiempoOscilacion: real
    /** One-shot timers armed by the collapse that have not timed out yet. */
    var temporizadores: nat

    function Cfg(): Config
    {
      Config(velocidadOscilacion, velocidadCarga, multiplicadorFuerza)
    }

    ghost function Snapshot(): Scene
      reads this
    {
      Scene(scriptFlecha, barraVisual, pelotaA, pelotaB, lineaA, lineaB, puntoColapso,
            estadoActual, fuerzaSubiendo, tiempoOscilacion, temporizadores)
    }

    ghost predicate Coherente()
      reads this
    {
      Propiedades.Coherente(Snapshot())
    }

    /** The node with its declared field values, followed by `_Ready`. The scene
        hands over the engine objects as the editor left them; no handler of this
        node can be connected to a body before the node exists. */
    constructor Ready(flecha: Flecha, barra: Barra, a: Pelota, b: Pelota, la: Linea, lb: Linea,
                      punto: Punto, config: Config)
      requires 0.0 <= barra.value <= barra.maxValue
      requires !a.conectada && !b.conectada
      ensures Cfg() == config
      ensures Snapshot() == Escena.Ready(Inicial(flecha, barra, a, b, la, lb, punto))
      ensures flecha.visible && Propiedades.Activa(a) && Propiedades.Activa(b) ==> Coherente()
    {
      scriptFlecha, barraVisual, pelotaA, pelotaB := flecha, barra, a, b;
      lineaA, lineaB, puntoColapso := la, lb, punto;
      velocidadOscilacion := config.velocidadOscilacion;
      velocidadCarga := config.velocidadCarga;
      multiplicadorFuerza := config.multiplicadorFuerza;
      estadoActual, fuerzaSubiendo, tiempoOscilacion, temporizadores := Apuntando, true, 0.0, 0;
      new;
      barraVisual := barraVisual.(visible := false);
      pelotaA := pelotaA.(canSleep := true);
      pelotaB := pelotaB.(canSleep := true);
      puntoColapso := puntoColapso.(visible := false);
      lineaA := lineaA.(visible := false);
      if lineaA.puntos < 2 { lineaA := lineaA.(puntos := lineaA.puntos + 2, punta := Polar(0.0, 0.0)); }
      lineaB := lineaB.(visible := false);
      if lineaB.puntos < 2 { lineaB := lineaB.(puntos := lineaB.puntos + 2, punta := Polar(0.0, 0.0)); }
      if flecha.visible && Propiedades.Activa(a) && Propiedades.Activa(b) {
        Propiedades.ReadyCoherente(flecha, barra, a, b, la, lb, punto);
      }
    }

    /** `_Process`: the confirm action (ignored while `Lanzado`) comes before the
        per-tick update of the state it leads to. */
    method Process(delta: real, pulsado: bool, seno: real)
      modifies this
      ensures Snapshot() == Escena.Process(old(Snapshot()), Cfg(), delta, pulsado, seno)
      ensures old(estadoActual) == Lanzado ==> Snapshot() == old(Snapshot())
      ensures old(Coherente()) ==> Coherente()
    {
      ghost var antes := Snapshot();
      if pulsado {
        if estadoActual != Lanzado { AvanzarEstado(); }
      }
      if estadoActual == CargandoFuerza {
        OscilarBarra(delta);
        ActualizarDibujoProyeccion();
      } else if estadoActual == EsperandoColapso {
        ProcesarMovimientoPunto(delta, seno);
      }
      if Propiedades.Coherente(antes) {
        Propiedades.ProcessConservaCoherencia(antes, Cfg(), delta, pulsado, seno);
      }
    }

    method ProcesarMovimientoPunto(delta: real, seno: real)
      modifies this
      ensures Snapshot() == Escena.ProcesarMovimientoPunto(old(Snapshot()), Cfg(), delta, seno)
      ensures -1.0 <= seno <= 1.0 ==>
        Between(pelotaA.globalPosition.x, puntoColapso.globalPosition.x, pelotaB.globalPosition.x)
        && Between(pelotaA.globalPosition.y, puntoColapso.globalPosition.y, pelotaB.globalPosition.y)
    {
      tiempoOscilacion := tiempoOscilacion + delta * velocidadOscilacion;
      var t := (seno + 1.0) / 2.0;
      puntoColapso := puntoColapso.(globalPosition := Lerp(pelotaA.globalPosition, pelotaB.globalPosition, t));
    }

    method ActualizarDibujoProyeccion()
      modifies this
      ensures Snapshot() == Escena.ActualizarDibujoProyeccion(old(Snapshot()))
      ensures lineaA.puntos >= 2 ==> lineaA.punta == Proyeccion(scriptFlecha.globalRotation, barraVisual.value).0
      ensures lineaB.puntos >= 2 ==> lineaB.punta == Proyeccion(scriptFlecha.globalRotation, barraVisual.value).1
    {
      var anguloBase := scriptFlecha.globalRotation - Pi / 2.0;
      var fuerzaActual := barraVisual.value;
      var dispersionRadianes := fuerzaActual * DispersionPorCarga;
      var largoLinea := fuerzaActual * LargoPorCarga;
      var dirA := Polar(anguloBase - dispersionRadianes + Pi, largoLinea);
      var dirB := Polar(anguloBase + dispersionRadianes + Pi, largoLinea);
      if lineaA.puntos < 2 { lineaA := lineaA.(puntos := lineaA.puntos + 1); }
      if lineaB.puntos < 2 { lineaB := lineaB.(puntos := lineaB.puntos + 1); }
      lineaA := FijarPunta(lineaA, dirA);
      lineaB := FijarPunta(lineaB, dirB);
    }

    method OscilarBarra(delta: real)
      modifies this
      ensures Snapshot() == Escena.OscilarBarra(old(Snapshot()), Cfg(), delta)
      ensures 0.0 <= barraVisual.maxValue ==> 0.0 <= barraVisual.value <= barraVisual.maxValue
    {
      var paso := PasoDeCarga(Cfg(), delta);
      if fuerzaSubiendo {
        barraVisual := FijarValor(barraVisual, barraVisual.value + paso);
        if barraVisual.value >= barraVisual.maxValue { fuerzaSubiendo := false; }
      } else {
        barraVisual := FijarValor(barraVisual, barraVisual.value - paso);
        if barraVisual.value <= 0.0 { fuerzaSubiendo := true; }
      }
    }

    method AvanzarEstado()
      modifies this
      ensures Snapshot() == Escena.AvanzarEstado(old(Snapshot()), Cfg())
    {
      if estadoActual == Apuntando {
        scriptFlecha := scriptFlecha.(activo := false);
        estadoActual := CargandoFuerza;
        barraVisual := barraVisual.(visible := true);
        lineaA := lineaA.(visible := true);
        lineaB := lineaB.(visible := true);
      } else if estadoActual == CargandoFuerza {
        estadoActual := Lanzado;
        lineaA := lineaA.(visible := false);
        lineaB := lineaB.(visible := false);
        EjecutarLanzamientoCuantico();
      } else if estadoActual == EsperandoColapso {
        EjecutarColapsoEnPunto();
      }
    }

    method EjecutarLanzamientoCuantico()
      modifies this
      ensures Snapshot() == Escena.EjecutarLanzamientoCuantico(old(Snapshot()), Cfg())
    {
      var anguloBase := scriptFlecha.rotation - Pi / 2.0;
      var fuerza := barraVisual.value * multiplicadorFuerza;
      var dispersion := barraVisual.value * DispersionPorCarga;

      pelotaA := pelotaA.(conectada := true);
      pelotaB := pelotaB.(conectada := true);

      pelotaA := pelotaA.(impulsos := pelotaA.impulsos + [Polar(anguloBase - dispersion, fuerza)]);
      pelotaB := pelotaB.(impulsos := pelotaB.impulsos + [Polar(anguloBase + dispersion, fuerza * FraccionB)]);

      barraVisual := barraVisual.(visible := false);
      scriptFlecha := scriptFlecha.(visible := false);
      ghost var esperado := Impulsos(old(scriptFlecha.rotation), old(barraVisual.value), multiplicadorFuerza);
      assert anguloBase == AnguloBase(old(scriptFlecha.rotation));
      assert dispersion == Dispersion(old(barraVisual.value));
      assert esperado.0 == Polar(anguloBase - dispersion, fuerza);
      assert esperado.1 == Polar(anguloBase + dispersion, fuerza * FraccionB);
    }

    method AlPararseLasPelotas()
      modifies this
      ensures Snapshot() == Escena.AlPararseLasPelotas(old(Snapshot()))
      ensures !(old(pelotaA.sleeping) && old(pelotaB.sleeping)) ==> Snapshot() == old(Snapshot())
    {
      if pelotaA.sleeping && pelotaB.sleeping {
        pelotaA := pelotaA.(conectada := false);
        pelotaB := pelotaB.(conectada := false);
        estadoActual := EsperandoColapso;
        puntoColapso := puntoColapso.(visible := true);
        tiempoOscilacion := 0.0;
      }
    }

    method EjecutarColapsoEnPunto()
      modifies this
      ensures Snapshot() == Escena.EjecutarColapsoEnPunto(old(Snapshot()))
    {
      estadoActual := Lanzado;
      var posicionFinal := puntoColapso.globalPosition;
      pelotaA := pelotaA.(globalPosition := posicionFinal);
      pelotaB := pelotaB.(visible := false, processMode := Disabled);
      puntoColapso := puntoColapso.(visible := false);
      temporizadores := temporizadores + 1;
    }

    /** `ReiniciarJuego`; `flechaReiniciada` is the arrow as its own `Reiniciar()`
        leaves it. */
    method ReiniciarJuego(flechaReiniciada: Flecha)
      modifies this
      ensures Snapshot() == Escena.ReiniciarJuego(old(Snapshot()), flechaReiniciada)
    {
      estadoActual := Apuntando;
      scriptFlecha := flechaReiniciada;
      scriptFlecha := scriptFlecha.(visible := true);
      barraVisual := FijarValor(barraVisual, 0.0);
      barraVisual := barraVisual.(visible := false);
      puntoColapso := puntoColapso.(visible := false);
      ResetearPelotaFisica(A);
      ResetearPelotaFisica(B);
    }

    method ResetearPelotaFisica(cual: Cual)
      modifies this
      ensures Snapshot() == ConBola(old(Snapshot()), cual, Escena.ResetearPelotaFisica(Bola(old(Snapshot()), cual)))
    {
      var pelota := if cual == A then pelotaA else pelotaB;
      pelota := pelota.(processMode := Inherit);
      pelota := pelota.(visible := true);
      pelota := pelota.(sleeping := false);
      pelota := pelota.(linearVelocity := Zero);
      pelota := pelota.(angularVelocity := 0.0);
      pelota := pelota.(globalPosition := PosicionSpawn);
      if cual == A { pelotaA := pelota; } else { pelotaB := pelota; }
    }

    // ------------------------------------------------------------ engine events

    /** The physics engine sets a body's sleeping flag; a change emits
        `SleepingStateChanged`, which runs the rest handler when it is connected. */
    method CambiarSueno(cual: Cual, dormida: bool)
      modifies this
      ensures Snapshot() == CambioSueno(old(Snapshot()), cual, dormida)
      ensures old(Coherente()) ==> Coherente()
    {
      ghost var antes := Snapshot();
      var pelota := if cual == A then pelotaA else pelotaB;
      if pelota.sleeping != dormida {
        if cual == A { pelotaA := pelotaA.(sleeping := dormida); }
        else { pelotaB := pelotaB.(sleeping := dormida); }
        if pelota.conectada { AlPararseLasPelotas(); }
      }
      if Propiedades.Coherente(antes) {
        Propiedades.SuenoConservaCoherencia(antes, cual, dormida);
      }
    }

    /** The physics engine moves a body. */
    method MoverPelota(cual: Cual, posicion: Vec, velocidad: Vec, velocidadAngular: real)
      modifies this
      ensures Snapshot() == Fisica(old(Snapshot()), cual, posicion, velocidad, velocidadAngular)
      ensures old(Coherente()) ==> Coherente()
    {
      if cual == A {
        pelotaA := pelotaA.(globalPosition := posicion, linearVelocity := velocidad,
                            angularVelocity := velocidadAngular);
      } else {
        pelotaB := pelotaB.(globalPosition := posicion, linearVelocity := velocidad,
                            angularVelocity := velocidadAngular);
      }
    }

    /** The aim collaborator turns the arrow. */
    method GirarFlecha(rotacion: real, rotacionGlobal: real)
      modifies this
      ensures Snapshot() == GiroFlecha(old(Snapshot()), rotacion, rotacionGlobal)
      ensures old(Coherente()) ==> Coherente()
    {
      scriptFlecha := scriptFlecha.(rotation := rotacion, globalRotation := rotacionGlobal);
    }

    /** One armed timer times out and calls `ReiniciarJuego`. */
    method DispararTemporizador(flechaReiniciada: Flecha)
      requires temporizadores > 0
      modifies this
      ensures Snapshot() == Temporizador(old(Snapshot()), flechaReiniciada)
      ensures old(Coherente()) ==> Coherente()
    {
      ghost var antes := Snapshot();
      temporizadores := temporizadores - 1;
      ReiniciarJuego(flechaReiniciada);
      if Propiedades.Coherente(antes) {
        Propiedades.PasoConservaCoherencia(antes, Cfg(), FinTemporizador(flechaReiniciada));
      }
    }
  }
}
