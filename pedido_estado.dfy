/**
 * The order-status service (src/services/pedidoEstadoService.ts): the
 * role policy for status transitions, the listener registry, the fan-out
 * of status events received from the server, and the sending of status
 * change requests over the socket. The socket (websocketService) is an
 * abstract transport whose outcomes are parameters.
 */
module PedidoEstado {
  import opened Common
  import opened Text

  /** CambioEstadoDTO (src/types/pedidosTypes.ts). */
  datatype CambioEstado = CambioEstado(
    pedidoId: int,
    nuevoEstadoId: int,
    empleadoId: int,
    estadoAnteriorId: Option<int>,
    nuevoEstadoNombre: Option<string>,
    error: Option<string>)

  /** EstadoApi: an order status as the server lists it. */
  datatype Estado = Estado(id: int, denominacion: string)

  /** A registered callback. Callbacks are compared by identity, which the
      handle stands for. */
  datatype Listener = Listener(handle: int)

  /** The notification shown to the user. */
  datatype Toast =
    | NoToast
    | Success(message: string)
    | Info(message: string)
    | Warning(message: string)
    | Failure(message: string)

  const TOPIC := "/topic/estado-pedidos"
  const DESTINO := "/app/cambiar-estado"

  /** The seven status names, in the order the administrator sees them. */
  const ESTADOS: seq<string> :=
    ["EN ESPERA", "EN COCINA", "EN PREPARACION", "LISTO", "FACTURADO", "EN DELIVERY", "ENTREGADO"]

  /** The transitions a restricted role may request, as (role, from, to). */
  const TRANSICIONES: set<(string, string, string)> := {
    ("CAJERO", "EN ESPERA", "EN COCINA"),
    ("CAJERO", "LISTO", "FACTURADO"),
    ("CAJERO", "LISTO", "EN DELIVERY"),
    ("CAJERO", "ENTREGADO", "FACTURADO"),
    ("COCINERO", "EN COCINA", "EN PREPARACION"),
    ("COCINERO", "EN PREPARACION", "LISTO"),
    ("DELIVERY", "EN DELIVERY", "ENTREGADO")
  }

  /** The role names, after upper-casing, that have a restricted table. */
  predicate Restringido(r: string)
  {
    r == "CAJERO" || r == "COCINERO" || r == "DELIVERY"
  }

  /** JavaScript truthiness of the `rol` argument (null and "" are falsy). */
  predicate RolPresente(rol: Option<string>)
  {
    rol.Some? && rol.value != ""
  }

  predicate EsAdmin(rol: Option<string>)
  {
    RolPresente(rol) && ToUpper(rol.value) == "ADMIN"
  }

  /** puedeRealizarCambio. */
  function PuedeRealizarCambio(actual: string, nuevo: string, rol: Option<string>): (r: bool)
    ensures !RolPresente(rol) ==> !r
    ensures EsAdmin(rol) ==> r
    ensures RolPresente(rol) && Restringido(ToUpper(rol.value)) ==>
              (r <==> (ToUpper(rol.value), actual, nuevo) in TRANSICIONES)
    ensures RolPresente(rol) && !EsAdmin(rol) && !Restringido(ToUpper(rol.value)) ==> !r
  {
    if !RolPresente(rol) then false
    else
      var upper := ToUpper(rol.value);
      if upper == "ADMIN" then true
      else if upper == "CAJERO" then
        (actual == "EN ESPERA" && nuevo == "EN COCINA")
        || (actual == "LISTO" && (nuevo == "FACTURADO" || nuevo == "EN DELIVERY"))
        || (actual == "ENTREGADO" && nuevo == "FACTURADO")
      else if upper == "COCINERO" then
        (actual == "EN COCINA" && nuevo == "EN PREPARACION")
        || (actual == "EN PREPARACION" && nuevo == "LISTO")
      else if upper == "DELIVERY" then
        actual == "EN DELIVERY" && nuevo == "ENTREGADO"
      else false
  }

  function Denominacion(e: Estado): string
  {
    e.denominacion
  }

  /** getEstadosDisponibles. */
  function GetEstadosDisponibles(actual: string, rol: Option<string>, todos: seq<Estado>): (r: seq<Estado>)
    ensures !RolPresente(rol) ==> r == []
    ensures EsAdmin(rol) ==> r == todos
    ensures RolPresente(rol) && !EsAdmin(rol) && !Restringido(ToUpper(rol.value)) ==> r == []
    ensures forall i :: 0 <= i < |r| ==> r[i] in todos
  {
    if !RolPresente(rol) then []
    else
      var upper := ToUpper(rol.value);
      if upper == "ADMIN" then todos
      else if upper == "CAJERO" then
        if actual == "EN ESPERA" then Filter(todos, (e: Estado) => e.denominacion == "EN COCINA")
        else if actual == "LISTO" then
          Filter(todos, (e: Estado) => e.denominacion == "FACTURADO" || e.denominacion == "EN DELIVERY")
        else if actual == "ENTREGADO" then Filter(todos, (e: Estado) => e.denominacion == "FACTURADO")
        else []
      else if upper == "COCINERO" then
        if actual == "EN COCINA" then Filter(todos, (e: Estado) => e.denominacion == "EN PREPARACION")
        else if actual == "EN PREPARACION" then Filter(todos, (e: Estado) => e.denominacion == "LISTO")
        else []
      else if upper == "DELIVERY" then
        if actual == "EN DELIVERY" then Filter(todos, (e: Estado) => e.denominacion == "ENTREGADO")
        else []
      else []
  }

  /** Filtering by a predicate that nothing satisfies leaves nothing. */
  lemma {:induction false} FilterNothing(s: seq<Estado>, p: Estado -> bool)
    requires forall i :: 0 <= i < |s| ==> !p(s[i])
    ensures Filter(s, p) == []
  {
    if s != [] {
      FilterNothing(s[1..], p);
    }
  }

  /** The options offered are exactly the statuses the transition table
      allows from `actual`, in the order of `todos`. */
  lemma DisponiblesSegunTabla(actual: string, rol: Option<string>, todos: seq<Estado>)
    ensures GetEstadosDisponibles(actual, rol, todos)
            == Filter(todos, (e: Estado) => PuedeRealizarCambio(actual, e.denominacion, rol))
  {
    var allowed := (e: Estado) => PuedeRealizarCambio(actual, e.denominacion, rol);
    if !RolPresente(rol) {
      FilterNothing(todos, allowed);
    } else if EsAdmin(rol) {
      FilterKeepsAll(todos, allowed);
    } else {
      var upper := ToUpper(rol.value);
      var r := GetEstadosDisponibles(actual, rol, todos);
      if upper == "CAJERO" && actual == "EN ESPERA" {
        FilterCongruent(todos, (e: Estado) => e.denominacion == "EN COCINA", allowed);
      } else if upper == "CAJERO" && actual == "LISTO" {
        FilterCongruent(todos, (e: Estado) => e.denominacion == "FACTURADO" || e.denominacion == "EN DELIVERY", allowed);
      } else if upper == "CAJERO" && actual == "ENTREGADO" {
        FilterCongruent(todos, (e: Estado) => e.denominacion == "FACTURADO", allowed);
      } else if upper == "COCINERO" && actual == "EN COCINA" {
        FilterCongruent(todos, (e: Estado) => e.denominacion == "EN PREPARACION", allowed);
      } else if upper == "COCINERO" && actual == "EN PREPARACION" {
        FilterCongruent(todos, (e: Estado) => e.denominacion == "LISTO", allowed);
      } else if upper == "DELIVERY" && actual == "EN DELIVERY" {
        FilterCongruent(todos, (e: Estado) => e.denominacion == "ENTREGADO", allowed);
      } else {
        assert r == [];
        FilterNothing(todos, allowed);
      }
    }
  }

  /** getEstadosVisibles: every status for ADMIN, the fixed list of each
      restricted role, nothing otherwise; the lists hold known statuses
      without repetition. */
  function GetEstadosVisibles(rol: Option<string>): (r: seq<string>)
    ensures !RolPresente(rol) ==> r == []
    ensures EsAdmin(rol) ==> r == ESTADOS
    ensures RolPresente(rol) && !EsAdmin(rol) && !Restringido(ToUpper(rol.value)) ==> r == []
    ensures RolPresente(rol) && ToUpper(rol.value) == "CAJERO" ==> r == ["EN ESPERA", "LISTO", "ENTREGADO", "FACTURADO"]
    ensures RolPresente(rol) && ToUpper(rol.value) == "COCINERO" ==> r == ["EN COCINA", "EN PREPARACION"]
    ensures RolPresente(rol) && ToUpper(rol.value) == "DELIVERY" ==> r == ["EN DELIVERY", "ENTREGADO"]
    ensures forall i :: 0 <= i < |r| ==> r[i] in ESTADOS
    ensures forall i, j :: 0 <= i < j < |r| ==> r[i] != r[j]
  {
    if !RolPresente(rol) then []
    else
      var upper := ToUpper(rol.value);
      if upper == "ADMIN" then ESTADOS
      else if upper == "CAJERO" then ["EN ESPERA", "LISTO", "ENTREGADO", "FACTURADO"]
      else if upper == "COCINERO" then ["EN COCINA", "EN PREPARACION"]
      else if upper == "DELIVERY" then ["EN DELIVERY", "ENTREGADO"]
      else []
  }

  /** A restricted role can see every order it is allowed to move: the
      status an allowed transition starts from is visible to that role. */
  lemma OrigenVisible(actual: string, nuevo: string, rol: Option<string>)
    requires RolPresente(rol) && !EsAdmin(rol)
    requires PuedeRealizarCambio(actual, nuevo, rol)
    ensures actual in GetEstadosVisibles(rol)
  {
    var upper := ToUpper(rol.value);
    assert (upper, actual, nuevo) in TRANSICIONES;
  }

  /** Every status named by the transition table is one the administrator
      sees. */
  lemma TablaDentroDeEstados(r: string, actual: string, nuevo: string)
    requires (r, actual, nuevo) in TRANSICIONES
    ensures actual in ESTADOS && nuevo in ESTADOS && Restringido(r)
  {
  }

  /** A role name whose length is none of "ADMIN", "CAJERO", "COCINERO"
      and "DELIVERY"'s is granted nothing and sees nothing. */
  lemma OtraLongitudSinPermisos(rol: string, actual: string, nuevo: string, todos: seq<Estado>)
    requires |rol| != 5 && |rol| != 6 && |rol| != 8
    ensures !PuedeRealizarCambio(actual, nuevo, Some(rol))
    ensures GetEstadosDisponibles(actual, Some(rol), todos) == []
    ensures GetEstadosVisibles(Some(rol)) == []
  {
    var u := ToUpper(rol);
    assert |u| == |rol|;
    assert u != "ADMIN" && !Restringido(u);
  }

  /** The administrator branch matches only "ADMIN" after upper-casing, so
      the role name "Administrador" is granted nothing and sees nothing. */
  lemma AdministradorNoEsAdmin(actual: string, nuevo: string, todos: seq<Estado>)
    ensures !PuedeRealizarCambio(actual, nuevo, Some("Administrador"))
    ensures GetEstadosDisponibles(actual, Some("Administrador"), todos) == []
    ensures GetEstadosVisibles(Some("Administrador")) == []
  {
    OtraLongitudSinPermisos("Administrador", actual, nuevo, todos);
  }

  /** Role matching ignores case: "cocinero" may move EN COCINA only to
      EN PREPARACION. */
  lemma CocineroEnCualquierCaso(todos: seq<Estado>)
    ensures GetEstadosDisponibles("EN COCINA", Some("cocinero"), todos)
            == Filter(todos, (e: Estado) => e.denominacion == "EN PREPARACION")
  {
    var u := ToUpper("cocinero");
    assert u == "COCINERO";
  }

  /** The listener list once `x` is unsubscribed: every entry identical to
      `x` is removed. */
  function Without(s: seq<Listener>, x: Listener): (r: seq<Listener>)
  {
    Filter(s, (y: Listener) => y != x)
  }

  lemma {:induction false} WithoutMembers(s: seq<Listener>, x: Listener, y: Listener)
    ensures x !in Without(s, x)
    ensures y != x ==> (y in Without(s, x) <==> y in s)
  {
    var r := Without(s, x);
    if y != x && y in s {
      var i :| 0 <= i < |s| && s[i] == y;
    }
  }

  lemma {:induction false} WithoutConcat(a: seq<Listener>, b: seq<Listener>, x: Listener)
    ensures Without(a + b, x) == Without(a, x) + Without(b, x)
  {
    FilterConcat(a, b, (y: Listener) => y != x);
  }

  /** Without leaves a list that does not hold `x` as it was. */
  lemma {:induction false} WithoutAbsent(s: seq<Listener>, x: Listener)
    requires x !in s
    ensures Without(s, x) == s
  {
    FilterKeepsAll(s, (y: Listener) => y != x);
  }

  /** Registering a new callback and calling its unsubscribe function
      restores the list: the other listeners keep their order. */
  lemma RegisterThenUnsubscribe(s: seq<Listener>, x: Listener)
    requires x !in s
    ensures Without(s + [x], x) == s
  {
    WithoutConcat(s, [x], x);
    WithoutAbsent(s, x);
    assert Without([x], x) == [];
  }

  lemma WithoutIdempotent(s: seq<Listener>, x: Listener)
    ensures Without(Without(s, x), x) == Without(s, x)
  {
    WithoutMembers(s, x, x);
    WithoutAbsent(Without(s, x), x);
  }

  /** `if (cambio.error)`: a present, non-empty error text. */
  predicate TieneError(c: CambioEstado)
  {
    c.error.Some? && c.error.value != ""
  }

  /** The text a template literal gives an optional value. */
  function TextoOpcional(s: Option<string>): string
  {
    if s.Some? then s.value else "undefined"
  }

  /** The websocket client the service uses, reduced to what the service
      observes: whether a STOMP client exists (`stompClient !== null`),
      whether that client is connected (`stompClient.connected`), whether
      the status topic has a subscription, the url and the messages sent.
      A client can exist without being connected: its socket dropped, or
      its handshake has not finished. */
  class Transport {
    var client: bool
    var connected: bool
    var subscribed: bool
    var url: string
    var sent: seq<(string, CambioEstado)>

    /** Only an existing client can be connected. */
    predicate Valid()
      reads this
    {
      connected ==> client
    }

    /** isConnected: a client exists and it is connected. */
    predicate Conectado()
      reads this
    {
      client && connected
    }

    constructor ()
      ensures Valid()
      ensures !client && !connected && !subscribed && url == "" && sent == []
    {
      client, connected, subscribed, url, sent := false, false, false, "", [];
    }

    /** connect: resolves true at once whenever a client exists, connected
        or not; otherwise records the url, creates a client and resolves
        (true) or rejects (false, dropping the client) according to
        `outcome`. */
    method Connect(serverUrl: string, outcome: bool) returns (ok: bool)
      requires Valid()
      modifies this
      ensures Valid()
      ensures old(client) ==> ok && client && connected == old(connected) && url == old(url)
      ensures !old(client) ==> ok == outcome && client == outcome && connected == outcome && url == serverUrl
      ensures subscribed == old(subscribed) && sent == old(sent)
    {
      if client {
        ok := true;
      } else {
        url := serverUrl;
        client, connected := outcome, outcome;
        ok := outcome;
      }
    }

    /** What connect does before its promise settles, when nobody awaits
        it: with no client the url is recorded and a client is created
        whose handshake has not finished, so it is not connected; with a
        client nothing changes. */
    method StartConnect(serverUrl: string)
      requires Valid()
      modifies this
      ensures Valid()
      ensures !old(client) ==> client && !connected && url == serverUrl
      ensures old(client) ==> client && connected == old(connected) && url == old(url)
      ensures subscribed == old(subscribed) && sent == old(sent)
    {
      if !client {
        url := serverUrl;
        client := true;
      }
    }

    /** The socket closes under an existing client: the client stays, no
        longer connected. Nothing in the program runs here; the library
        clears the flag. */
    method Drop()
      requires Valid()
      modifies this
      ensures Valid()
      ensures !connected && client == old(client)
      ensures subscribed == old(subscribed) && url == old(url) && sent == old(sent)
    {
      connected := false;
    }

    /** subscribe(TOPIC, ...): ignored unless connected; a second
        subscription to the topic replaces the first. */
    method Subscribe()
      requires Valid()
      modifies this
      ensures Valid()
      ensures subscribed == (old(subscribed) || old(Conectado()))
      ensures client == old(client) && connected == old(connected) && url == old(url) && sent == old(sent)
    {
      if client && connected {
        subscribed := true;
      }
    }

    method Unsubscribe()
      requires Valid()
      modifies this
      ensures Valid()
      ensures !subscribed
      ensures client == old(client) && connected == old(connected) && url == old(url) && sent == old(sent)
    {
      subscribed := false;
    }

    /** sendMessage: false unless connected; otherwise the outcome of the
        transmission, `transmitted`. */
    method Send(destination: string, body: CambioEstado, transmitted: bool) returns (ok: bool)
      requires Valid()
      modifies this
      ensures Valid()
      ensures ok == (old(Conectado()) && transmitted)
      ensures sent == if ok then old(sent) + [(destination, body)] else old(sent)
      ensures client == old(client) && connected == old(connected) && subscribed == old(subscribed) && url == old(url)
    {
      if client && connected && transmitted {
        sent := sent + [(destination, body)];
        ok := true;
      } else {
        ok := false;
      }
    }

    /** disconnect: a connected client loses every subscription and is
        dropped; a client that is not connected is left as it is. */
    method Disconnect()
      requires Valid()
      modifies this
      ensures Valid()
      ensures old(Conectado()) ==> !client && !connected && !subscribed
      ensures !old(Conectado()) ==> client == old(client) && connected == old(connected) && subscribed == old(subscribed)
      ensures url == old(url) && sent == old(sent)
    {
      if client && connected {
        subscribed := false;
        client, connected := false, false;
      }
    }
  }

  class PedidoEstadoService {
    var listeners: seq<Listener>
    var initialized: bool
    var serverUrl: string
    const transport: Transport

    constructor (t: Transport)
      ensures listeners == [] && !initialized && serverUrl == "" && transport == t
    {
      listeners, initialized, serverUrl := [], false, "";
      transport := t;
    }

    /** init: does nothing once initialised; otherwise records the url,
        connects, subscribes to the status topic and becomes initialised
        when connect resolved. With an existing client connect resolves at
        once, so a client that is not connected leaves the service
        initialised without a subscription. */
    method Init(url: string, connectOutcome: bool)
      requires transport.Valid()
      modifies this, transport
      ensures transport.Valid()
      ensures listeners == old(listeners) && transport.sent == old(transport.sent)
      ensures old(initialized) ==>
                initialized && serverUrl == old(serverUrl)
                && transport.client == old(transport.client) && transport.connected == old(transport.connected)
                && transport.subscribed == old(transport.subscribed) && transport.url == old(transport.url)
      ensures !old(initialized) ==> serverUrl == url
      ensures !old(initialized) && old(transport.client) ==>
                initialized && transport.client && transport.connected == old(transport.connected)
                && transport.url == old(transport.url)
                && transport.subscribed == (old(transport.subscribed) || old(transport.connected))
      ensures !old(initialized) && !old(transport.client) ==>
                initialized == connectOutcome
                && transport.client == connectOutcome && transport.connected == connectOutcome
                && transport.url == url
                && transport.subscribed == (old(transport.subscribed) || connectOutcome)
    {
      if initialized {
        return;
      }
      serverUrl := url;
      var ok := transport.Connect(url, connectOutcome);
      if ok {
        transport.Subscribe();
        initialized := true;
      }
    }

    /** handleStateChange: an event carrying an error reaches no listener
        and is reported; otherwise every listener receives it once, in
        registration order, and a success notice is shown. The returned
        sequence lists the listeners invoked, in order. The callbacks are
        assumed not to change the registry while they run. */
    method HandleStateChange(cambio: CambioEstado) returns (invoked: seq<Listener>, toast: Toast)
      ensures TieneError(cambio) ==> invoked == [] && toast == Failure("Error: " + cambio.error.value)
      ensures !TieneError(cambio) ==> invoked == listeners
      ensures !TieneError(cambio) ==>
                toast == Success("Pedido #" + IntToString(cambio.pedidoId) + " actualizado a "
                                 + TextoOpcional(cambio.nuevoEstadoNombre))
    {
      if TieneError(cambio) {
        return [], Failure("Error: " + cambio.error.value);
      }
      invoked := [];
      var i := 0;
      while i < |listeners|
        invariant 0 <= i <= |listeners|
        invariant invoked == listeners[..i]
      {
        invoked := invoked + [listeners[i]];
        i := i + 1;
      }
      toast := Success("Pedido #" + IntToString(cambio.pedidoId) + " actualizado a "
                       + TextoOpcional(cambio.nuevoEstadoNombre));
    }

    /** onStateChange: appends the callback. */
    method OnStateChange(callback: Listener)
      modifies this
      ensures listeners == old(listeners) + [callback]
      ensures initialized == old(initialized) && serverUrl == old(serverUrl)
    {
      listeners := listeners + [callback];
    }

    /** The function onStateChange returns: removes every registration of
        that callback. */
    method Unsubscribe(callback: Listener)
      modifies this
      ensures listeners == Without(old(listeners), callback)
      ensures initialized == old(initialized) && serverUrl == old(serverUrl)
    {
      listeners := Without(listeners, callback);
    }

    /** The request message cambiarEstado sends. */
    static function Solicitud(pedidoId: int, nuevoEstadoId: int, empleadoId: int,
                              estadoAnteriorId: Option<int>): CambioEstado
    {
      CambioEstado(pedidoId, nuevoEstadoId, empleadoId, estadoAnteriorId, None, None)
    }

    /** cambiarEstado: refuses without an employee; when not connected it
        starts a connect to the recorded url and answers false (what runs
        once that connect settles is not part of this model); otherwise
        sends the request and answers whether it was sent. */
    method CambiarEstado(pedidoId: int, nuevoEstadoId: int, empleadoId: int,
                         estadoAnteriorId: Option<int>, transmitted: bool)
      returns (enviado: bool, toast: Toast)
      requires transport.Valid()
      modifies transport
      ensures transport.Valid()
      ensures empleadoId == 0 ==>
                !enviado && transport.sent == old(transport.sent)
                && toast == Failure("No se pudo identificar al empleado")
      ensures empleadoId != 0 && !old(transport.Conectado()) ==>
                !enviado && transport.sent == old(transport.sent)
                && toast == Warning("Intentando conectar al servidor...")
      ensures empleadoId != 0 && old(transport.Conectado()) ==>
                enviado == transmitted
                && transport.sent == old(transport.sent)
                   + (if transmitted then [(DESTINO, Solicitud(pedidoId, nuevoEstadoId, empleadoId, estadoAnteriorId))] else [])
                && toast == (if transmitted then Info("Procesando cambio de estado...")
                             else Failure("Error al enviar solicitud de cambio de estado"))
      ensures empleadoId != 0 && !old(transport.client) ==>
                transport.client && !transport.connected && transport.url == serverUrl
      ensures empleadoId == 0 || old(transport.client) ==>
                transport.client == old(transport.client) && transport.url == old(transport.url)
      ensures transport.connected == old(transport.connected) && transport.subscribed == old(transport.subscribed)
    {
      if empleadoId == 0 {
        return false, Failure("No se pudo identificar al empleado");
      }
      var cambio := Solicitud(pedidoId, nuevoEstadoId, empleadoId, estadoAnteriorId);
      if !(transport.client && transport.connected) {
        transport.StartConnect(serverUrl);
        return false, Warning("Intentando conectar al servidor...");
      }
      enviado := transport.Send(DESTINO, cambio, transmitted);
      if enviado {
        toast := Info("Procesando cambio de estado...");
      } else {
        toast := Failure("Error al enviar solicitud de cambio de estado");
      }
    }

    method IsConnected() returns (c: bool)
      ensures c == (transport.client && transport.connected)
    {
      c := transport.client && transport.connected;
    }

    /** reconnect: answers what connect resolves to and subscribes again
        in that case. An existing client makes connect resolve true at
        once, without dialling, so the answer is true even when that
        client is not connected, and then no subscription is made. */
    method Reconnect(connectOutcome: bool) returns (r: bool)
      requires transport.Valid()
      modifies transport
      ensures transport.Valid()
      ensures transport.sent == old(transport.sent)
      ensures old(transport.client) ==>
                r && transport.client && transport.connected == old(transport.connected)
                && transport.url == old(transport.url)
                && transport.subscribed == (old(transport.subscribed) || old(transport.connected))
      ensures !old(transport.client) ==>
                r == connectOutcome
                && transport.client == connectOutcome && transport.connected == connectOutcome
                && transport.url == serverUrl
                && transport.subscribed == (old(transport.subscribed) || connectOutcome)
    {
      r := transport.Connect(serverUrl, connectOutcome);
      if r {
        transport.Subscribe();
      }
    }

    /** cleanup: drops the topic subscription and the client when
        connected, then forgets every listener and the initialised flag. */
    method Cleanup()
      requires transport.Valid()
      modifies this, transport
      ensures transport.Valid()
      ensures listeners == [] && !initialized && serverUrl == old(serverUrl)
      ensures old(transport.Conectado()) ==> !transport.client && !transport.connected && !transport.subscribed
      ensures !old(transport.Conectado()) ==>
                transport.client == old(transport.client) && transport.connected == old(transport.connected)
                && transport.subscribed == old(transport.subscribed)
      ensures transport.sent == old(transport.sent) && transport.url == old(transport.url)
    {
      if transport.client && transport.connected {
        transport.Unsubscribe();
        transport.Disconnect();
      }
      listeners := [];
      initialized := false;
    }
  }

  /** A client whose socket dropped: init, and then reconnect, both report
      success while the status topic has no subscription and the client
      stays disconnected. */
  method ClienteCaidoSinSuscripcion() returns (initialized: bool, reconnected: bool, subscribed: bool, connected: bool)
    ensures initialized && reconnected && !subscribed && !connected
  {
    var t := new Transport();
    var ok := t.Connect("/ws", true);
    t.Drop();
    var s := new PedidoEstadoService(t);
    s.Init("/ws", true);
    reconnected := s.Reconnect(true);
    connected := s.IsConnected();
    initialized, subscribed := s.initialized, t.subscribed;
  }

  /** A status change asked for with no client starts a connect and
      answers false; an init that follows finds the pending client,
      reports success at once and leaves the status topic unsubscribed. */
  method CambioSinClienteDejaPendiente() returns (enviado: bool, initialized: bool, subscribed: bool)
    ensures !enviado && initialized && !subscribed
  {
    var t := new Transport();
    var s := new PedidoEstadoService(t);
    var toast;
    enviado, toast := s.CambiarEstado(1, 2, 3, None, true);
    s.Init("/ws", true);
    initialized, subscribed := s.initialized, t.subscribed;
  }
}
