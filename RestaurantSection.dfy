/**
 * The restaurant list and its group-creation modal (`RestaurantSection` and
 * `CreateGroup`): a capacity-bounded guest list with search, add and remove, a
 * required-field check in front of a confirmation view, and the modal's
 * open/close state.
 */
module Restaurants {
  import opened Text
  import opened Seqs
  import opened Optional

  /** A person who can be invited; `esAmigo` marks the host's friends. */
  datatype Usuario = Usuario(id: int, nombre: string, esAmigo: bool, avatar: string)

  /**
   * The capacity field after `parseInt`: the empty field (falsy), a number, or text
   * that parses to NaN (truthy, yet every comparison with it is false).
   */
  datatype Capacidad = Vacia | Num(n: int) | NoNumerica

  /** A restaurant card of the page's fixed list (its floating-point rating is not modelled). */
  datatype Restaurante = Restaurante(id: int, nombre: string, direccion: string, imagen: string)

  /** The host's VIP status, a fixed `true` in the component. */
  const UsuarioEsVIP: bool := true

  /** The fixed list of friends and other users that the search runs over. */
  const ListaAmigos: seq<Usuario> := [
    Usuario(1, "Carlos Mendoza", true, "C"),
    Usuario(2, "María García", true, "M"),
    Usuario(3, "José Rodríguez", true, "J"),
    Usuario(4, "Ana Torres", true, "A"),
    Usuario(5, "Luis Fernández", true, "L"),
    Usuario(6, "Roberto Sánchez", false, "R"),
    Usuario(7, "Patricia Gómez", false, "P"),
    Usuario(8, "Daniel Vargas", false, "D")
  ]

  const Restaurantes: seq<Restaurante> := [
    Restaurante(1, "Chifa A", "Av. La Marina 456, San Miguel",
      "https://images.unsplash.com/photo-1517248135467-4c7edcad34c4?w=400&h=300&fit=crop"),
    Restaurante(2, "Chifa B", "Jr. Carabaya 789, Cercado de Lima",
      "https://images.unsplash.com/photo-1517248135467-4c7edcad34c4?w=400&h=300&fit=crop"),
    Restaurante(3, "Chifa C", "Av. Arequipa 321, Miraflores",
      "https://images.unsplash.com/photo-1517248135467-4c7edcad34c4?w=400&h=300&fit=crop"),
    Restaurante(4, "Chifa sdfrdg", "Calle Los Olivos 654, San Isidro",
      "https://images.unsplash.com/photo-1555396273-367ea4eb4db5?w=400&h=300&fit=crop")
  ]

  // ---------------------------------------------------------------------------
  // Derived values and list operations
  // ---------------------------------------------------------------------------

  /** Some invitee carries this id (`invitados.find(inv => inv.id === id)` is not undefined). */
  predicate TieneId(invitados: seq<Usuario>, id: int) {
    exists i :: 0 <= i < |invitados| && invitados[i].id == id
  }

  /** No two invitees share an id. */
  predicate IdsDistintos(s: seq<Usuario>) {
    forall i, j :: 0 <= i < j < |s| ==> s[i].id != s[j].id
  }

  /** The search filter's test for one user: name matches, not yet invited, and a friend when `soloAmigos` is set. */
  predicate Coincide(u: Usuario, busqueda: string, invitados: seq<Usuario>, soloAmigos: bool) {
    Includes(ToLower(u.nombre), ToLower(busqueda)) && !TieneId(invitados, u.id) && (soloAmigos ==> u.esAmigo)
  }

  /**
   * `usuariosFiltrados`: the users of `lista`, in their order, whose lower-cased name
   * contains the lower-cased search, who are not invited yet, and who are friends
   * when `soloAmigos` is set; every such user of `lista` is in it.
   */
  function UsuariosFiltrados(lista: seq<Usuario>, busqueda: string, invitados: seq<Usuario>, soloAmigos: bool): (r: seq<Usuario>)
    ensures IsSubsequence(r, lista)
    ensures forall i :: 0 <= i < |r| ==>
      Includes(ToLower(r[i].nombre), ToLower(busqueda)) && !TieneId(invitados, r[i].id) && (soloAmigos ==> r[i].esAmigo)
    ensures forall u :: u in r <==> u in lista && Coincide(u, busqueda, invitados, soloAmigos)
  {
    var p := (u: Usuario) => Coincide(u, busqueda, invitados, soloAmigos);
    FilterMembers(p, lista);
    Filter(p, lista)
  }

  /** The second `usuariosFiltrados` declaration of the component: search and not-yet-invited only. */
  function UsuariosFiltradosBusqueda(lista: seq<Usuario>, busqueda: string, invitados: seq<Usuario>): (r: seq<Usuario>)
    ensures IsSubsequence(r, lista)
    ensures forall u :: u in r <==> u in lista && Includes(ToLower(u.nombre), ToLower(busqueda)) && !TieneId(invitados, u.id)
  {
    var p := (u: Usuario) => Includes(ToLower(u.nombre), ToLower(busqueda)) && !TieneId(invitados, u.id);
    FilterMembers(p, lista);
    Filter(p, lista)
  }

  /** The two declarations agree once the friends-only box is unticked. */
  lemma FiltrosCoincidenSinSoloAmigos(lista: seq<Usuario>, busqueda: string, invitados: seq<Usuario>)
    ensures UsuariosFiltradosBusqueda(lista, busqueda, invitados) == UsuariosFiltrados(lista, busqueda, invitados, false)
  {
    FilterAgree((u: Usuario) => Includes(ToLower(u.nombre), ToLower(busqueda)) && !TieneId(invitados, u.id),
                (u: Usuario) => Coincide(u, busqueda, invitados, false), lista);
  }

  /** An empty search hides nobody: every user not yet invited (and a friend, if required) is listed. */
  lemma BusquedaVaciaMuestraTodos(lista: seq<Usuario>, invitados: seq<Usuario>, soloAmigos: bool, u: Usuario)
    requires u in lista && !TieneId(invitados, u.id) && (soloAmigos ==> u.esAmigo)
    ensures u in UsuariosFiltrados(lista, "", invitados, soloAmigos)
  {
    IncludesEmpty(ToLower(u.nombre));
    assert ToLower("") == "";
  }

  /**
   * `eliminarInvitado`'s list: every invitee with this id is dropped, the others are
   * kept in their order, and an absent id changes nothing.
   */
  function SinId(invitados: seq<Usuario>, id: int): (r: seq<Usuario>)
    ensures forall i :: 0 <= i < |r| ==> r[i].id != id
    ensures IsSubsequence(r, invitados)
    ensures forall u :: u in r <==> u in invitados && u.id != id
    ensures !TieneId(invitados, id) ==> r == invitados
  {
    var p := (inv: Usuario) => inv.id != id;
    FilterMembers(p, invitados);
    Filter(p, invitados)
  }

  /** A sub-list of a list without repeated ids has none either. */
  lemma {:induction false} SubsequenceKeepsIdsDistinct(a: seq<Usuario>, b: seq<Usuario>)
    requires IsSubsequence(a, b) && IdsDistintos(b)
    ensures IdsDistintos(a)
    decreases |b|
  {
    if a != [] {
      assert IdsDistintos(b[1..]) by {
        forall i, j | 0 <= i < j < |b| - 1 ensures b[1..][i].id != b[1..][j].id {
          assert b[1..][i] == b[i + 1] && b[1..][j] == b[j + 1];
        }
      }
      if a[0] == b[0] && IsSubsequence(a[1..], b[1..]) {
        SubsequenceKeepsIdsDistinct(a[1..], b[1..]);
        SubsequenceMembers(a[1..], b[1..]);
        forall j | 0 < j < |a| ensures a[0].id != a[j].id {
          assert a[j] == a[1..][j - 1];
          assert a[j] in b[1..];
          var m :| 0 <= m < |b[1..]| && b[1..][m] == a[j];
          assert b[m + 1] == a[j];
        }
        forall i, j | 0 <= i < j < |a| ensures a[i].id != a[j].id {
          if i > 0 {
            assert a[i] == a[1..][i - 1] && a[j] == a[1..][j - 1];
          }
        }
      } else {
        SubsequenceKeepsIdsDistinct(a, b[1..]);
      }
    }
  }

  /** Removing invitees never introduces a repeated id. */
  lemma SinIdKeepsIdsDistinct(invitados: seq<Usuario>, id: int)
    requires IdsDistintos(invitados)
    ensures IdsDistintos(SinId(invitados, id))
  {
    SubsequenceKeepsIdsDistinct(SinId(invitados, id), invitados);
  }

  /** `totalPersonas`: the invitees plus the host. */
  function TotalPersonas(invitados: seq<Usuario>): nat {
    |invitados| + 1
  }

  /** `agregarInvitado`'s guard: the capacity field is empty, or the invitees are fewer than the capacity minus one. */
  predicate PuedeAgregar(capacidad: Capacidad, invitados: seq<Usuario>) {
    capacidad.Vacia? || (capacidad.Num? && |invitados| < capacidad.n - 1)
  }

  /** The disabled rule of the add buttons: a capacity is set and the group, host included, has reached it. */
  predicate AgregarDeshabilitado(capacidad: Capacidad, invitados: seq<Usuario>) {
    capacidad.Num? && TotalPersonas(invitados) >= capacidad.n
  }

  /** The group, host included, fits in the capacity when one is set. */
  predicate DentroDeCapacidad(capacidad: Capacidad, invitados: seq<Usuario>) {
    capacidad.Num? ==> TotalPersonas(invitados) <= capacidad.n
  }

  /**
   * The add buttons are disabled exactly when the add guard refuses, except for a
   * non-numeric capacity: there the buttons stay enabled and every add is refused.
   */
  lemma DeshabilitadoSiiRechazado(capacidad: Capacidad, invitados: seq<Usuario>)
    ensures !capacidad.NoNumerica? ==> (AgregarDeshabilitado(capacidad, invitados) <==> !PuedeAgregar(capacidad, invitados))
    ensures capacidad.NoNumerica? ==> !AgregarDeshabilitado(capacidad, invitados) && !PuedeAgregar(capacidad, invitados)
  {
  }

  /** `mostrarOpcionVIP`: the host is VIP and the parsed capacity exceeds five. */
  predicate MostrarOpcionVIP(esVIP: bool, capacidad: Capacidad) {
    esVIP && capacidad.Num? && capacidad.n > 5
  }

  /** The VIP badge appears exactly for a VIP host whose capacity leaves room for a fifth invitee. */
  lemma OpcionVIPSiiCabenCinco(esVIP: bool, capacidad: Capacidad, cuatro: seq<Usuario>)
    requires |cuatro| == 4
    ensures MostrarOpcionVIP(esVIP, capacidad) <==> esVIP && capacidad.Num? && PuedeAgregar(capacidad, cuatro)
  {
  }

  /** With the component's own host, who is VIP, the badge depends on the capacity alone. */
  lemma OpcionVIPDelAnfitrion(capacidad: Capacidad)
    ensures MostrarOpcionVIP(UsuarioEsVIP, capacidad) <==> capacidad.Num? && capacidad.n > 5
  {
  }

  /** `confirmarReserva`'s check: capacity, day and hour are all filled in. */
  predicate ReservaCompleta(capacidad: Capacidad, dia: string, hora: string) {
    !capacidad.Vacia? && dia != "" && hora != ""
  }

  // ---------------------------------------------------------------------------
  // The form as a value, and the events its rendered elements fire
  // ---------------------------------------------------------------------------

  /** The state of one mounted `CreateGroup`. */
  datatype Form = Form(
    invitados: seq<Usuario>,
    capacidad: Capacidad,
    dia: string,
    hora: string,
    busqueda: string,
    soloAmigos: bool,
    mostrarConfirmacion: bool)

  /** The state right after the modal mounts. */
  const FormInicial: Form := Form([], Vacia, "", "", "", false, false)

  /**
   * What the user can do. The inputs, the search results and the remove buttons exist
   * only in the form view; `OnResultado(k)` is a click on the k-th search result.
   */
  datatype Evento =
    | OnCapacidad(c: Capacidad)
    | OnDia(d: string)
    | OnHora(h: string)
    | OnBusqueda(b: string)
    | OnSoloAmigos(v: bool)
    | OnResultado(k: int)
    | OnEliminar(id: int)
    | OnContinuar
    | OnEditar

  /** The search results the form shows, out of the list of users `lista`. */
  function Resultados(lista: seq<Usuario>, f: Form): seq<Usuario> {
    UsuariosFiltrados(lista, f.busqueda, f.invitados, f.soloAmigos)
  }

  /**
   * `agregarInvitado(u)`: either `u` is appended at the end and the search is cleared,
   * with the group then inside the capacity, or nothing changes.
   */
  function Agregar(f: Form, u: Usuario): (g: Form)
    ensures PuedeAgregar(f.capacidad, f.invitados) ==>
      g == f.(invitados := f.invitados + [u], busqueda := "") && DentroDeCapacidad(g.capacidad, g.invitados)
    ensures !PuedeAgregar(f.capacidad, f.invitados) ==> g == f
  {
    if PuedeAgregar(f.capacidad, f.invitados) then f.(invitados := f.invitados + [u], busqueda := "") else f
  }

  /** `confirmarReserva`: switch to the confirmation view when the reservation is complete, else change nothing. */
  function Confirmar(f: Form): (g: Form)
    ensures g == f.(mostrarConfirmacion := g.mostrarConfirmacion)
    ensures g.mostrarConfirmacion <==> f.mostrarConfirmacion || ReservaCompleta(f.capacidad, f.dia, f.hora)
  {
    if ReservaCompleta(f.capacidad, f.dia, f.hora) then f.(mostrarConfirmacion := true) else f
  }

  /** One event on the form; an event whose element is not rendered changes nothing. */
  function Step(lista: seq<Usuario>, f: Form, e: Evento): Form {
    var enFormulario := !f.mostrarConfirmacion;
    match e
    case OnCapacidad(c) => if enFormulario then f.(capacidad := c) else f
    case OnDia(d) => if enFormulario then f.(dia := d) else f
    case OnHora(h) => if enFormulario then f.(hora := h) else f
    case OnBusqueda(b) => if enFormulario then f.(busqueda := b) else f
    case OnSoloAmigos(v) => if enFormulario then f.(soloAmigos := v) else f
    case OnResultado(k) =>
      if enFormulario && f.busqueda != "" && 0 <= k < |Resultados(lista, f)| then Agregar(f, Resultados(lista, f)[k]) else f
    case OnEliminar(id) => if enFormulario then f.(invitados := SinId(f.invitados, id)) else f
    case OnContinuar => Confirmar(f)
    case OnEditar => f.(mostrarConfirmacion := false)
  }

  /** A sequence of events, applied in order. */
  function Run(lista: seq<Usuario>, f: Form, es: seq<Evento>): Form
    decreases |es|
  {
    if es == [] then f else Run(lista, Step(lista, f, es[0]), es[1..])
  }

  /** The invariant the form keeps: no repeated invitee, and the confirmation view only for a complete reservation. */
  predicate Consistente(f: Form) {
    IdsDistintos(f.invitados) && (f.mostrarConfirmacion ==> ReservaCompleta(f.capacidad, f.dia, f.hora))
  }

  /** Adding a search result keeps the invitees free of repeated ids: results are never already invited. */
  lemma AgregarResultadoKeepsIdsDistinct(lista: seq<Usuario>, f: Form, k: int)
    requires IdsDistintos(f.invitados) && 0 <= k < |Resultados(lista, f)|
    ensures IdsDistintos(Agregar(f, Resultados(lista, f)[k]).invitados)
  {
    var u := Resultados(lista, f)[k];
    assert u in Resultados(lista, f);
    assert !TieneId(f.invitados, u.id);
    if PuedeAgregar(f.capacidad, f.invitados) {
      var s := f.invitados + [u];
      forall i, j | 0 <= i < j < |s| ensures s[i].id != s[j].id {
        if j == |s| - 1 {
          assert s[i] == f.invitados[i];
        }
      }
    }
  }

  /** Every event preserves the form's invariant. */
  lemma StepConsistente(lista: seq<Usuario>, f: Form, e: Evento)
    requires Consistente(f)
    ensures Consistente(Step(lista, f, e))
  {
    match e {
      case OnResultado(k) =>
        if !f.mostrarConfirmacion && f.busqueda != "" && 0 <= k < |Resultados(lista, f)| {
          AgregarResultadoKeepsIdsDistinct(lista, f, k);
        }
      case OnEliminar(id) =>
        SinIdKeepsIdsDistinct(f.invitados, id);
      case _ =>
    }
  }

  /** However the user goes on, a well-formed form stays well-formed: in particular no one is ever invited twice. */
  lemma {:induction false} RunConsistente(lista: seq<Usuario>, f: Form, es: seq<Evento>)
    requires Consistente(f)
    ensures Consistente(Run(lista, f, es))
    decreases |es|
  {
    if es != [] {
      StepConsistente(lista, f, es[0]);
      RunConsistente(lista, Step(lista, f, es[0]), es[1..]);
    }
  }

  /** The freshly mounted form is well-formed. */
  lemma FormInicialConsistente()
    ensures Consistente(FormInicial)
  {
  }

  /** Every event other than editing the capacity keeps the capacity and keeps the group inside it. */
  lemma StepDentroDeCapacidad(lista: seq<Usuario>, f: Form, e: Evento)
    requires !e.OnCapacidad? && DentroDeCapacidad(f.capacidad, f.invitados)
    ensures Step(lista, f, e).capacidad == f.capacidad
    ensures DentroDeCapacidad(Step(lista, f, e).capacidad, Step(lista, f, e).invitados)
  {
    if e.OnEliminar? && !f.mostrarConfirmacion {
      var r := SinId(f.invitados, e.id);
      assert |r| <= |f.invitados|;
    }
  }

  /** While the capacity is not edited, the host plus the invitees never exceed it. */
  lemma {:induction false} RunDentroDeCapacidad(lista: seq<Usuario>, f: Form, es: seq<Evento>)
    requires forall i :: 0 <= i < |es| ==> !es[i].OnCapacidad?
    requires DentroDeCapacidad(f.capacidad, f.invitados)
    ensures Run(lista, f, es).capacidad == f.capacidad
    ensures DentroDeCapacidad(Run(lista, f, es).capacidad, Run(lista, f, es).invitados)
    decreases |es|
  {
    if es != [] {
      StepDentroDeCapacidad(lista, f, es[0]);
      RunDentroDeCapacidad(lista, Step(lista, f, es[0]), es[1..]);
    }
  }

  /**
   * The capacity bound holds only while the capacity is not edited: lowering the
   * capacity under a group that is already formed is accepted, and so is the
   * confirmation that follows, because `confirmarReserva` checks only that the
   * fields are filled in.
   */
  lemma ConfirmaFueraDeCapacidad(lista: seq<Usuario>, f: Form, n: int)
    requires !f.mostrarConfirmacion && f.dia != "" && f.hora != ""
    requires 0 < n < TotalPersonas(f.invitados)
    ensures Run(lista, f, [OnCapacidad(Num(n)), OnContinuar]).mostrarConfirmacion
    ensures Run(lista, f, [OnCapacidad(Num(n)), OnContinuar]).capacidad == Num(n)
    ensures !DentroDeCapacidad(Num(n), Run(lista, f, [OnCapacidad(Num(n)), OnContinuar]).invitados)
  {
    var es := [OnCapacidad(Num(n)), OnContinuar];
    var g1 := f.(capacidad := Num(n));
    var g2 := g1.(mostrarConfirmacion := true);
    assert Step(lista, f, es[0]) == g1;
    assert Step(lista, g1, OnContinuar) == g2;
    assert es[1..] == [OnContinuar] && [OnContinuar][1..] == [];
    assert Run(lista, f, es) == Run(lista, g1, [OnContinuar]) == Run(lista, g2, []) == g2;
  }

  // ---------------------------------------------------------------------------
  // The restaurant page as a value
  // ---------------------------------------------------------------------------

  /** The values the category select offers, the empty placeholder first. */
  const Categorias: seq<string> := ["", "chifa", "italiana", "peruana", "japonesa"]

  /** The values the location select offers, the empty placeholder first. */
  const Ubicaciones: seq<string> := ["", "miraflores", "san-isidro", "barranco", "surco"]

  /** The state of the restaurant page. */
  datatype Pagina = Pagina(categoria: string, ubicacion: string, modalAbierto: bool, seleccionado: Option<Restaurante>)

  /** The page as it loads. */
  const PaginaInicial: Pagina := Pagina("", "", false, None)

  /** The modal is rendered only when it is open and a restaurant is selected. */
  predicate Visible(p: Pagina) {
    p.modalAbierto && p.seleccionado.Some?
  }

  /**
   * What the user can do on the page: pick an option of either select, press a
   * card's button, or close the modal (its close button, its backdrop, or the end
   * of a reservation), which exists only while the modal is rendered.
   */
  datatype PaginaEvento = OnCategoria(c: string) | OnUbicacion(u: string) | OnAbrir(r: Restaurante) | OnCerrar

  /** One event on the page; an option or card that is not rendered, or a close with no modal, changes nothing. */
  function StepPagina(p: Pagina, e: PaginaEvento): Pagina {
    match e
    case OnCategoria(c) => if c in Categorias then p.(categoria := c) else p
    case OnUbicacion(u) => if u in Ubicaciones then p.(ubicacion := u) else p
    case OnAbrir(r) => if r in Restaurantes then p.(seleccionado := Some(r), modalAbierto := true) else p
    case OnCerrar => if Visible(p) then p.(modalAbierto := false, seleccionado := None) else p
  }

  /** A sequence of events, applied in order. */
  function RunPagina(p: Pagina, es: seq<PaginaEvento>): Pagina
    decreases |es|
  {
    if es == [] then p else RunPagina(StepPagina(p, es[0]), es[1..])
  }

  /**
   * The page's invariant: the open flag and the selection are set together, the
   * selection is one of the page's restaurants, and each filter holds one of its options.
   */
  predicate PaginaCoherente(p: Pagina) {
    (p.modalAbierto <==> p.seleccionado.Some?) &&
    (p.seleccionado.Some? ==> p.seleccionado.value in Restaurantes) &&
    p.categoria in Categorias && p.ubicacion in Ubicaciones
  }

  /** The page loads in a coherent state, with no modal. */
  lemma PaginaInicialCoherente()
    ensures PaginaCoherente(PaginaInicial) && !Visible(PaginaInicial)
  {
  }

  /** Whatever the user does, the page stays coherent, so the open flag alone decides whether the modal shows. */
  lemma {:induction false} RunPaginaCoherente(p: Pagina, es: seq<PaginaEvento>)
    requires PaginaCoherente(p)
    ensures PaginaCoherente(RunPagina(p, es))
    ensures Visible(RunPagina(p, es)) <==> RunPagina(p, es).modalAbierto
    decreases |es|
  {
    if es != [] {
      var q := StepPagina(p, es[0]);
      assert PaginaCoherente(q);
      RunPaginaCoherente(q, es[1..]);
    }
  }

  /** The filters never open, close or change the modal. */
  lemma FiltrosNoTocanModal(p: Pagina, e: PaginaEvento)
    requires e.OnCategoria? || e.OnUbicacion?
    ensures StepPagina(p, e).modalAbierto == p.modalAbierto && StepPagina(p, e).seleccionado == p.seleccionado
  {
  }

  /** Opening a restaurant's modal and closing it again leaves the filters as they were and no modal. */
  lemma AbrirCerrar(p: Pagina, r: Restaurante)
    requires r in Restaurantes
    ensures RunPagina(p, [OnAbrir(r), OnCerrar]) == p.(modalAbierto := false, seleccionado := None)
  {
    var es := [OnAbrir(r), OnCerrar];
    var q1 := p.(seleccionado := Some(r), modalAbierto := true);
    var q2 := p.(modalAbierto := false, seleccionado := None);
    assert StepPagina(p, es[0]) == q1;
    assert StepPagina(q1, OnCerrar) == q2;
    assert es[1..] == [OnCerrar] && [OnCerrar][1..] == [];
    assert RunPagina(p, es) == RunPagina(q1, [OnCerrar]) == RunPagina(q2, []) == q2;
  }

  // ---------------------------------------------------------------------------
  // The components
  // ---------------------------------------------------------------------------

  /** The group-creation modal for one restaurant; its fields are the component's state. */
  class CreateGroup {
    const restaurante: Restaurante
    const listaAmigos: seq<Usuario>
    var invitados: seq<Usuario>
    var capacidad: Capacidad
    var dia: string
    var hora: string
    var busqueda: string
    var soloAmigos: bool
    var mostrarConfirmacion: bool

    function State(): Form
      reads this
    {
      Form(invitados, capacidad, dia, hora, busqueda, soloAmigos, mostrarConfirmacion)
    }

    /** Mounting the modal: an empty guest list and empty fields, in the form view. */
    constructor (restaurante: Restaurante)
      ensures this.restaurante == restaurante && listaAmigos == ListaAmigos
      ensures State() == FormInicial
      ensures Consistente(State())
    {
      this.restaurante := restaurante;
      listaAmigos := ListaAmigos;
      invitados, capacidad, dia, hora := [], Vacia, "", "";
      busqueda, soloAmigos, mostrarConfirmacion := "", false, false;
    }

    /** Typing in the capacity field (rendered in the form view only). */
    method SetCapacidad(c: Capacidad)
      requires !mostrarConfirmacion
      modifies this`capacidad
      ensures capacidad == c
      ensures State() == Step(listaAmigos, old(State()), OnCapacidad(c))
    {
      capacidad := c;
    }

    method SetDia(d: string)
      requires !mostrarConfirmacion
      modifies this`dia
      ensures dia == d
      ensures State() == Step(listaAmigos, old(State()), OnDia(d))
    {
      dia := d;
    }

    method SetHora(h: string)
      requires !mostrarConfirmacion
      modifies this`hora
      ensures hora == h
      ensures State() == Step(listaAmigos, old(State()), OnHora(h))
    {
      hora := h;
    }

    method SetBusqueda(b: string)
      requires !mostrarConfirmacion
      modifies this`busqueda
      ensures busqueda == b
      ensures State() == Step(listaAmigos, old(State()), OnBusqueda(b))
    {
      busqueda := b;
    }

    method SetSoloAmigos(v: bool)
      requires !mostrarConfirmacion
      modifies this`soloAmigos
      ensures soloAmigos == v
      ensures State() == Step(listaAmigos, old(State()), OnSoloAmigos(v))
    {
      soloAmigos := v;
    }

    /** `agregarInvitado(u)`: append `u` and clear the search when the guard allows it, else change nothing. */
    method AgregarInvitado(u: Usuario)
      modifies this`invitados, this`busqueda
      ensures PuedeAgregar(old(capacidad), old(invitados)) ==> invitados == old(invitados) + [u] && busqueda == ""
      ensures !PuedeAgregar(old(capacidad), old(invitados)) ==> invitados == old(invitados) && busqueda == old(busqueda)
      ensures State() == Agregar(old(State()), u)
    {
      if capacidad.Vacia? || (capacidad.Num? && |invitados| < capacidad.n - 1) {
        invitados := invitados + [u];
        busqueda := "";
      }
    }

    /** A click on the k-th search result, which exists only while something is searched for. */
    method ElegirResultado(k: int)
      requires !mostrarConfirmacion && busqueda != ""
      requires 0 <= k < |UsuariosFiltrados(listaAmigos, busqueda, invitados, soloAmigos)|
      modifies this`invitados, this`busqueda
      ensures State() == Step(listaAmigos, old(State()), OnResultado(k))
      ensures Consistente(old(State())) ==> Consistente(State())
      ensures DentroDeCapacidad(capacidad, old(invitados)) ==> DentroDeCapacidad(capacidad, invitados)
    {
      ghost var f := State();
      var u := UsuariosFiltrados(listaAmigos, busqueda, invitados, soloAmigos)[k];
      assert u == Resultados(listaAmigos, f)[k];
      AgregarInvitado(u);
      assert State() == Agregar(f, u) == Step(listaAmigos, f, OnResultado(k));
      if IdsDistintos(f.invitados) {
        AgregarResultadoKeepsIdsDistinct(listaAmigos, f, k);
      }
    }

    /** `eliminarInvitado(id)`, from an invitee's remove button. */
    method EliminarInvitado(id: int)
      requires !mostrarConfirmacion
      modifies this`invitados
      ensures invitados == SinId(old(invitados), id)
      ensures State() == Step(listaAmigos, old(State()), OnEliminar(id))
      ensures Consistente(old(State())) ==> Consistente(State())
    {
      ghost var f := State();
      invitados := SinId(invitados, id);
      assert State() == f.(invitados := SinId(f.invitados, id)) == Step(listaAmigos, f, OnEliminar(id));
      if IdsDistintos(f.invitados) {
        SinIdKeepsIdsDistinct(f.invitados, id);
      }
    }

    /** `confirmarReserva`, from the "Continuar" button of the form view: the confirmation view only for a complete reservation; otherwise nothing changes. */
    method ConfirmarReserva()
      requires !mostrarConfirmacion
      modifies this`mostrarConfirmacion
      ensures ReservaCompleta(capacidad, dia, hora) ==> mostrarConfirmacion
      ensures !ReservaCompleta(capacidad, dia, hora) ==> mostrarConfirmacion == old(mostrarConfirmacion)
      ensures State() == Step(listaAmigos, old(State()), OnContinuar)
    {
      if capacidad.Vacia? || dia == "" || hora == "" {
        return;
      }
      mostrarConfirmacion := true;
    }

    /** `editarReserva`, from the "Editar" button of the confirmation view: back to the form view. */
    method EditarReserva()
      requires mostrarConfirmacion
      modifies this`mostrarConfirmacion
      ensures !mostrarConfirmacion
      ensures State() == Step(listaAmigos, old(State()), OnEditar)
    {
      mostrarConfirmacion := false;
    }
  }

  /** The restaurant list page: the two filter inputs and the modal's open flag and selected restaurant. */
  class RestaurantSection {
    var categoria: string
    var ubicacion: string
    var modalAbierto: bool
    var restauranteSeleccionado: Option<Restaurante>

    function State(): Pagina
      reads this
    {
      Pagina(categoria, ubicacion, modalAbierto, restauranteSeleccionado)
    }

    /** The modal is rendered only when it is open and a restaurant is selected. */
    predicate ModalVisible()
      reads this
    {
      Visible(State())
    }

    constructor ()
      ensures categoria == "" && ubicacion == ""
      ensures !modalAbierto && restauranteSeleccionado == None
      ensures State() == PaginaInicial && PaginaCoherente(State())
      ensures !ModalVisible()
    {
      categoria, ubicacion := "", "";
      modalAbierto, restauranteSeleccionado := false, None;
    }

    /** Picking an option of the category select. */
    method SetCategoria(c: string)
      requires c in Categorias
      modifies this`categoria
      ensures categoria == c
      ensures State() == StepPagina(old(State()), OnCategoria(c))
    {
      categoria := c;
    }

    /** Picking an option of the location select. */
    method SetUbicacion(u: string)
      requires u in Ubicaciones
      modifies this`ubicacion
      ensures ubicacion == u
      ensures State() == StepPagina(old(State()), OnUbicacion(u))
    {
      ubicacion := u;
    }

    /** `abrirModal(r)`, from the button of `r`'s card: select `r` and open the modal, which then shows `r`. */
    method AbrirModal(r: Restaurante)
      requires r in Restaurantes
      modifies this`modalAbierto, this`restauranteSeleccionado
      ensures modalAbierto && restauranteSeleccionado == Some(r)
      ensures ModalVisible()
      ensures State() == StepPagina(old(State()), OnAbrir(r))
    {
      restauranteSeleccionado := Some(r);
      modalAbierto := true;
    }

    /** `cerrarModal`, the rendered modal's `onClose`: close the modal and drop the selection. */
    method CerrarModal()
      requires ModalVisible()
      modifies this`modalAbierto, this`restauranteSeleccionado
      ensures !modalAbierto && restauranteSeleccionado == None
      ensures !ModalVisible()
      ensures State() == StepPagina(old(State()), OnCerrar)
    {
      modalAbierto := false;
      restauranteSeleccionado := None;
    }
  }
}
