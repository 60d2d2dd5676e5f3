/** The orchestrator: the member collection, the book collection and the
    single optional session member, with the workflows over them (login and
    logout, registration, book lookup, catalog report, loans, profile edits
    and ratings). */
module Services {
  import opened Common
  import opened Model

  /** The position of the first element, in sequence order, whose key is
      `k`, or `None` when no element has that key. */
  function PrimerIndice<T, K(==)>(s: seq<T>, clave: T -> K, k: K): (r: Option<nat>)
    ensures r.Some? ==> r.value < |s| && clave(s[r.value]) == k
    ensures r.Some? ==> forall j :: 0 <= j < r.value ==> clave(s[j]) != k
    ensures r.None? <==> forall j :: 0 <= j < |s| ==> clave(s[j]) != k
  {
    if s == [] then None
    else if clave(s[0]) == k then Some(0)
    else match PrimerIndice(s[1..], clave, k)
      case None => None
      case Some(i) => Some(i + 1)
  }

  /** The lookup key of a book. */
  function Isbn(libro: Libro): string { libro.isbn }

  /** The lookup key of a member. */
  function Numero(socio: Socio): int32 { socio.numeroDeSocio }

  /** The first book with this ISBN. */
  function IndiceLibro(libros: seq<Libro>, isbn: string): Option<nat> {
    PrimerIndice(libros, Isbn, isbn)
  }

  /** The first member with this member number. */
  function IndiceSocio(socios: seq<Socio>, numeroDeSocio: int32): Option<nat> {
    PrimerIndice(socios, Numero, numeroDeSocio)
  }

  /** No two members share a member number. */
  ghost predicate NumerosUnicos(socios: seq<Socio>) {
    forall i, j :: 0 <= i < j < |socios| ==> socios[i].numeroDeSocio != socios[j].numeroDeSocio
  }

  /** When member numbers are unique, checking the password of the first
      member with the number is the same as asking whether some member has
      both that number and that password. */
  lemma CredencialesUnicas(socios: seq<Socio>, numeroDeSocio: int32, contrasenia: string)
    requires NumerosUnicos(socios)
    ensures (IndiceSocio(socios, numeroDeSocio).Some?
             && socios[IndiceSocio(socios, numeroDeSocio).value].contrasenia == contrasenia)
            <==> exists i :: 0 <= i < |socios| && socios[i].numeroDeSocio == numeroDeSocio
                             && socios[i].contrasenia == contrasenia
  {
    var k := IndiceSocio(socios, numeroDeSocio);
    if i :| 0 <= i < |socios| && socios[i].numeroDeSocio == numeroDeSocio
                              && socios[i].contrasenia == contrasenia {
      assert k.Some?;
      assert k.value == i;
    }
  }

  /** The report block of one book. */
  function Ficha(libro: Libro): string {
    "Titulo    : " + libro.titulo + "\n"
    + "Autor     : " + libro.autor + "\n"
    + "ISBN      : " + libro.isbn + "\n"
    + "Categoria : " + libro.categoria + "\n"
    + "\n"
  }

  /** The catalog report: the blocks of the books in collection order. */
  function Catalogo(libros: seq<Libro>): string {
    if libros == [] then "" else Ficha(libros[0]) + Catalogo(libros[1..])
  }

  /** The report of two collections one after the other is the report of
      the first followed by that of the second. */
  lemma {:induction false} CatalogoConcat(a: seq<Libro>, b: seq<Libro>)
    ensures Catalogo(a + b) == Catalogo(a) + Catalogo(b)
  {
    if a == [] {
      assert a + b == b;
    } else {
      assert (a + b)[1..] == a[1..] + b;
      CatalogoConcat(a[1..], b);
    }
  }

  /** Book `k`'s block stands between the blocks of the books before it and
      those of the books after it. */
  lemma CatalogoEntrada(libros: seq<Libro>, k: nat)
    requires k < |libros|
    ensures Catalogo(libros) == Catalogo(libros[..k]) + Ficha(libros[k]) + Catalogo(libros[k + 1..])
  {
    var resto := libros[k..];
    assert libros == libros[..k] + resto;
    CatalogoConcat(libros[..k], resto);
    assert resto[0] == libros[k] && resto[1..] == libros[k + 1..];
  }

  /** The two first-run books. Both carry ISBN "1491910771". The copy count
      that the book constructor gives them is a parameter here. */
  function LibrosSemilla(copias: int32): seq<Libro> {
    [ Libro("1491910771", "Head First Java: A Brain-Friendly Guide", " Kathy Sierra",
            "Programming Languages", copias, []),
      Libro("1491910771", "Effective Java", "Joshua Bloch", "Programming Languages", copias, []) ]
  }

  /** In the first-run data the lookup of the shared ISBN finds the first
      entry, and the second entry can never be found by its ISBN. */
  lemma SemillaIsbnDuplicado(copias: int32)
    ensures IndiceLibro(LibrosSemilla(copias), "1491910771") == Some(0)
    ensures LibrosSemilla(copias)[1].isbn == "1491910771"
  {
  }

  class Sistema {
    var socios: seq<Socio>
    var libros: seq<Libro>
    /** The logged-in member, if any. */
    var socio: Socio?

    /** The session member belongs to the member collection, member numbers
        are positive and unique, and no member holds more books than the
        maximum. */
    ghost predicate Valid()
      reads this, socios
    {
      && (socio != null ==> socio in socios)
      && NumerosUnicos(socios)
      && forall s :: s in socios ==> s.numeroDeSocio > 0 && s.Valid()
    }

    /** The first-run state: one member, the two seed books, nobody logged in. */
    constructor (copiasIniciales: int32)
      ensures Valid() && socio == null
      ensures |socios| == 1 && fresh(socios[0])
      ensures socios[0].nombre == "John" && socios[0].apellido == "Doe"
      ensures socios[0].correoElectronico == "john.doe@ucn.cl"
      ensures socios[0].numeroDeSocio == 1 && socios[0].contrasenia == "john123"
      ensures socios[0].librosEnPrestamo == []
      ensures libros == LibrosSemilla(copiasIniciales)
    {
      var john := new Socio("John", "Doe", "john.doe@ucn.cl", 1, "john123");
      socios := [john];
      libros := LibrosSemilla(copiasIniciales);
      socio := null;
    }

    /** Linear search of the member collection by member number. */
    method BuscarSocio(numeroDeSocio: int32) returns (r: Option<nat>)
      ensures r == IndiceSocio(socios, numeroDeSocio)
    {
      for i := 0 to |socios|
        invariant forall j :: 0 <= j < i ==> socios[j].numeroDeSocio != numeroDeSocio
      {
        if socios[i].numeroDeSocio == numeroDeSocio {
          return Some(i);
        }
      }
      return None;
    }

    /** Linear search of the book collection by ISBN, stopping at the first match. */
    method BuscarLibro(isbn: string) returns (r: Option<nat>)
      ensures r == IndiceLibro(libros, isbn)
    {
      for i := 0 to |libros|
        invariant forall j :: 0 <= j < i ==> libros[j].isbn != isbn
      {
        if libros[i].isbn == isbn {
          return Some(i);
        }
      }
      return None;
    }

    /** Logs a member in: the number must be positive, the call must come
        from the logged-out state, a member with that number must exist, and
        the first such member's password must equal the given one. Only success changes the
        session. */
    method IniciarSession(numeroDeSocio: int32, contrasenia: string) returns (r: Outcome)
      requires Valid()
      modifies this`socio
      ensures Valid()
      ensures numeroDeSocio <= 0 ==> r == Fail(ValidationError(NumeroDeSocio))
      ensures old(socio) != null && numeroDeSocio > 0 ==> r == Fail(InvalidState)
      ensures old(socio) == null && numeroDeSocio > 0 && IndiceSocio(socios, numeroDeSocio).None? ==>
        r == Fail(NotFound)
      ensures old(socio) == null && numeroDeSocio > 0 && IndiceSocio(socios, numeroDeSocio).Some? ==>
        r == if socios[IndiceSocio(socios, numeroDeSocio).value].contrasenia == contrasenia
             then Pass else Fail(AuthenticationFailed)
      ensures old(socio) == null && numeroDeSocio > 0 ==>
        (r.Pass? <==> exists i :: 0 <= i < |socios| && socios[i].numeroDeSocio == numeroDeSocio
                                  && socios[i].contrasenia == contrasenia)
      ensures r.Pass? ==>
        && socio != null && socio in socios
        && socio == socios[IndiceSocio(socios, numeroDeSocio).value]
        && socio.numeroDeSocio == numeroDeSocio && socio.contrasenia == contrasenia
      ensures r.Fail? ==> socio == old(socio)
    {
      if numeroDeSocio <= 0 {
        return Fail(ValidationError(NumeroDeSocio));
      }
      if socio != null {
        return Fail(InvalidState);
      }
      CredencialesUnicas(socios, numeroDeSocio, contrasenia);
      var k := BuscarSocio(numeroDeSocio);
      if k.None? {
        return Fail(NotFound);
      }
      var encontrado := socios[k.value];
      if encontrado.contrasenia != contrasenia {
        return Fail(AuthenticationFailed);
      }
      socio := encontrado;
      r := Pass;
    }

    /** Logs the session member out. */
    method CerrarSession()
      requires Valid()
      modifies this`socio
      ensures Valid() && socio == null
    {
      socio := null;
    }

    /** Registers a member with the given fields: the number must be
        positive and not yet in use, then the member checks decide, and on
        success the new member goes at the end of the collection. */
    method NuevoUsuario(numeroDeSocio: int32, contrasenia: string, nombre: string,
                        apellido: string, correoElectronico: string, emailValido: string -> bool)
      returns (r: Outcome)
      requires Valid()
      modifies this`socios
      ensures Valid()
      ensures numeroDeSocio <= 0 || IndiceSocio(old(socios), numeroDeSocio).Some? ==>
        r == Fail(ValidationError(NumeroDeSocio))
      ensures numeroDeSocio > 0 && IndiceSocio(old(socios), numeroDeSocio).None? ==>
        r == ValidarSocio(nombre, apellido, correoElectronico, contrasenia, emailValido)
      ensures r.Fail? ==> socios == old(socios)
      ensures r.Pass? ==>
        && |socios| == |old(socios)| + 1 && socios[..|old(socios)|] == old(socios)
        && var s := socios[|old(socios)|];
           && fresh(s) && s.nombre == nombre && s.apellido == apellido
           && s.correoElectronico == correoElectronico && s.numeroDeSocio == numeroDeSocio
           && s.contrasenia == contrasenia && s.librosEnPrestamo == []
    {
      if numeroDeSocio <= 0 {
        return Fail(ValidationError(NumeroDeSocio));
      }
      var k := BuscarSocio(numeroDeSocio);
      if k.Some? {
        return Fail(ValidationError(NumeroDeSocio));
      }
      var nuevo := NuevoSocio(nombre, apellido, correoElectronico, numeroDeSocio, contrasenia, emailValido);
      if nuevo.Failure? {
        return Fail(nuevo.error);
      }
      socios := socios + [nuevo.value];
      assert socios[..|old(socios)|] == old(socios);
      r := Pass;
    }

    /** Lends the first book with this ISBN to the session member. Fails,
        changing nothing, with no session, with no such book, with no copy
        left, or with the member's loan list full; otherwise the book is
        added at the end of the member's loans and its copy count drops by
        one, both in the same step. */
    method RealizarPrestamoLibro(isbn: string) returns (r: Outcome)
      requires Valid()
      modifies this`libros, socio
      ensures Valid()
      ensures socio == null ==> r == Fail(InvalidState)
      ensures socio != null && IndiceLibro(old(libros), isbn).None? ==> r == Fail(NotFound)
      ensures socio != null && IndiceLibro(old(libros), isbn).Some? ==>
        var libro := old(libros)[IndiceLibro(old(libros), isbn).value];
        r == if libro.cantCopiasDisponibles <= 0 then Fail(NoCopiesAvailable)
             else if |old(socio.librosEnPrestamo)| == NUMERO_LIBROS_MAXIMO then Fail(CapacityExceeded)
             else Pass
      ensures socio != null ==> socio.nombre == old(socio.nombre)
      ensures socio != null ==> socio.apellido == old(socio.apellido)
      ensures socio != null ==> socio.correoElectronico == old(socio.correoElectronico)
      ensures socio != null ==> socio.contrasenia == old(socio.contrasenia)
      ensures r.Fail? ==> libros == old(libros)
      ensures r.Fail? && socio != null ==> socio.librosEnPrestamo == old(socio.librosEnPrestamo)
      ensures r.Pass? ==>
        var k := IndiceLibro(old(libros), isbn).value;
        var libro := old(libros)[k];
        && socio != null
        && socio.librosEnPrestamo == old(socio.librosEnPrestamo) + [libro]
        && libros == old(libros)[k := libro.(cantCopiasDisponibles := libro.cantCopiasDisponibles - 1)]
    {
      if socio == null {
        return Fail(InvalidState);
      }
      var k := BuscarLibro(isbn);
      if k.None? {
        return Fail(NotFound);
      }
      var libro := libros[k.value];
      if libro.cantCopiasDisponibles <= 0 {
        return Fail(NoCopiesAvailable);
      }
      r := socio.AgregarLibro(libro);
      if r.Fail? {
        return;
      }
      libros := libros[k.value := libro.(cantCopiasDisponibles := libro.cantCopiasDisponibles - 1)];
    }

    /** The catalog report of the whole book collection. */
    method ObtegerCatalogoLibros() returns (catalogo: string)
      ensures catalogo == Catalogo(libros)
    {
      catalogo := "";
      for i := 0 to |libros|
        invariant catalogo == Catalogo(libros[..i])
      {
        assert libros[..i + 1] == libros[..i] + [libros[i]];
        CatalogoConcat(libros[..i], [libros[i]]);
        catalogo := catalogo + Ficha(libros[i]);
      }
      assert libros[..|libros|] == libros;
    }

    /** The session member's full name and e-mail, or `InvalidState` when
        nobody is logged in. */
    function ObtenerDatosSocioLogeado(): (r: Result<string>)
      reads this, socio
      ensures r.Failure? <==> socio == null
      ensures r.Failure? ==> r.error == InvalidState
      ensures r.Success? ==>
        r.value == "Nombre: " + socio.nombre + " " + socio.apellido
                   + "\nCorreo Electronico: " + socio.correoElectronico
    {
      if socio == null then Failure(InvalidState)
      else Success("Nombre: " + socio.NombreCompleto() + "\n"
                   + "Correo Electronico: " + socio.correoElectronico)
    }

    /** Replaces the session member's name, with no re-validation. */
    method EditarNombre(nuevoNombre: string) returns (r: Outcome)
      requires Valid()
      modifies socio
      ensures Valid()
      ensures r == if socio == null then Fail(InvalidState) else Pass
      ensures socio != null ==> socio.nombre == nuevoNombre
      ensures socio != null ==> socio.apellido == old(socio.apellido)
      ensures socio != null ==> socio.correoElectronico == old(socio.correoElectronico)
      ensures socio != null ==> socio.contrasenia == old(socio.contrasenia)
      ensures socio != null ==> socio.librosEnPrestamo == old(socio.librosEnPrestamo)
    {
      if socio == null {
        return Fail(InvalidState);
      }
      socio.SetNombre(nuevoNombre);
      r := Pass;
    }

    /** Replaces the session member's family name, with no re-validation. */
    method EditarApellido(nuevoApellido: string) returns (r: Outcome)
      requires Valid()
      modifies socio
      ensures Valid()
      ensures r == if socio == null then Fail(InvalidState) else Pass
      ensures socio != null ==> socio.apellido == nuevoApellido
      ensures socio != null ==> socio.nombre == old(socio.nombre)
      ensures socio != null ==> socio.correoElectronico == old(socio.correoElectronico)
      ensures socio != null ==> socio.contrasenia == old(socio.contrasenia)
      ensures socio != null ==> socio.librosEnPrestamo == old(socio.librosEnPrestamo)
    {
      if socio == null {
        return Fail(InvalidState);
      }
      socio.SetApellido(nuevoApellido);
      r := Pass;
    }

    /** Replaces the session member's password, with no re-validation. */
    method CambiarContrasenia(nuevaContrasenia: string) returns (r: Outcome)
      requires Valid()
      modifies socio
      ensures Valid()
      ensures r == if socio == null then Fail(InvalidState) else Pass
      ensures socio != null ==> socio.contrasenia == nuevaContrasenia
      ensures socio != null ==> socio.nombre == old(socio.nombre)
      ensures socio != null ==> socio.apellido == old(socio.apellido)
      ensures socio != null ==> socio.correoElectronico == old(socio.correoElectronico)
      ensures socio != null ==> socio.librosEnPrestamo == old(socio.librosEnPrestamo)
    {
      if socio == null {
        return Fail(InvalidState);
      }
      socio.SetContrasenia(nuevaContrasenia);
      r := Pass;
    }

    /** Replaces the session member's e-mail, with no re-validation. */
    method EditarCorreo(nuevoCorreo: string) returns (r: Outcome)
      requires Valid()
      modifies socio
      ensures Valid()
      ensures r == if socio == null then Fail(InvalidState) else Pass
      ensures socio != null ==> socio.correoElectronico == nuevoCorreo
      ensures socio != null ==> socio.nombre == old(socio.nombre)
      ensures socio != null ==> socio.apellido == old(socio.apellido)
      ensures socio != null ==> socio.contrasenia == old(socio.contrasenia)
      ensures socio != null ==> socio.librosEnPrestamo == old(socio.librosEnPrestamo)
    {
      if socio == null {
        return Fail(InvalidState);
      }
      socio.SetCorreoElectronico(nuevoCorreo);
      r := Pass;
    }

    /** Rates a book on behalf of a member: the member (first with that
        number) and the book (first with that ISBN) must exist, and the
        member must have a book with that ISBN on loan; then the rating is
        added at the end of the book's ratings. The session is not touched. */
    method CalificarLibro(numeroDeSocio: int32, isbn: string, estrellas: int32) returns (r: Outcome)
      requires Valid()
      modifies this`libros
      ensures Valid()
      ensures IndiceSocio(socios, numeroDeSocio).None? || IndiceLibro(old(libros), isbn).None?
              ==> r == Fail(NotFound)
      ensures IndiceSocio(socios, numeroDeSocio).Some? && IndiceLibro(old(libros), isbn).Some? ==>
        r == if socios[IndiceSocio(socios, numeroDeSocio).value].TienePrestado(isbn)
             then Pass else Fail(NotBorrowed)
      ensures r.Fail? ==> libros == old(libros)
      ensures r.Pass? ==>
        var miembro := socios[IndiceSocio(socios, numeroDeSocio).value];
        var k := IndiceLibro(old(libros), isbn).value;
        var libro := old(libros)[k];
        libros == old(libros)[k := libro.(calificaciones := libro.calificaciones
                                                            + [NuevaCalificacion(miembro, estrellas)])]
    {
      var ks := BuscarSocio(numeroDeSocio);
      var kl := BuscarLibro(isbn);
      if ks.None? || kl.None? {
        return Fail(NotFound);
      }
      var miembro := socios[ks.value];
      if !miembro.TienePrestado(isbn) {
        return Fail(NotBorrowed);
      }
      var libro := libros[kl.value];
      libros := libros[kl.value := libro.(calificaciones := libro.calificaciones
                                                          + [NuevaCalificacion(miembro, estrellas)])];
      r := Pass;
    }
  }

  /** A first run followed by a short session: lending before login fails,
      a wrong password fails, the seed member's login succeeds and a second
      login is refused, lending the shared ISBN takes one copy of the first
      seed book and none of the second, and logging out makes lending fail
      again. */
  method EscenarioPrimerArranque(copias: int32)
    returns (sinSesion: Outcome, claveErronea: Outcome, login: Outcome, segundoLogin: Outcome,
             prestamo: Outcome, prestamoTrasCierre: Outcome, copiasPrimero: int32,
             copiasSegundo: int32, prestados: seq<Libro>)
    requires copias > 0
    ensures sinSesion == Fail(InvalidState)
    ensures claveErronea == Fail(AuthenticationFailed)
    ensures login == Pass && segundoLogin == Fail(InvalidState) && prestamo == Pass
    ensures prestamoTrasCierre == Fail(InvalidState)
    ensures copiasPrimero == copias - 1 && copiasSegundo == copias
    ensures prestados == [LibrosSemilla(copias)[0]]
  {
    var sistema := new Sistema(copias);
    SemillaIsbnDuplicado(copias);
    sinSesion := sistema.RealizarPrestamoLibro("1491910771");
    claveErronea := sistema.IniciarSession(1, "john12");
    login := sistema.IniciarSession(1, "john123");
    segundoLogin := sistema.IniciarSession(1, "john123");
    var john := sistema.socio;
    prestamo := sistema.RealizarPrestamoLibro("1491910771");
    prestados := john.librosEnPrestamo;
    copiasPrimero := sistema.libros[0].cantCopiasDisponibles;
    copiasSegundo := sistema.libros[1].cantCopiasDisponibles;
    sistema.CerrarSession();
    prestamoTrasCierre := sistema.RealizarPrestamoLibro("1491910771");
  }

  /** Registration from the first-run state: a new member under the seed
      member's number is refused, under number 2 it is accepted, and the new
      member can then log in with the chosen password. */
  method EscenarioRegistro(copias: int32, emailValido: string -> bool)
    returns (duplicado: Outcome, registro: Outcome, login: Outcome, miembros: nat)
    requires emailValido("ana@x.cl")
    ensures duplicado == Fail(ValidationError(NumeroDeSocio))
    ensures registro == Pass && login == Pass
    ensures miembros == 2
  {
    var sistema := new Sistema(copias);
    duplicado := sistema.NuevoUsuario(1, "pw1", "Ana", "Lopez", "ana@x.cl", emailValido);
    assert SoloLetras("Ana") by {
      assert forall i :: 0 <= i < 3 ==> EsLetra("Ana"[i]);
    }
    assert SoloLetras("Lopez") by {
      assert forall i :: 0 <= i < 5 ==> EsLetra("Lopez"[i]);
    }
    registro := sistema.NuevoUsuario(2, "pw1", "Ana", "Lopez", "ana@x.cl", emailValido);
    login := sistema.IniciarSession(2, "pw1");
    miembros := |sistema.socios|;
  }
}
