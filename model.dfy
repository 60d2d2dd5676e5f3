/** The entities of the library: the member (`Socio`), whose fields are
    updated in place, and the two values it refers to or is referred to by,
    the book record (`Libro`) and the rating (`Calificacion`). */
module Model {
  import opened Common

  /** The most books a member may hold on loan at once. */
  const NUMERO_LIBROS_MAXIMO: nat := 9

  /** A member's star rating of a book. Immutable: it has no setters, and
      the two getters are the destructors `socio` and `estrellas`. */
  datatype Calificacion = Calificacion(socio: Socio, estrellas: int32)

  /** Builds a rating. Any `int` is accepted as the number of stars: there
      is no range check. */
  function NuevaCalificacion(socio: Socio, estrellas: int32): (c: Calificacion)
    ensures c.socio == socio
    ensures c.estrellas == estrellas
  {
    Calificacion(socio, estrellas)
  }

  /** A catalog entry: identifier, descriptive fields, the number of copies
      still available and the ratings it has received. */
  datatype Libro = Libro(
    isbn: string,
    titulo: string,
    autor: string,
    categoria: string,
    cantCopiasDisponibles: int32,
    calificaciones: seq<Calificacion>)

  predicate EsLetra(c: char) {
    'a' <= c <= 'z' || 'A' <= c <= 'Z'
  }

  /** `s.matches("[a-zA-Z]+")`: the whole string is one or more ASCII letters. */
  predicate SoloLetras(s: string) {
    |s| > 0 && forall i :: 0 <= i < |s| ==> EsLetra(s[i])
  }

  /** The checks the member constructor performs, in its order: the name,
      the family name, the e-mail (through the external validator) and the
      password. The first field that fails its rule is the one reported. */
  function ValidarSocio(nombre: string, apellido: string, correoElectronico: string,
                        contrasenia: string, emailValido: string -> bool): (r: Outcome)
    ensures r == Pass <==>
      SoloLetras(nombre) && SoloLetras(apellido) && emailValido(correoElectronico) && contrasenia != ""
    ensures r.Fail? ==> r.error.ValidationError?
    ensures r == Fail(ValidationError(Nombre)) <==> !SoloLetras(nombre)
    ensures r == Fail(ValidationError(Apellido)) <==> SoloLetras(nombre) && !SoloLetras(apellido)
    ensures r == Fail(ValidationError(CorreoElectronico)) <==>
      SoloLetras(nombre) && SoloLetras(apellido) && !emailValido(correoElectronico)
    ensures r == Fail(ValidationError(Contrasenia)) <==>
      SoloLetras(nombre) && SoloLetras(apellido) && emailValido(correoElectronico) && contrasenia == ""
    ensures r.Fail? ==> r.error.campo != NumeroDeSocio
  {
    if !SoloLetras(nombre) then Fail(ValidationError(Nombre))
    else if !SoloLetras(apellido) then Fail(ValidationError(Apellido))
    else if !emailValido(correoElectronico) then Fail(ValidationError(CorreoElectronico))
    else if contrasenia == "" then Fail(ValidationError(Contrasenia))
    else Pass
  }

  /** A name holding a character that is not an ASCII letter (a digit, a
      space, an accented letter) is refused, whatever the other fields. */
  lemma RechazaNombreNoAlfabetico(nombre: string, apellido: string, correoElectronico: string,
                                  contrasenia: string, emailValido: string -> bool, i: nat)
    requires i < |nombre| && !EsLetra(nombre[i])
    ensures ValidarSocio(nombre, apellido, correoElectronico, contrasenia, emailValido)
            == Fail(ValidationError(Nombre))
  {
  }

  /** The first-run member "John Doe" passes every check except the e-mail's,
      which belongs to the external validator. */
  lemma SocioSemillaValido(emailValido: string -> bool)
    requires emailValido("john.doe@ucn.cl")
    ensures ValidarSocio("John", "Doe", "john.doe@ucn.cl", "john123", emailValido) == Pass
  {
    assert SoloLetras("John") by {
      assert forall i :: 0 <= i < 4 ==> EsLetra("John"[i]);
    }
    assert SoloLetras("Doe") by {
      assert forall i :: 0 <= i < 3 ==> EsLetra("Doe"[i]);
    }
  }

  /** A library member. The member number is fixed at construction; the
      other identity fields change only through their setters, and the loan
      list only through `AgregarLibro`. */
  class Socio {
    var nombre: string
    var apellido: string
    var correoElectronico: string
    const numeroDeSocio: int32
    var contrasenia: string
    var librosEnPrestamo: seq<Libro>

    /** The loan list never holds more than the maximum. */
    ghost predicate Valid()
      reads this
    {
      |librosEnPrestamo| <= NUMERO_LIBROS_MAXIMO
    }

    /** Stores the given fields with an empty loan list. The argument checks
        are `NuevoSocio`'s. */
    constructor (nombre: string, apellido: string, correoElectronico: string,
                 numeroDeSocio: int32, contrasenia: string)
      ensures Valid()
      ensures this.nombre == nombre && this.apellido == apellido
      ensures this.correoElectronico == correoElectronico
      ensures this.numeroDeSocio == numeroDeSocio && this.contrasenia == contrasenia
      ensures librosEnPrestamo == []
    {
      this.nombre := nombre;
      this.apellido := apellido;
      this.correoElectronico := correoElectronico;
      this.numeroDeSocio := numeroDeSocio;
      this.contrasenia := contrasenia;
      librosEnPrestamo := [];
    }

    /** The name, one space, the family name. */
    function NombreCompleto(): (r: string)
      reads this
      ensures |r| == |nombre| + 1 + |apellido|
      ensures r[..|nombre|] == nombre && r[|nombre|] == ' ' && r[|nombre| + 1..] == apellido
    {
      nombre + " " + apellido
    }

    /** Whether a book with this ISBN is among the member's loans. */
    predicate TienePrestado(isbn: string)
      reads this
    {
      exists i :: 0 <= i < |librosEnPrestamo| && librosEnPrestamo[i].isbn == isbn
    }

    /** Adds a book at the end of the loan list, unless the member already
        holds the maximum number of books. */
    method AgregarLibro(libro: Libro) returns (r: Outcome)
      requires Valid()
      modifies this`librosEnPrestamo
      ensures Valid()
      ensures r.Pass? <==> |old(librosEnPrestamo)| < NUMERO_LIBROS_MAXIMO
      ensures r.Fail? ==> r.error == CapacityExceeded && librosEnPrestamo == old(librosEnPrestamo)
      ensures r.Pass? ==> librosEnPrestamo == old(librosEnPrestamo) + [libro]
    {
      if |librosEnPrestamo| == NUMERO_LIBROS_MAXIMO {
        return Fail(CapacityExceeded);
      }
      librosEnPrestamo := librosEnPrestamo + [libro];
      r := Pass;
    }

    method SetContrasenia(contrasenia: string)
      modifies this`contrasenia
      ensures this.contrasenia == contrasenia
    {
      this.contrasenia := contrasenia;
    }

    method SetNombre(nombre: string)
      modifies this`nombre
      ensures this.nombre == nombre
    {
      this.nombre := nombre;
    }

    method SetApellido(apellido: string)
      modifies this`apellido
      ensures this.apellido == apellido
    {
      this.apellido := apellido;
    }

    method SetCorreoElectronico(correoElectronico: string)
      modifies this`correoElectronico
      ensures this.correoElectronico == correoElectronico
    {
      this.correoElectronico := correoElectronico;
    }
  }

  /** The member constructor with its checks: fails with the first failing
      field's `ValidationError`, otherwise yields a new member holding exactly
      the given fields and no loans. Any `int` is accepted as the member
      number. */
  method NuevoSocio(nombre: string, apellido: string, correoElectronico: string,
                    numeroDeSocio: int32, contrasenia: string, emailValido: string -> bool)
    returns (r: Result<Socio>)
    ensures r.Failure? <==> ValidarSocio(nombre, apellido, correoElectronico, contrasenia, emailValido).Fail?
    ensures r.Failure? ==>
      Fail(r.error) == ValidarSocio(nombre, apellido, correoElectronico, contrasenia, emailValido)
    ensures r.Success? ==>
      && fresh(r.value) && r.value.Valid()
      && r.value.nombre == nombre && r.value.apellido == apellido
      && r.value.correoElectronico == correoElectronico
      && r.value.numeroDeSocio == numeroDeSocio && r.value.contrasenia == contrasenia
      && r.value.librosEnPrestamo == []
  {
    var v := ValidarSocio(nombre, apellido, correoElectronico, contrasenia, emailValido);
    if v.Fail? {
      return Failure(v.error);
    }
    var s := new Socio(nombre, apellido, correoElectronico, numeroDeSocio, contrasenia);
    r := Success(s);
  }

  /** When both given names are letters only, the full name determines the
      name and the family name: its first space separates them. */
  lemma NombreCompletoInyectivo(s: Socio, t: Socio)
    requires SoloLetras(s.nombre) && SoloLetras(t.nombre)
    requires s.NombreCompleto() == t.NombreCompleto()
    ensures s.nombre == t.nombre && s.apellido == t.apellido
  {
    var r := s.NombreCompleto();
    var m, n := |s.nombre|, |t.nombre|;
    if m < n {
      assert false;
    } else if n < m {
      assert false;
    }
    assert s.nombre == r[..m] == t.nombre;
  }

  /** Starting from a new member, nine loans succeed and the tenth fails
      with `CapacityExceeded`, leaving nine books on loan. */
  method LlenarPrestamos(nombre: string, apellido: string, correoElectronico: string,
                         numeroDeSocio: int32, contrasenia: string, libro: Libro)
    returns (resultados: seq<Outcome>, prestados: nat)
    ensures |resultados| == NUMERO_LIBROS_MAXIMO + 1
    ensures forall i :: 0 <= i < NUMERO_LIBROS_MAXIMO ==> resultados[i] == Pass
    ensures resultados[NUMERO_LIBROS_MAXIMO] == Fail(CapacityExceeded)
    ensures prestados == NUMERO_LIBROS_MAXIMO
  {
    var s := new Socio(nombre, apellido, correoElectronico, numeroDeSocio, contrasenia);
    resultados := [];
    var i := 0;
    while i < NUMERO_LIBROS_MAXIMO + 1
      invariant 0 <= i <= NUMERO_LIBROS_MAXIMO + 1
      invariant s.Valid() && |resultados| == i
      invariant |s.librosEnPrestamo| == if i <= NUMERO_LIBROS_MAXIMO then i else NUMERO_LIBROS_MAXIMO
      invariant forall j :: 0 <= j < i && j < NUMERO_LIBROS_MAXIMO ==> resultados[j] == Pass
      invariant i == NUMERO_LIBROS_MAXIMO + 1 ==> resultados[NUMERO_LIBROS_MAXIMO] == Fail(CapacityExceeded)
    {
      var o := s.AgregarLibro(libro);
      resultados := resultados + [o];
      i := i + 1;
    }
    prestados := |s.librosEnPrestamo|;
  }
}
