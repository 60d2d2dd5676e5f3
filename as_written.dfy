/** Four operations as the code literally behaves, kept beside the corrected
    definitions in `Model` and `Services` so that each discrepancy is stated
    and proved. Nothing else in the project uses these. */
module ComoEscrito {
  import opened Common
  import opened Model

  function Minuscula(c: char): char {
    if 'A' <= c <= 'Z' then (c as int + 32) as char else c
  }

  /** `a.equalsIgnoreCase(b)`, restricted to ASCII case folding. */
  predicate IgualIgnorandoMayusculas(a: string, b: string) {
    |a| == |b| && forall i :: 0 <= i < |a| ==> Minuscula(a[i]) == Minuscula(b[i])
  }

  /** The member constructor's checks as written: each name and the password
      are refused when they equal themselves ignoring case. */
  function ValidarSocioComoEscrito(nombre: string, apellido: string, correoElectronico: string,
                                   contrasenia: string, emailValido: string -> bool): Outcome
  {
    if IgualIgnorandoMayusculas(nombre, nombre) || !SoloLetras(nombre) then Fail(ValidationError(Nombre))
    else if IgualIgnorandoMayusculas(apellido, apellido) || !SoloLetras(apellido) then Fail(ValidationError(Apellido))
    else if !emailValido(correoElectronico) then Fail(ValidationError(CorreoElectronico))
    else if IgualIgnorandoMayusculas(contrasenia, contrasenia) then Fail(ValidationError(Contrasenia))
    else Pass
  }

  /** As written, every construction fails on the name, the first-run member
      "John Doe" included. */
  lemma ValidacionComoEscritaRechazaTodo(nombre: string, apellido: string, correoElectronico: string,
                                         contrasenia: string, emailValido: string -> bool)
    ensures ValidarSocioComoEscrito(nombre, apellido, correoElectronico, contrasenia, emailValido)
            == Fail(ValidationError(Nombre))
    ensures ValidarSocioComoEscrito("John", "Doe", "john.doe@ucn.cl", "john123", emailValido).Fail?
  {
  }

  /** The length of the loan array the member allocates. */
  const LONGITUD_ARREGLO: nat := 10

  /** `agregarLibro` as written: the guard compares the allocated length with
      the maximum, and the array that `Utils.append` returns is dropped. The
      result pairs the outcome with the loan list afterwards. */
  function AgregarLibroComoEscrito(prestamos: seq<Libro>, libro: Libro): (Outcome, seq<Libro>) {
    if LONGITUD_ARREGLO == NUMERO_LIBROS_MAXIMO then (Fail(CapacityExceeded), prestamos)
    else (Pass, prestamos)
  }

  /** As written, adding a book never fails and never records the book, even
      for a member that already holds nine. */
  lemma AgregarLibroComoEscritoNoAgrega(prestamos: seq<Libro>, libro: Libro)
    ensures AgregarLibroComoEscrito(prestamos, libro) == (Pass, prestamos)
  {
  }

  /** The loan step of `realizarPrestamoLibro` as written (with a working
      `agregarLibro`): the book is attached first, the copy check comes after
      and only refuses a negative count, and the count is never decreased.
      The result is the outcome, the loan list and the book's copy count
      afterwards. */
  function PrestamoComoEscrito(prestamos: seq<Libro>, libro: Libro): (Outcome, seq<Libro>, int32) {
    if |prestamos| == NUMERO_LIBROS_MAXIMO then (Fail(CapacityExceeded), prestamos, libro.cantCopiasDisponibles)
    else if libro.cantCopiasDisponibles < 0 then
      (Fail(NoCopiesAvailable), prestamos + [libro], libro.cantCopiasDisponibles)
    else (Pass, prestamos + [libro], libro.cantCopiasDisponibles)
  }

  /** As written (with a working `agregarLibro`), a book with no copies left
      is lent and its count stays at zero; a negative count is refused but
      the loan stays attached. */
  lemma PrestamoComoEscritoSinCopias(libro: Libro)
    requires libro.cantCopiasDisponibles <= 0
    ensures libro.cantCopiasDisponibles == 0 ==> PrestamoComoEscrito([], libro) == (Pass, [libro], 0)
    ensures libro.cantCopiasDisponibles < 0 ==> PrestamoComoEscrito([], libro).1 == [libro]
  {
    assert [] + [libro] == [libro];
  }

  /** `iniciarSession` as written: after the positivity check it asks for the
      logged-in member's data, which throws when nobody is logged in;
      otherwise it compares that string with an `int`, which is never equal,
      and falls through to registration, whose member constructor runs the
      as-written checks on the fields read from the console. No path sets the
      session; the result is the outcome and whether the session changed. */
  function IniciarSessionComoEscrito(numeroDeSocio: int32, contrasenia: string, haySesion: bool,
                                     nombre: string, apellido: string, correoElectronico: string,
                                     emailValido: string -> bool): (Outcome, bool)
  {
    if numeroDeSocio <= 0 then (Fail(ValidationError(NumeroDeSocio)), false)
    else if !haySesion then (Fail(InvalidState), false)
    else (ValidarSocioComoEscrito(nombre, apellido, correoElectronico, contrasenia, emailValido), false)
  }

  /** As written, nobody can ever log in: every call fails and none changes
      the session. With a session open, the failure is the member
      constructor's rejection of the name. */
  lemma IniciarSessionComoEscritoNuncaInicia(numeroDeSocio: int32, contrasenia: string, haySesion: bool,
                                             nombre: string, apellido: string, correoElectronico: string,
                                             emailValido: string -> bool)
    ensures IniciarSessionComoEscrito(numeroDeSocio, contrasenia, haySesion, nombre, apellido,
                                      correoElectronico, emailValido).0.Fail?
    ensures !IniciarSessionComoEscrito(numeroDeSocio, contrasenia, haySesion, nombre, apellido,
                                       correoElectronico, emailValido).1
    ensures numeroDeSocio > 0 && haySesion ==>
      IniciarSessionComoEscrito(numeroDeSocio, contrasenia, haySesion, nombre, apellido,
                                correoElectronico, emailValido).0 == Fail(ValidationError(Nombre))
  {
    ValidacionComoEscritaRechazaTodo(nombre, apellido, correoElectronico, contrasenia, emailValido);
  }
}
