# Bibliotech lending core, modelled in Dafny

This project models the core of a small library-lending system: the member
entity `Socio` (identity fields, construction checks, a loan list bounded by
`NUMERO_LIBROS_MAXIMO = 9`, four setters), the immutable rating value
`Calificacion`, and the orchestrator `Sistema`, which owns the member
collection, the book collection and the single optional session member, and
runs login and logout, registration, book lookup by ISBN, the catalog report,
the loan workflow, profile edits and book rating.

Files and modules:

- `common.dfy`, module `Common`: `int32` (a Java `int`), `Option`, `Outcome`
  (a `void` that may throw), `Result` (a value or a throw), and the error kinds
  (`ValidationError` with the offending field, `AuthenticationFailed`,
  `InvalidState`, `NotFound`, `CapacityExceeded`, `NoCopiesAvailable`,
  `NotBorrowed`). A thrown `IllegalArgumentException` becomes a `Fail`/`Failure`.
- `model.dfy`, module `Model`: the class `Socio`, whose fields the source
  updates in place, and the datatypes `Libro` (a record: ISBN, title, author,
  category, copies available, ratings) and `Calificacion`. The member number is
  a `const`, so no method can change it. The object invariant `Socio.Valid()`
  bounds the loan list by 9.
- `services.dfy`, module `Services`: the class `Sistema` with fields `socios`
  and `libros` (hole-free sequences, reassigned in place) and `socio` (the
  session, `null` when logged out), the specification function of the two
  linear searches (`PrimerIndice`, used as `IndiceLibro` and `IndiceSocio`),
  those of the catalog (`Ficha`, `Catalogo`), and the lemmas about them. `Sistema.Valid()` says that
  the session member belongs to the member collection, that member numbers are
  positive and unique, and that every member keeps the loan bound. Every
  method keeps it.
- `as_written.dfy`, module `ComoEscrito`: four operations as the code
  literally behaves, with the lemmas that show how they differ from the
  corrected definitions (see "## Findings").

Where the code and the intended design differ, the model follows the design
that the code's comments and structure state, and the literal behaviour is
kept in `ComoEscrito`:

- The name, family-name and password checks use `x.equalsIgnoreCase(x)`,
  which is always true. The model checks names against `[a-zA-Z]+` and the
  password for non-emptiness.
- `agregarLibro` compares the allocated array length (10) with 9 and drops the
  array `Utils.append` returns. The model keeps the loans as a sequence whose
  live length is compared with 9.
- `realizarPrestamoLibro` attaches the loan before checking copies, refuses
  only a negative count, and never decrements it. The model checks
  `copies > 0` first, then adds the loan and decrements the count in one step.
- `iniciarSession` is unfinished: it compares a `String` with an `int` and
  falls through to registration. The model does a linear search by member
  number, then a password comparison, then sets the session.
- `calificarLibro` does not compile: it calls `socios.getClass(int)`, uses the
  `void` method `agregarLibro` as a boolean, and assigns its lookup to the
  session field. The model looks the member up by number without touching the
  session, tests read-only whether the member has a book with that ISBN on
  loan, and only then appends the rating to the book. The code passes only
  the star value to the book's `agregarCalifiacion`; the model appends a
  `Calificacion` of the member and the stars, the rating value the code
  defines for that purpose.
- `nuevoUsuario` stores the new member in the member's own `socio` field,
  where nobody reads it. The model appends the validated member to the member
  collection.
- The collections start as arrays of ten `null`s and grow by `Utils.append`,
  so `buscarLibro` and the catalog loop would dereference `null`. The model's
  collections are sequences with no holes.
- The edit methods' check `this.socio.getNumeroDeSocio() == socio.getNumeroDeSocio()`
  compares the session member with itself. The model treats an edit as
  authorised whenever a session exists and fails with `InvalidState` otherwise
  (the code would throw a `NullPointerException`).
- A login while a session is open is refused with `InvalidState`, which makes
  the session exclusive. The code's positivity check on the number still comes
  first, so a number `<= 0` is refused with `ValidationError` whether or not a
  session is open. As written, that call throws too: the string-with-`int`
  comparison fails, and registration's member constructor rejects every name.
- Member numbers must be positive and unique, but the member constructor
  accepts any `int`. Registration therefore checks the number itself, first,
  and refuses a number `<= 0` or already in use with
  `ValidationError(NumeroDeSocio)`. The code's `nuevoUsuario` checks neither.

## Model

| member | source | states |
|---|---|---|
| `Model.NuevaCalificacion` | src/cl/ucn/disc/pa/bibliotech/model/Calificacion.java:8-21 | the rating's two getters return exactly the member and the star value it was built with; any `int` star value is accepted (no requires) |
| `Model.ValidarSocio` | src/cl/ucn/disc/pa/bibliotech/model/Socio.java:64-95 | construction passes iff name and family name match `[a-zA-Z]+`, the e-mail validator accepts the e-mail and the password is non-empty; a failure names the first failing field in check order (name, family name, e-mail, password), each tag holding exactly when that field is the first to fail, and never `NumeroDeSocio` |
| `Model.RechazaNombreNoAlfabetico` | src/cl/ucn/disc/pa/bibliotech/model/Socio.java:64-68 | a name holding any non-letter character (digit, space, accented letter) is rejected whatever the other fields |
| `Model.SocioSemillaValido` | src/cl/ucn/disc/pa/bibliotech/services/Sistema.java:61 | the first-run member "John", "Doe", "john123" passes the checks whenever the e-mail validator accepts "john.doe@ucn.cl" |
| `Model.Socio.constructor` | src/cl/ucn/disc/pa/bibliotech/model/Socio.java:62-96 | the member stores exactly the given name, family name, e-mail, number and password (the assignments at 69, 76, 80, 85, 95) and starts with no loans (line 49); the checks are `NuevoSocio`'s |
| `Model.NuevoSocio` | src/cl/ucn/disc/pa/bibliotech/model/Socio.java:62-96 | the constructor fails exactly when `ValidarSocio` fails, with its error; on success it yields a new member holding exactly the given fields and an empty loan list; any `int` member number is accepted |
| `Model.Socio.NombreCompleto` | src/cl/ucn/disc/pa/bibliotech/model/Socio.java:117-120 | the full name is the name, then one space at position `|nombre|`, then the family name |
| `Model.NombreCompletoInyectivo` | src/cl/ucn/disc/pa/bibliotech/model/Socio.java:117-120 | for letter-only names, equal full names imply equal names and equal family names: the full name can be split back |
| `Model.Socio.AgregarLibro` | src/cl/ucn/disc/pa/bibliotech/model/Socio.java:150-157 | fails with `CapacityExceeded`, loans unchanged, exactly when 9 books are held; otherwise appends the book after all earlier loans; only the loan list may change and the bound of 9 is kept |
| `Model.LlenarPrestamos` | src/cl/ucn/disc/pa/bibliotech/model/Socio.java:150-157 | from a new member, nine successive loans succeed and the tenth fails with `CapacityExceeded`, leaving nine books on loan |
| `Model.Socio.SetContrasenia` | src/cl/ucn/disc/pa/bibliotech/model/Socio.java:170-172 | replaces the password with the argument, no re-validation; no other field may change |
| `Model.Socio.SetNombre` | src/cl/ucn/disc/pa/bibliotech/model/Socio.java:178-180 | replaces the name with the argument, no re-validation; no other field may change |
| `Model.Socio.SetApellido` | src/cl/ucn/disc/pa/bibliotech/model/Socio.java:186-188 | replaces the family name with the argument, no re-validation; no other field may change |
| `Model.Socio.SetCorreoElectronico` | src/cl/ucn/disc/pa/bibliotech/model/Socio.java:194-196 | replaces the e-mail with the argument, no re-validation; no other field may change |
| `Services.PrimerIndice` | src/cl/ucn/disc/pa/bibliotech/services/Sistema.java:164-174 | the first-match search behind both lookups (books by ISBN, members by number): the result is the position of an element with that key and no earlier element has it; it is `None` exactly when no element has it |
| `Services.CredencialesUnicas` | src/cl/ucn/disc/pa/bibliotech/services/Sistema.java:89-92 | with unique member numbers, "the first member with the number has the password" holds iff some member has both the number and the password |
| `Services.CatalogoConcat` | src/cl/ucn/disc/pa/bibliotech/services/Sistema.java:144-156 | the report of two collections in sequence is the first's report followed by the second's |
| `Services.CatalogoEntrada` | src/cl/ucn/disc/pa/bibliotech/services/Sistema.java:147-153 | book `k`'s five-line block stands between the blocks of the books before it and those after it, so blocks follow collection order |
| `Services.SemillaIsbnDuplicado` | src/cl/ucn/disc/pa/bibliotech/services/Sistema.java:64-67 | in the first-run books, which share ISBN "1491910771", the lookup finds the first entry |
| `Services.Sistema.constructor` | src/cl/ucn/disc/pa/bibliotech/services/Sistema.java:47-67 | the first-run state: nobody logged in, exactly the member John Doe (number 1, password "john123", no loans) and exactly the two seed books |
| `Services.Sistema.BuscarSocio` | src/cl/ucn/disc/pa/bibliotech/services/Sistema.java:89-90 | the linear search by member number returns `IndiceSocio`, the first-match search keyed by member number: the first member with that number, or `None` |
| `Services.Sistema.BuscarLibro` | src/cl/ucn/disc/pa/bibliotech/services/Sistema.java:164-174 | the loop with early return yields `IndiceLibro`, the first-match search keyed by ISBN: the first book with that ISBN, or `None` |
| `Services.Sistema.IniciarSession` | src/cl/ucn/disc/pa/bibliotech/services/Sistema.java:82-98 | a number `<= 0` fails with `ValidationError`, checked first as in the code; otherwise a login while a session is open fails with `InvalidState`; from the logged-out state, no member with the number fails with `NotFound`; a wrong password for the first such member fails with `AuthenticationFailed`; every failure leaves the session unchanged; for a positive number, success holds iff some member has both the number and the password; success sets the session to that member, which is in the collection; only the session may change |
| `Services.Sistema.CerrarSession` | src/cl/ucn/disc/pa/bibliotech/services/Sistema.java:103-105 | the session becomes empty and nothing else may change |
| `Services.Sistema.NuevoUsuario` | src/cl/ucn/disc/pa/bibliotech/services/Sistema.java:216-229 | a number `<= 0` or already held by a member fails with `ValidationError(NumeroDeSocio)`; otherwise the outcome is the member checks' outcome; on failure the collection is unchanged; on success exactly one new member with the given fields and no loans is appended after the existing ones |
| `Services.Sistema.RealizarPrestamoLibro` | src/cl/ucn/disc/pa/bibliotech/services/Sistema.java:112-137 | no session fails with `InvalidState`, an unknown ISBN with `NotFound`, no copy left with `NoCopiesAvailable`, a full loan list with `CapacityExceeded`, each changing neither loans nor books; success appends the first book with that ISBN to the session member's loans and decrements exactly that book's copies by one; the member's identity fields never change |
| `Services.Sistema.ObtegerCatalogoLibros` | src/cl/ucn/disc/pa/bibliotech/services/Sistema.java:144-156 | the loop's string is the catalog of the whole collection: each book's Titulo/Autor/ISBN/Categoria lines and a blank line, in collection order; `""` for no books |
| `Services.Sistema.ObtenerDatosSocioLogeado` | src/cl/ucn/disc/pa/bibliotech/services/Sistema.java:207-214 | fails with `InvalidState` exactly when nobody is logged in; otherwise "Nombre: " + name + " " + family name + "\nCorreo Electronico: " + e-mail |
| `Services.Sistema.EditarNombre` | src/cl/ucn/disc/pa/bibliotech/services/Sistema.java:230-238 | without a session fails with `InvalidState`; otherwise sets only the session member's name to the new value, leaving its other fields and loans |
| `Services.Sistema.EditarApellido` | src/cl/ucn/disc/pa/bibliotech/services/Sistema.java:240-250 | without a session fails with `InvalidState`; otherwise sets only the session member's family name, leaving its other fields and loans |
| `Services.Sistema.CambiarContrasenia` | src/cl/ucn/disc/pa/bibliotech/services/Sistema.java:252-260 | without a session fails with `InvalidState`; otherwise sets only the session member's password, leaving its other fields and loans |
| `Services.Sistema.EditarCorreo` | src/cl/ucn/disc/pa/bibliotech/services/Sistema.java:262-270 | without a session fails with `InvalidState`; otherwise sets only the session member's e-mail, leaving its other fields and loans |
| `Services.Sistema.CalificarLibro` | src/cl/ucn/disc/pa/bibliotech/services/Sistema.java:271-287 | an unknown member or ISBN fails with `NotFound`, a member without a book of that ISBN on loan with `NotBorrowed`, both leaving the books unchanged; success appends rating (member, stars) to the first book with that ISBN and changes no other book; the session is untouched |
| `Services.EscenarioPrimerArranque` | src/cl/ucn/disc/pa/bibliotech/services/Sistema.java:47-137 | from the first-run state: lending before login fails with `InvalidState`, a wrong password with `AuthenticationFailed`, login 1/"john123" succeeds, a second login fails with `InvalidState`, lending "1491910771" takes one copy of the first seed book only and gives John that book, and after logout lending fails again |
| `Services.EscenarioRegistro` | src/cl/ucn/disc/pa/bibliotech/services/Sistema.java:216-229 | from the first-run state: registering "Ana Lopez" under number 1 fails with `ValidationError(NumeroDeSocio)`; under number 2 it succeeds, leaving two members; login 2/"pw1" then succeeds |
| `ComoEscrito.ValidacionComoEscritaRechazaTodo` | src/cl/ucn/disc/pa/bibliotech/model/Socio.java:66-92 | as written, every construction is rejected on the name, the first-run member included |
| `ComoEscrito.AgregarLibroComoEscritoNoAgrega` | src/cl/ucn/disc/pa/bibliotech/model/Socio.java:150-157 | as written, adding a book reports success and leaves the loans unchanged, whatever their number |
| `ComoEscrito.PrestamoComoEscritoSinCopias` | src/cl/ucn/disc/pa/bibliotech/services/Sistema.java:126-132 | as written, a book with zero copies is lent and keeps a count of zero; with a negative count (and with a working `agregarLibro`) the loan fails but stays attached |
| `ComoEscrito.IniciarSessionComoEscritoNuncaInicia` | src/cl/ucn/disc/pa/bibliotech/services/Sistema.java:82-98 | as written, every login call fails and none changes the session: logged out it throws asking for the session's data; logged in it reaches registration, whose member constructor rejects the name |

## Left out

- Persistence: loading and saving the JSON snapshots through Gson and files (`cargarInformacion`, `guardarInformacion`, and the calls to it after the constructor and after a loan). Only the seeded first-run state is modelled; the "file not found" branch is assumed taken.
- Console input and output: the prompts and reads of `nuevoUsuario` and the four edit methods, and the messages `calificarLibro` prints. New values and registration fields are method parameters; printed messages become the returned outcome.
- `Utils.validarEmail` is not part of this model: it is a parameter `emailValido: string -> bool` of the checks. `Utils.append` becomes sequence concatenation.
- The first-run member is built without running the member checks, so the first-run state assumes that the e-mail validator accepts "john.doe@ucn.cl"; `SocioSemillaValido` shows that the other checks pass.
- `Libro` is not part of this model: it is a record. The copy count its four-argument constructor gives the seed books is a parameter of the `Sistema` constructor, and `agregarCalifiacion` becomes appending to the record's rating list.
- The loan list holds book values, not references: the book a member holds is the record as it was when lent, so a later change of copies or ratings in the collection does not show in the member's loans.
- `null` strings and members: Dafny strings and non-null references cannot be `null`, so the `== null` tests of the constructor are vacuous here.
- The self-referential `Socio.socio` field and `agregarSocio`: they store a member nobody reads.
- The getters `getNombre`, `getApellido`, `getCorreoElectronico`, `getNumeroDeSocio`, `getContrasenia`, `getSocio`, `getEstrellas`: each is a field read in Dafny; `numeroDeSocio` is a `const`, so it always returns the constructed value.
- `equalsIgnoreCase` in `ComoEscrito` folds only ASCII case, where Java also folds other scripts. `[a-zA-Z]+` is ASCII-only in Java too, so `SoloLetras` is exact.

## Findings

| source | as written | input that shows it | evidently intended | confidence | as-written member | corrected member |
|---|---|---|---|---|---|---|
| src/cl/ucn/disc/pa/bibliotech/model/Socio.java:66-92 | the checks `x.equalsIgnoreCase(x)` are always true, so every construction throws | `new Socio("John", "Doe", "john.doe@ucn.cl", 1, "john123")` throws "Ingrese un nombre" | names non-empty and `[a-zA-Z]+`, password non-empty | high (not executed) | `ComoEscrito.ValidacionComoEscritaRechazaTodo` | `Model.ValidarSocio` |
| src/cl/ucn/disc/pa/bibliotech/model/Socio.java:152-156 | compares the allocated array length 10 with 9, and drops the array `Utils.append` returns | a member holding 9 books: `agregarLibro` succeeds and the loans stay as they were | refuse at 9 live loans, otherwise append | high (not executed) | `ComoEscrito.AgregarLibroComoEscritoNoAgrega` | `Model.Socio.AgregarLibro` |
| src/cl/ucn/disc/pa/bibliotech/services/Sistema.java:126-132 | attaches the loan first (with a working `agregarLibro`), refuses only a negative count afterwards, never decrements | a book with 0 copies is lent and still shows 0 copies | check copies > 0, then attach and decrement together | high (not executed) | `ComoEscrito.PrestamoComoEscritoSinCopias` | `Services.Sistema.RealizarPrestamoLibro` |
| src/cl/ucn/disc/pa/bibliotech/services/Sistema.java:89-94 | compares the session's data string with an `int` (never equal) after asking for it (throws when logged out), then falls through to registration, whose constructor always throws | first-run state, `iniciarSession(1, "john123")` throws "No hay un Socio logeado"; with a session open, it throws "Ingrese un nombre" | refuse while logged in, search by number, compare password, set session | high (not executed) | `ComoEscrito.IniciarSessionComoEscritoNuncaInicia` | `Services.Sistema.IniciarSession` |
