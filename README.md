# Library catalog: book creation and update-merge rules

A Dafny model of the service layer of a library-catalog backend (Spring
Boot, Java). The catalog holds authors, books, categories and the
book–category association, which carries its own priority, comment and
creation instant. The model covers the two service classes that hold the
logic:

- `LibroService`: book creation (author check, category check, save of the
  book, batch save of its category associations, success flag and error
  message) and the partial update of a book;
- `AutorService`: author creation, deletion, full replace, partial merge,
  the existence check and the count by nationality.

Layout:

- `nullable.dfy` — module `Nullable`: `Option` for Java `null`, and the
  field rule of a partial update (`Fusionar`).
- `entidades.dfy` — module `Entidades`: the rows `Autor`, `Libro`,
  `LibroCategoria`, the request `CrearLibroInDTO` with its entries
  `LibroCategoriaDTO`, the answer `CrearLibroOutDTO`, and an opaque
  `Instante` for clock readings. Links between rows are ids.
- `almacen.dfy` — module `Almacen`: class `Repositorio`, the store the
  services share. It holds the author table and the book table (maps from id
  to row), the set of existing category ids, the sequence of saved
  association rows, and one id counter per table (authors and books each
  have their own, as each has its own auto-increment column, starting at 1). Its methods are the primitives the
  services call: save, delete, batch save.
- `autor_servicio.dfy` — module `AutorServicio`.
- `libro_servicio.dfy` — module `LibroServicio`.
- `escenarios.dfy` — module `Escenarios`: four client methods showing what
  a caller can conclude from the contracts (the "Dune" creation, a missing
  author, partial versus full author update, the same partial author patch
  sent twice).

Services are modules whose methods take the store `db`. Every
state-changing method declares `modifies db`, keeps the store invariant
`Repositorio.Valid()` (each row sits under its own id, and every id is
below its table's counter) and states the whole new store in terms of the
old one. `ValidarExistenciCategorias` only reads the store. The new state of a table
after an update is given by a function of the old table (`TablaTrasParcial`,
`TablaTrasReemplazo`), and the promised properties (idempotence, the
effect on counts) are lemmas about those functions.

Modelling choices:

- `libroRepository.save` of a new book takes a flag `asignaId`. When it is
  false the save hands back no id, and the model's store keeps nothing:
  a table keyed by id has no place for a row without one.
- `LocalDateTime.now()` is the parameter `ahora`. The source reads the clock
  once per association row. The model uses one reading for the whole batch.
- The request's `categorias` is a set, as in the source. The batch is the
  image of that set under the entry-to-row mapping. That mapping is
  injective, so the batch has exactly one row per entry (`CardinalLote`).
  `saveAll` is a loop that appends the rows one at a time, in some order.
- `ICategoriaService.validarExistenciaCategoria` is not part of this model.
  It is taken to be membership in the set of stored category ids.
- The Java class of `CrearLibroOutDTO` is not available; the model's
  datatype `CrearLibroOutDTO` has its two fields, and a freshly built
  answer is taken to be "not successful, no message" (`SalidaInicial`).
- Saving an author or a book whose id is not stored inserts it under a new
  id. This is the behaviour the model assumes; what a merge of an entity
  whose caller-chosen id is not stored does depends on the JPA provider
  and its version, and nothing in the code fixes it. It matters for `crearAutor`,
  which saves the author as the caller sent it, id included
  (`CrearAutor`): a stored id overwrites that row, any other id gives a
  new row under the next id of the author counter. The update services save rows
  they have just read, and book creation saves a book without id.
- Each table's ids come from its own counter, which only grows, so an id freed by a delete is
  never handed out again.
- The author reference of a book is the author's id. A patch's author
  object is reduced to its id.

Behaviour of the code that the model keeps as it is:

- the creation answer holds only the success flag and the error message,
  not the created book;
- a save that hands back no id gives "not successful, no message", with no
  error of its own;
- the book and its association batch are two separate writes, with no
  transaction around them;
- a partial book update stores a patched author reference without checking
  that the author exists, while creation checks it.

## Model

| member | source | states |
|---|---|---|
| `Nullable.Fusionar` | src/main/java/breaze/intro_spring/services/impl/AutorService.java:99-104 | a non-null patch value wins; a null one keeps the current value |
| `Nullable.FusionarIdempotente` | src/main/java/breaze/intro_spring/services/impl/AutorService.java:99-104 | patching one field twice with the same value equals patching it once |
| `Almacen.Repositorio.GuardarAutor` | src/main/java/breaze/intro_spring/services/impl/AutorService.java:56 | a stored id is overwritten in place, any other author is inserted under a fresh id; the other tables are untouched |
| `Almacen.Repositorio.GuardarLibro` | src/main/java/breaze/intro_spring/services/impl/LibroService.java:70 | a stored id is overwritten; a new book gets a fresh id and is stored, or, when no id is handed back, comes back without id and the store is unchanged |
| `Almacen.Repositorio.BorrarAutor` | src/main/java/breaze/intro_spring/services/impl/AutorService.java:67 | only the author row under the id is removed |
| `Almacen.Repositorio.GuardarLibroCategorias` | src/main/java/breaze/intro_spring/services/impl/LibroCategoriaService.java:17-20 | the previous rows stay in front, and the rows appended are exactly the batch, each once |
| `AutorServicio.ReemplazoAutor` | src/main/java/breaze/intro_spring/services/impl/AutorService.java:81-85 | a full replace keeps the id and takes both incoming fields, null included |
| `AutorServicio.FusionParcialAutor` | src/main/java/breaze/intro_spring/services/impl/AutorService.java:98-105 | a partial merge keeps the id and overwrites name and nationality only where the patch is non-null |
| `AutorServicio.TablaTrasParcial` | src/main/java/breaze/intro_spring/services/impl/AutorService.java:96-106 | after a partial update, the same ids are stored, only the row under the target id changes, and it becomes the merge |
| `AutorServicio.TablaTrasReemplazo` | src/main/java/breaze/intro_spring/services/impl/AutorService.java:79-86 | after a full replace, the same ids are stored, only the row under the target id changes, and it becomes the replacement |
| `AutorServicio.ReemplazoIgnoraExistente` | src/main/java/breaze/intro_spring/services/impl/AutorService.java:82-83 | a full replace depends on the stored author only through its id |
| `AutorServicio.ReemplazoEsFusionSinNulos` | src/main/java/breaze/intro_spring/services/impl/AutorService.java:79-106 | when the incoming author has no null field, full replace and partial merge give the same author |
| `AutorServicio.FusionParcialVaciaEsIdentidad` | src/main/java/breaze/intro_spring/services/impl/AutorService.java:99-104 | a patch with only null fields leaves the author as it was |
| `AutorServicio.TablaTrasParcialIdempotente` | src/main/java/breaze/intro_spring/services/impl/AutorService.java:96-106 | applying the same partial patch twice gives the same table as applying it once |
| `AutorServicio.ExisteAutor` | src/main/java/breaze/intro_spring/services/impl/AutorService.java:130-132 | true iff the id is a key of the author table |
| `AutorServicio.Cuenta` | src/main/java/breaze/intro_spring/services/impl/AutorService.java:116 | the number of stored authors whose nationality equals the argument, at most the number of authors |
| `AutorServicio.ContarAutoresPorNacionalidad` | src/main/java/breaze/intro_spring/services/impl/AutorService.java:115-117 | the number of stored authors whose nationality equals the argument (null matches null), at most the number of authors |
| `AutorServicio.CuentaTrasBorrar` | src/main/java/breaze/intro_spring/services/impl/AutorService.java:65-70 | deleting an author lowers its nationality's count by one and no other count |
| `AutorServicio.CuentaTrasEscribir` | src/main/java/breaze/intro_spring/services/impl/AutorService.java:79-86 | writing an author under an id moves one unit from the replaced row's nationality to the new one's |
| `AutorServicio.CrearAutor` | src/main/java/breaze/intro_spring/services/impl/AutorService.java:55-57 | the saved author exists afterwards with the given name and nationality; an author whose id is stored overwrites that row and comes back as sent; any other author is stored under the author counter's next id, which no row holds, and that counter advances while the book counter stays |
| `AutorServicio.EliminarAutor` | src/main/java/breaze/intro_spring/services/impl/AutorService.java:65-70 | true and only that author row removed iff the id was stored, every other table and both id counters unchanged; false and the store unchanged otherwise |
| `AutorServicio.ActualizarAutor` | src/main/java/breaze/intro_spring/services/impl/AutorService.java:79-86 | missing id: empty result, store unchanged; present id: the full replace is stored and returned with the same id, other authors, the other tables and both id counters unchanged |
| `AutorServicio.ActualizacionParcial` | src/main/java/breaze/intro_spring/services/impl/AutorService.java:96-107 | missing id: empty result, store unchanged; present id: the partial merge is stored and returned, other authors, the other tables and both id counters unchanged, so a repeated patch leaves the store as the first one did |
| `LibroServicio.ValidarExistenciCategorias` | src/main/java/breaze/intro_spring/services/impl/LibroService.java:130-138 | the counter of missing categories, over every entry, is zero iff every requested category id is stored; an empty request passes |
| `LibroServicio.LibroCategoriaDTOToEntity` | src/main/java/breaze/intro_spring/services/impl/LibroService.java:115-128 | the row references the given book id and instant and carries back exactly its entry's category id, priority and comment |
| `LibroServicio.CardinalLote` | src/main/java/breaze/intro_spring/services/impl/LibroService.java:72-74 | distinct entries give distinct rows, so the batch has as many rows as the request has entries |
| `LibroServicio.LoteLibroCategorias` | src/main/java/breaze/intro_spring/services/impl/LibroService.java:72-74 | one row per entry, every row for the new book and the same instant, every row traced back to an entry |
| `LibroServicio.LoteAdmiteParRepetido` | src/main/java/breaze/intro_spring/services/impl/LibroService.java:72-74 | two entries for one category with different priorities give two rows for the same book–category pair |
| `LibroServicio.CrearLibro` | src/main/java/breaze/intro_spring/services/impl/LibroService.java:54-80 | missing author: its message, nothing written, whatever the categories; then missing category: its message, nothing written; no id: not successful, no message, nothing written; otherwise exactly one new book (title, year, author id) under the book counter's next id, that counter advanced by one and the author counter unchanged, and one row per entry for that book, success |
| `LibroServicio.FusionParcialLibro` | src/main/java/breaze/intro_spring/services/impl/LibroService.java:101-110 | a partial merge keeps the id and overwrites title, year and author reference only where the patch is non-null, the author without any existence check |
| `LibroServicio.TablaTrasParcial` | src/main/java/breaze/intro_spring/services/impl/LibroService.java:99-112 | after a partial update, the same ids are stored and only the row under the target id changes, to the merge |
| `LibroServicio.TablaTrasParcialIdempotente` | src/main/java/breaze/intro_spring/services/impl/LibroService.java:99-112 | applying the same book patch twice gives the same table as applying it once |
| `LibroServicio.FusionParcialVaciaEsIdentidad` | src/main/java/breaze/intro_spring/services/impl/LibroService.java:102-110 | a patch with only null fields leaves the book as it was |
| `LibroServicio.ActualizarParcial` | src/main/java/breaze/intro_spring/services/impl/LibroService.java:98-113 | missing id: empty result, store unchanged; present id: the merge is stored and returned, authors, associations and both id counters untouched |

## Left out

- Controllers, role checks and HTTP status mapping: framework plumbing, outside the service layer.
- AutorServicio.ContarAutoresPorNacionalidad: compares nationalities by exact string equality, while the database compares the `nacionalidad` column under its collation, which for MySQL is case-insensitive by default (and on MySQL 8 also accent-insensitive); the collation is not part of this model.
- Exact id values: the model's ids are those its counters hand out, starting at 1 per table; the values a database assigns (steps, gaps left by failed inserts) are not part of this model.
- AutorServicio.CrearAutor: assumes that saving an author whose caller-chosen id is not stored inserts it under a new id; a JPA provider may instead reject such a save, which the model does not capture.
- Repository internals (Spring Data derived queries, JPA identity generation, foreign-key constraints): the store is an abstract set of tables. A book may therefore reference an author that is not stored, and deleting an author that books reference succeeds.
- `AutorService.obtenerAutores`, `obtenerAutor` and `LibroService.obtenerLibros`: plain reads of a table, with no logic.
- `buscarAutoresPorTexto`: its case-insensitive substring match is Unicode case folding inside a library that is not part of this model.
- Null author id in a creation request, and a null category set or null category entry once the author check passes: the source throws on each of these (`existsById(null)`, iterating a null set, `getCategoria()` on a null entry), and the model's input types cannot express them.
- Null category id in a creation request: what `ICategoriaService.validarExistenciaCategoria` does with it is not part of this model, and the model's input type cannot express it.
- Null patch in an update: the source throws only when the id is found, since `findById(id).map(...)` never runs its lambda on a missing id and answers empty; the model's patch types cannot express a null patch.
- A patch author object whose id is null: the source copies any non-null author object into the book, and the model's author reference `Option<int>` can express only an author id or no author.
- `libroCreado.setLibroCategorias`: it fills the in-memory collection of the returned object, which is the inverse side of the relation and is not written; the model keeps associations only in the store.
- `LibroServicio.CrearLibro`: uses one clock reading for all rows of a batch, while the source reads the clock once per row.
- Transactions and concurrency: the two writes of a creation are not atomic in the source either; concurrent deletes between validation and write are not modelled.
- Deduplication of the batch by Lombok's `equals`: the model's rows are values, and `CardinalLote` shows that distinct entries always give distinct rows.
- `DetalleLibro` and `Categoria` contents: the core only asks whether a category id exists; the detail fields of a request are never stored.
