/**
 * The book service: book creation with its referential checks and its
 * two writes (the book, then its category associations as one batch), and
 * the partial update of a stored book.
 */
module LibroServicio {
  import opened Nullable
  import opened Entidades
  import opened Almacen
  import AutorServicio

  const MensajeAutorInexistente := "No existe el autor ingresado"
  const MensajeCategoriaInexistente := "Alguna de las categorias ingresadas no existe"

  // ---------------------------------------------------------------------
  // Category validation
  // ---------------------------------------------------------------------

  /** The requested entries whose category id is not stored. */
  ghost function Inexistentes(cats: set<LibroCategoriaDTO>, categorias: set<int>): (r: set<LibroCategoriaDTO>)
  {
    set d | d in cats && d.categoria !in categorias
  }

  /** Every requested category id is stored. */
  predicate CategoriasExisten(cats: set<LibroCategoriaDTO>, categorias: set<int>)
  {
    forall d | d in cats :: d.categoria in categorias
  }

  /**
   * Probes every requested entry, counting those whose category does not
   * exist, and accepts iff that count is zero. It does not stop at the
   * first miss.
   */
  method ValidarExistenciCategorias(db: Repositorio, cats: set<LibroCategoriaDTO>) returns (ok: bool)
    ensures ok <==> |Inexistentes(cats, db.categorias)| == 0
    ensures ok <==> CategoriasExisten(cats, db.categorias)
  {
    var noExistentes := 0;
    var pendientes := cats;
    while pendientes != {}
      invariant pendientes <= cats
      invariant noExistentes == |Inexistentes(cats - pendientes, db.categorias)|
      decreases pendientes
    {
      var c :| c in pendientes;
      ghost var vistos := cats - pendientes;
      if c.categoria !in db.categorias {
        assert Inexistentes(vistos + {c}, db.categorias) == Inexistentes(vistos, db.categorias) + {c};
        noExistentes := noExistentes + 1;
      } else {
        assert Inexistentes(vistos + {c}, db.categorias) == Inexistentes(vistos, db.categorias);
      }
      pendientes := pendientes - {c};
      assert cats - pendientes == vistos + {c};
    }
    assert cats - pendientes == cats;
    ok := noExistentes == 0;
    if !ok {
      ghost var d :| d in Inexistentes(cats, db.categorias);
      assert d in cats && d.categoria !in db.categorias;
    }
  }

  // ---------------------------------------------------------------------
  // Association rows
  // ---------------------------------------------------------------------

  /** The request entry an association row was built from. */
  function DtoDe(e: LibroCategoria): (r: LibroCategoriaDTO)
  {
    LibroCategoriaDTO(e.categoria, e.prioridad, e.comentario)
  }

  /**
   * The association row for one request entry: it references the new
   * book's id, carries the entry's category id, priority and comment, and
   * the clock reading `ahora`.
   */
  function LibroCategoriaDTOToEntity(dto: LibroCategoriaDTO, idLibro: int, ahora: Instante): (r: LibroCategoria)
    ensures DtoDe(r) == dto
    ensures r.libro == idLibro && r.addedAt == ahora
  {
    LibroCategoria(idLibro, dto.categoria, dto.prioridad, ahora, dto.comentario)
  }

  /** The rows built from distinct entries for the same book and instant are distinct. */
  lemma {:induction false} CardinalLote(cats: set<LibroCategoriaDTO>, idLibro: int, ahora: Instante)
    ensures |set d | d in cats :: LibroCategoriaDTOToEntity(d, idLibro, ahora)| == |cats|
    decreases cats
  {
    if cats != {} {
      var x :| x in cats;
      var resto := cats - {x};
      CardinalLote(resto, idLibro, ahora);
      var imagenResto := set d | d in resto :: LibroCategoriaDTOToEntity(d, idLibro, ahora);
      var fx := LibroCategoriaDTOToEntity(x, idLibro, ahora);
      assert (set d | d in cats :: LibroCategoriaDTOToEntity(d, idLibro, ahora)) == imagenResto + {fx};
      assert fx !in imagenResto;
    }
  }

  /**
   * The batch written for a new book: one row per request entry, all
   * pointing to `idLibro` and stamped with the same instant.
   */
  function LoteLibroCategorias(cats: set<LibroCategoriaDTO>, idLibro: int, ahora: Instante): (r: set<LibroCategoria>)
    ensures |r| == |cats|
    ensures forall e | e in r :: e.libro == idLibro && e.addedAt == ahora && DtoDe(e) in cats
    ensures forall d | d in cats :: LibroCategoriaDTOToEntity(d, idLibro, ahora) in r
  {
    CardinalLote(cats, idLibro, ahora);
    set d | d in cats :: LibroCategoriaDTOToEntity(d, idLibro, ahora)
  }

  /**
   * Nothing keeps two rows of one batch off the same book–category pair:
   * two entries for one category that differ in priority give two rows.
   */
  lemma LoteAdmiteParRepetido(idLibro: int, ahora: Instante)
    ensures var cats := {LibroCategoriaDTO(3, Some(1), None), LibroCategoriaDTO(3, Some(2), None)};
            var lote := LoteLibroCategorias(cats, idLibro, ahora);
            |lote| == 2 && forall e | e in lote :: e.libro == idLibro && e.categoria == 3
  {
  }

  // ---------------------------------------------------------------------
  // Book creation
  // ---------------------------------------------------------------------

  /**
   * Creates a book from a request. The author check runs first, then the
   * category check; either failure answers with its message and writes
   * nothing. Otherwise the book is saved with title, year and author id;
   * when the save hands back an id (`asignaId`), one association row per
   * requested entry is saved as a batch and the answer is successful.
   * `ahora` is the clock reading used for every row's creation instant.
   */
  method CrearLibro(db: Repositorio, dto: CrearLibroInDTO, ahora: Instante, asignaId: bool)
    returns (salida: CrearLibroOutDTO)
    requires db.Valid()
    modifies db
    ensures db.Valid()
    ensures dto.autor !in old(db.autores) ==>
              salida == CrearLibroOutDTO(false, Some(MensajeAutorInexistente)) && unchanged(db)
    ensures dto.autor in old(db.autores) && !CategoriasExisten(dto.categorias, old(db.categorias)) ==>
              salida == CrearLibroOutDTO(false, Some(MensajeCategoriaInexistente)) && unchanged(db)
    ensures dto.autor in old(db.autores) && CategoriasExisten(dto.categorias, old(db.categorias)) && !asignaId ==>
              salida == CrearLibroOutDTO(false, None) && unchanged(db)
    ensures dto.autor in old(db.autores) && CategoriasExisten(dto.categorias, old(db.categorias)) && asignaId ==>
              var id := old(db.siguienteIdLibro);
              && salida == CrearLibroOutDTO(true, None)
              && id !in old(db.libros)
              && db.libros == old(db.libros)[id := Libro(Some(id), dto.titulo, dto.anioPublicacion, Some(dto.autor))]
              && |db.libroCategorias| == |old(db.libroCategorias)| + |dto.categorias|
              && db.libroCategorias[..|old(db.libroCategorias)|] == old(db.libroCategorias)
              && multiset(db.libroCategorias[|old(db.libroCategorias)|..]) == multiset(LoteLibroCategorias(dto.categorias, id, ahora))
              && db.autores == old(db.autores) && db.categorias == old(db.categorias)
              && db.siguienteIdLibro == old(db.siguienteIdLibro) + 1
              && db.siguienteIdAutor == old(db.siguienteIdAutor)
    ensures salida.exitoso <==> salida.mensajeError.None? && asignaId
  {
    salida := SalidaInicial;
    if !AutorServicio.ExisteAutor(db, dto.autor) {
      salida := salida.(mensajeError := Some(MensajeAutorInexistente));
      return;
    }
    var categoriasOk := ValidarExistenciCategorias(db, dto.categorias);
    if !categoriasOk {
      salida := salida.(mensajeError := Some(MensajeCategoriaInexistente));
      return;
    }
    var libro := Libro(None, dto.titulo, dto.anioPublicacion, Some(dto.autor));
    var libroCreado := db.GuardarLibro(libro, asignaId);
    if libroCreado.id.Some? {
      var libroCategorias := LoteLibroCategorias(dto.categorias, libroCreado.id.value, ahora);
      db.GuardarLibroCategorias(libroCategorias);
      salida := salida.(exitoso := true);
    }
  }

  // ---------------------------------------------------------------------
  // Partial update
  // ---------------------------------------------------------------------

  /**
   * Partial merge of a book: it keeps its id, and title, year and author
   * reference are overwritten only by the non-null fields of the patch.
   * The patched author reference is taken as it is, without checking that
   * such an author exists.
   */
  function FusionParcialLibro(existente: Libro, parche: Libro): (r: Libro)
    ensures r.id == existente.id
    ensures r.titulo == (if parche.titulo.Some? then parche.titulo else existente.titulo)
    ensures r.anioPublicacion == (if parche.anioPublicacion.Some? then parche.anioPublicacion else existente.anioPublicacion)
    ensures r.autor == (if parche.autor.Some? then parche.autor else existente.autor)
  {
    Libro(existente.id,
          Fusionar(existente.titulo, parche.titulo),
          Fusionar(existente.anioPublicacion, parche.anioPublicacion),
          Fusionar(existente.autor, parche.autor))
  }

  /** The book table after a partial update of `id` (unchanged when `id` is absent). */
  function TablaTrasParcial(libros: map<int, Libro>, id: int, parche: Libro): (r: map<int, Libro>)
    ensures r.Keys == libros.Keys
    ensures forall k | k in libros && k != id :: r[k] == libros[k]
    ensures id in libros ==> r[id] == FusionParcialLibro(libros[id], parche)
  {
    if id in libros then libros[id := FusionParcialLibro(libros[id], parche)] else libros
  }

  /** Applying the same partial patch to the same book twice equals applying it once. */
  lemma TablaTrasParcialIdempotente(libros: map<int, Libro>, id: int, parche: Libro)
    ensures TablaTrasParcial(TablaTrasParcial(libros, id, parche), id, parche) == TablaTrasParcial(libros, id, parche)
  {
    if id in libros {
      FusionarIdempotente(libros[id].titulo, parche.titulo);
      FusionarIdempotente(libros[id].anioPublicacion, parche.anioPublicacion);
      FusionarIdempotente(libros[id].autor, parche.autor);
    }
  }

  /** A patch whose fields are all null changes nothing. */
  lemma FusionParcialVaciaEsIdentidad(existente: Libro, id: Option<int>)
    ensures FusionParcialLibro(existente, Libro(id, None, None, None)) == existente
  {
  }

  /**
   * Partial update of the book under `id`: absent id gives `None` and no
   * change; otherwise only the non-null patch fields are written.
   */
  method ActualizarParcial(db: Repositorio, id: int, libro: Libro) returns (r: Option<Libro>)
    requires db.Valid()
    modifies db
    ensures db.Valid()
    ensures id !in old(db.libros) ==> r == None && unchanged(db)
    ensures id in old(db.libros) ==> r == Some(FusionParcialLibro(old(db.libros)[id], libro))
    ensures r.Some? ==> r.value.id == Some(id)
    ensures db.libros == TablaTrasParcial(old(db.libros), id, libro)
    ensures db.autores == old(db.autores) && db.categorias == old(db.categorias)
    ensures db.libroCategorias == old(db.libroCategorias) && db.siguienteIdAutor == old(db.siguienteIdAutor) && db.siguienteIdLibro == old(db.siguienteIdLibro)
  {
    if id in db.libros {
      var existente := db.libros[id];
      var fusionado := FusionParcialLibro(existente, libro);
      var guardado := db.GuardarLibro(fusionado, true);
      r := Some(guardado);
    } else {
      r := None;
    }
  }
}
