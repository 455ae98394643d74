/**
 * Client scenarios: what a caller can conclude from the service contracts
 * alone, on small concrete stores.
 */
module Escenarios {
  import opened Nullable
  import opened Entidades
  import opened Almacen
  import AutorServicio
  import LibroServicio

  /** Creating "Dune" for an existing author and an existing category. */
  method EscenarioCreacion(ahora: Instante) {
    var db := new Repositorio({3});
    var autor := AutorServicio.CrearAutor(db, Autor(None, Some("Frank Herbert"), Some("EEUU")));
    var idAutor := autor.id.value;
    var entrada := LibroCategoriaDTO(3, Some(1), Some("sci-fi"));
    var dto := CrearLibroInDTO(Some("Dune"), Some(1965), idAutor, None, None, None, {entrada});
    var idLibro := db.siguienteIdLibro;
    assert idAutor == 1 && idLibro == 1;
    var salida := LibroServicio.CrearLibro(db, dto, ahora, true);
    assert salida == CrearLibroOutDTO(true, None);
    assert db.libros == map[idLibro := Libro(Some(idLibro), Some("Dune"), Some(1965), Some(idAutor))];
    assert |db.libroCategorias| == 1;
    var lote := LibroServicio.LoteLibroCategorias({entrada}, idLibro, ahora);
    assert LibroServicio.LibroCategoriaDTOToEntity(entrada, idLibro, ahora) in lote;
    assert db.libroCategorias[0] in multiset(lote);
  }

  /** A missing author wins over a missing category, and nothing is written. */
  method EscenarioAutorInexistente(ahora: Instante) {
    var db := new Repositorio({});
    var dto := CrearLibroInDTO(Some("Dune"), Some(1965), 7, None, None, None, {LibroCategoriaDTO(3, None, None)});
    var salida := LibroServicio.CrearLibro(db, dto, ahora, true);
    assert salida == CrearLibroOutDTO(false, Some(LibroServicio.MensajeAutorInexistente));
    assert db.libros == map[] && db.libroCategorias == [];
  }

  /** Partial update fills in the name only; full replace also clears the nationality. */
  method EscenarioActualizacionAutor() {
    var db := new Repositorio({});
    var a := AutorServicio.CrearAutor(db, Autor(None, Some("A"), Some("X")));
    var id := a.id.value;
    var p := AutorServicio.ActualizacionParcial(db, id, Autor(None, Some("B"), None));
    assert p == Some(Autor(Some(id), Some("B"), Some("X")));
    var r := AutorServicio.ActualizarAutor(db, id, Autor(None, Some("C"), None));
    assert r == Some(Autor(Some(id), Some("C"), None));
    var q := AutorServicio.ActualizacionParcial(db, id + 1, Autor(None, Some("D"), None));
    assert q == None;
  }

  /** The same partial author patch, sent twice, leaves the store as the first one did. */
  method EscenarioParcialRepetido() {
    var db := new Repositorio({});
    var a := AutorServicio.CrearAutor(db, Autor(None, Some("A"), Some("X")));
    var id := a.id.value;
    var parche := Autor(None, None, Some("Y"));
    ghost var autores0 := db.autores;
    var r1 := AutorServicio.ActualizacionParcial(db, id, parche);
    ghost var autores1, libros1, asociaciones1 := db.autores, db.libros, db.libroCategorias;
    ghost var siguienteAutor1, siguienteLibro1 := db.siguienteIdAutor, db.siguienteIdLibro;
    var r2 := AutorServicio.ActualizacionParcial(db, id, parche);
    AutorServicio.TablaTrasParcialIdempotente(autores0, id, parche);
    assert r1 == r2;
    assert db.autores == autores1 && db.libros == libros1;
    assert db.libroCategorias == asociaciones1;
    assert db.siguienteIdAutor == siguienteAutor1 && db.siguienteIdLibro == siguienteLibro1;
  }
}
