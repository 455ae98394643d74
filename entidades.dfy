/**
 * The persistent entities of the catalog and the data-transfer objects of
 * book creation. Links between entities are identities, never embedded
 * objects: a book refers to its author by id, an association refers to its
 * book and its category by id.
 */
module Entidades {
  import opened Nullable

  /** An instant as the server clock reports it; the model never inspects it. */
  datatype Instante = Instante(marca: int)

  /** An author row: generated id, name and nationality, each nullable. */
  datatype Autor = Autor(id: Option<int>, nombre: Option<string>, nacionalidad: Option<string>)

  /**
   * A book row: generated id, title, publication year and the id of its
   * author (`None` when the book has no author reference).
   */
  datatype Libro = Libro(id: Option<int>, titulo: Option<string>, anioPublicacion: Option<int>, autor: Option<int>)

  /**
   * A book–category association row, carrying its own priority, creation
   * instant and comment.
   */
  datatype LibroCategoria = LibroCategoria(
    libro: int,
    categoria: int,
    prioridad: Option<int>,
    addedAt: Instante,
    comentario: Option<string>)

  /** One requested category of a creation request. */
  datatype LibroCategoriaDTO = LibroCategoriaDTO(categoria: int, prioridad: Option<int>, comentario: Option<string>)

  /** A book creation request. The detail fields isbn, numPaginas and idioma are accepted but never stored. */
  datatype CrearLibroInDTO = CrearLibroInDTO(
    titulo: Option<string>,
    anioPublicacion: Option<int>,
    autor: int,
    isbn: Option<string>,
    numPaginas: Option<int>,
    idioma: Option<string>,
    categorias: set<LibroCategoriaDTO>)

  /** The answer to a creation request: a success flag and an optional error message. */
  datatype CrearLibroOutDTO = CrearLibroOutDTO(exitoso: bool, mensajeError: Option<string>)

  /** The answer as freshly constructed: not successful, no message. */
  const SalidaInicial := CrearLibroOutDTO(false, None)
}
