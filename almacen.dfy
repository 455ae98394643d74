/**
 * The persistence store behind the services: one table per entity, keyed by
 * generated identity, and the primitives the services call on it
 * (save, delete, batch save). The author table and the book table each
 * hand out identities from a counter of their own.
 */
module Almacen {
  import opened Nullable
  import opened Entidades

  class Repositorio {
    var autores: map<int, Autor>
    var libros: map<int, Libro>
    /** Ids of the existing categories; the core only ever asks whether one exists. */
    var categorias: set<int>
    /** The association rows, in the order they were written. */
    var libroCategorias: seq<LibroCategoria>
    /** The next identity the author table hands out (its own auto-increment). */
    var siguienteIdAutor: int
    /** The next identity the book table hands out (its own auto-increment). */
    var siguienteIdLibro: int

    /** Every row sits under its own id, and every id was handed out before. */
    ghost predicate Valid()
      reads this
    {
      && (forall k | k in autores :: autores[k].id == Some(k) && k < siguienteIdAutor)
      && (forall k | k in libros :: libros[k].id == Some(k) && k < siguienteIdLibro)
    }

    constructor (categorias: set<int>)
      ensures Valid()
      ensures autores == map[] && libros == map[] && libroCategorias == []
      ensures this.categorias == categorias
      ensures siguienteIdAutor == 1 && siguienteIdLibro == 1
    {
      autores := map[];
      libros := map[];
      this.categorias := categorias;
      libroCategorias := [];
      siguienteIdAutor := 1;
      siguienteIdLibro := 1;
    }

    /**
     * Saves an author: a row whose id is already stored is overwritten,
     * any other author is inserted under a newly generated id.
     */
    method GuardarAutor(a: Autor) returns (guardado: Autor)
      requires Valid()
      modifies this
      ensures Valid()
      ensures guardado.id.Some? && guardado.nombre == a.nombre && guardado.nacionalidad == a.nacionalidad
      ensures a.id.Some? && a.id.value in old(autores) ==> guardado == a && siguienteIdAutor == old(siguienteIdAutor)
      ensures !(a.id.Some? && a.id.value in old(autores)) ==>
                guardado.id == Some(old(siguienteIdAutor)) && old(siguienteIdAutor) !in old(autores) &&
                siguienteIdAutor == old(siguienteIdAutor) + 1
      ensures autores == old(autores)[guardado.id.value := guardado]
      ensures libros == old(libros) && categorias == old(categorias) && libroCategorias == old(libroCategorias)
      ensures siguienteIdLibro == old(siguienteIdLibro)
    {
      if a.id.Some? && a.id.value in autores {
        guardado := a;
      } else {
        guardado := a.(id := Some(siguienteIdAutor));
        siguienteIdAutor := siguienteIdAutor + 1;
      }
      autores := autores[guardado.id.value := guardado];
    }

    /**
     * Saves a book: a row whose id is already stored is overwritten; any
     * other book is a new row, which gets a generated id and is stored when
     * `asignaId` holds, and otherwise comes back without id and is not stored.
     */
    method GuardarLibro(l: Libro, asignaId: bool) returns (guardado: Libro)
      requires Valid()
      modifies this
      ensures Valid()
      ensures guardado.titulo == l.titulo && guardado.anioPublicacion == l.anioPublicacion && guardado.autor == l.autor
      ensures l.id.Some? && l.id.value in old(libros) ==>
                guardado == l && libros == old(libros)[l.id.value := l] && siguienteIdLibro == old(siguienteIdLibro)
      ensures !(l.id.Some? && l.id.value in old(libros)) && asignaId ==>
                guardado.id == Some(old(siguienteIdLibro)) && old(siguienteIdLibro) !in old(libros) &&
                libros == old(libros)[old(siguienteIdLibro) := guardado] && siguienteIdLibro == old(siguienteIdLibro) + 1
      ensures !(l.id.Some? && l.id.value in old(libros)) && !asignaId ==>
                guardado.id == None && unchanged(this)
      ensures autores == old(autores) && categorias == old(categorias) && libroCategorias == old(libroCategorias)
      ensures siguienteIdAutor == old(siguienteIdAutor)
    {
      if l.id.Some? && l.id.value in libros {
        guardado := l;
        libros := libros[l.id.value := l];
      } else if asignaId {
        guardado := l.(id := Some(siguienteIdLibro));
        libros := libros[siguienteIdLibro := guardado];
        siguienteIdLibro := siguienteIdLibro + 1;
      } else {
        guardado := l.(id := None);
      }
    }

    /** Deletes the author row under `id`, if any. */
    method BorrarAutor(id: int)
      requires Valid()
      modifies this
      ensures Valid()
      ensures autores == old(autores) - {id}
      ensures libros == old(libros) && categorias == old(categorias) && libroCategorias == old(libroCategorias)
      ensures siguienteIdAutor == old(siguienteIdAutor) && siguienteIdLibro == old(siguienteIdLibro)
    {
      autores := autores - {id};
    }

    /**
     * Saves a batch of association rows one by one: the rows already stored
     * stay in front, and the rows appended are exactly the batch, each once.
     */
    method GuardarLibroCategorias(lote: set<LibroCategoria>)
      requires Valid()
      modifies this
      ensures Valid()
      ensures |libroCategorias| == |old(libroCategorias)| + |lote|
      ensures libroCategorias[..|old(libroCategorias)|] == old(libroCategorias)
      ensures multiset(libroCategorias[|old(libroCategorias)|..]) == multiset(lote)
      ensures autores == old(autores) && libros == old(libros) && categorias == old(categorias)
      ensures siguienteIdAutor == old(siguienteIdAutor) && siguienteIdLibro == old(siguienteIdLibro)
    {
      var pendientes := lote;
      while pendientes != {}
        invariant pendientes <= lote
        invariant |libroCategorias| >= |old(libroCategorias)|
        invariant libroCategorias[..|old(libroCategorias)|] == old(libroCategorias)
        invariant multiset(libroCategorias[|old(libroCategorias)|..]) + multiset(pendientes) == multiset(lote)
        invariant autores == old(autores) && libros == old(libros) && categorias == old(categorias)
        invariant siguienteIdAutor == old(siguienteIdAutor) && siguienteIdLibro == old(siguienteIdLibro)
        decreases pendientes
      {
        var e :| e in pendientes;
        ghost var antes := libroCategorias;
        libroCategorias := libroCategorias + [e];
        assert libroCategorias[|old(libroCategorias)|..] == antes[|old(libroCategorias)|..] + [e];
        assert multiset(pendientes) == multiset(pendientes - {e}) + multiset{e};
        pendientes := pendientes - {e};
      }
      assert |multiset(libroCategorias[|old(libroCategorias)|..])| == |multiset(lote)|;
    }
  }
}
