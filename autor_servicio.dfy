/**
 * The author service: creation, deletion, full and partial update of an
 * author, and the two read-only queries the rest of the catalog uses.
 */
module AutorServicio {
  import opened Nullable
  import opened Entidades
  import opened Almacen

  // ---------------------------------------------------------------------
  // Merge rules
  // ---------------------------------------------------------------------

  /**
   * Full replace: the stored author keeps its id, and name and nationality
   * take the incoming values unconditionally, null included.
   */
  function ReemplazoAutor(existente: Autor, entrante: Autor): (r: Autor)
    ensures r.id == existente.id
    ensures r.nombre == entrante.nombre && r.nacionalidad == entrante.nacionalidad
  {
    existente.(nombre := entrante.nombre, nacionalidad := entrante.nacionalidad)
  }

  /**
   * Partial merge: the stored author keeps its id, and name and
   * nationality are overwritten only by the non-null fields of the patch.
   */
  function FusionParcialAutor(existente: Autor, parche: Autor): (r: Autor)
    ensures r.id == existente.id
    ensures r.nombre == (if parche.nombre.Some? then parche.nombre else existente.nombre)
    ensures r.nacionalidad == (if parche.nacionalidad.Some? then parche.nacionalidad else existente.nacionalidad)
  {
    Autor(existente.id, Fusionar(existente.nombre, parche.nombre), Fusionar(existente.nacionalidad, parche.nacionalidad))
  }

  /** The author table after a partial update of `id` (unchanged when `id` is absent). */
  function TablaTrasParcial(autores: map<int, Autor>, id: int, parche: Autor): (r: map<int, Autor>)
    ensures r.Keys == autores.Keys
    ensures forall k | k in autores && k != id :: r[k] == autores[k]
    ensures id in autores ==> r[id] == FusionParcialAutor(autores[id], parche)
  {
    if id in autores then autores[id := FusionParcialAutor(autores[id], parche)] else autores
  }

  /** The author table after a full replace of `id` (unchanged when `id` is absent). */
  function TablaTrasReemplazo(autores: map<int, Autor>, id: int, entrante: Autor): (r: map<int, Autor>)
    ensures r.Keys == autores.Keys
    ensures forall k | k in autores && k != id :: r[k] == autores[k]
    ensures id in autores ==> r[id] == ReemplazoAutor(autores[id], entrante)
  {
    if id in autores then autores[id := ReemplazoAutor(autores[id], entrante)] else autores
  }

  /** A full replace does not depend on what the stored author held, only on which id it has. */
  lemma ReemplazoIgnoraExistente(e1: Autor, e2: Autor, entrante: Autor)
    requires e1.id == e2.id
    ensures ReemplazoAutor(e1, entrante) == ReemplazoAutor(e2, entrante)
  {
  }

  /** When every field of the incoming author is non-null, full replace and partial merge agree. */
  lemma ReemplazoEsFusionSinNulos(existente: Autor, entrante: Autor)
    requires entrante.nombre.Some? && entrante.nacionalidad.Some?
    ensures ReemplazoAutor(existente, entrante) == FusionParcialAutor(existente, entrante)
  {
  }

  /** A patch whose fields are all null changes nothing. */
  lemma FusionParcialVaciaEsIdentidad(existente: Autor, id: Option<int>)
    ensures FusionParcialAutor(existente, Autor(id, None, None)) == existente
  {
  }

  /** Applying the same partial patch to the same author twice equals applying it once. */
  lemma TablaTrasParcialIdempotente(autores: map<int, Autor>, id: int, parche: Autor)
    ensures TablaTrasParcial(TablaTrasParcial(autores, id, parche), id, parche) == TablaTrasParcial(autores, id, parche)
  {
    if id in autores {
      FusionarIdempotente(autores[id].nombre, parche.nombre);
      FusionarIdempotente(autores[id].nacionalidad, parche.nacionalidad);
    }
  }

  // ---------------------------------------------------------------------
  // Queries
  // ---------------------------------------------------------------------

  /** True iff an author is stored under `id`. */
  function ExisteAutor(db: Repositorio, id: int): (r: bool)
    reads db
    ensures r <==> id in db.autores
  {
    id in db.autores
  }

  /** The ids of the stored authors whose nationality equals `nacionalidad` (null matches null). */
  function ConNacionalidad(autores: map<int, Autor>, nacionalidad: Option<string>): (r: set<int>)
  {
    set k | k in autores && autores[k].nacionalidad == nacionalidad
  }

  /** The number of stored authors whose nationality equals `nacionalidad`. */
  function Cuenta(autores: map<int, Autor>, nacionalidad: Option<string>): (r: nat)
    ensures r == |ConNacionalidad(autores, nacionalidad)|
    ensures r <= |autores|
  {
    SubconjuntoMenor(ConNacionalidad(autores, nacionalidad), autores.Keys);
    |ConNacionalidad(autores, nacionalidad)|
  }

  /** A subset of a finite set is no larger than it. */
  lemma {:induction false} SubconjuntoMenor<T>(a: set<T>, b: set<T>)
    requires a <= b
    ensures |a| <= |b|
    decreases a
  {
    if a != {} {
      var x :| x in a;
      SubconjuntoMenor(a - {x}, b - {x});
    }
  }

  /** How many stored authors have nationality `nacionalidad`. */
  function ContarAutoresPorNacionalidad(db: Repositorio, nacionalidad: Option<string>): (r: nat)
    reads db
    ensures r == |ConNacionalidad(db.autores, nacionalidad)|
    ensures r <= |db.autores|
  {
    Cuenta(db.autores, nacionalidad)
  }

  /** Deleting an author lowers the count of its nationality by one and leaves every other count alone. */
  lemma CuentaTrasBorrar(autores: map<int, Autor>, id: int, nacionalidad: Option<string>)
    ensures Cuenta(autores - {id}, nacionalidad) ==
            Cuenta(autores, nacionalidad) - (if id in autores && autores[id].nacionalidad == nacionalidad then 1 else 0)
  {
    var antes := ConNacionalidad(autores, nacionalidad);
    var despues := ConNacionalidad(autores - {id}, nacionalidad);
    assert despues == antes - {id};
  }

  /**
   * Writing author `a` under `id` (an insert or an overwrite) removes the
   * row it replaces from the count of that row's nationality and adds `a`
   * to the count of its own.
   */
  lemma CuentaTrasEscribir(autores: map<int, Autor>, id: int, a: Autor, nacionalidad: Option<string>)
    ensures Cuenta(autores[id := a], nacionalidad) ==
            Cuenta(autores, nacionalidad)
            - (if id in autores && autores[id].nacionalidad == nacionalidad then 1 else 0)
            + (if a.nacionalidad == nacionalidad then 1 else 0)
  {
    var antes := ConNacionalidad(autores, nacionalidad);
    var resto := antes - {id};
    var despues := ConNacionalidad(autores[id := a], nacionalidad);
    assert despues == if a.nacionalidad == nacionalidad then resto + {id} else resto;
    assert antes == if id in autores && autores[id].nacionalidad == nacionalidad then resto + {id} else resto;
  }

  // ---------------------------------------------------------------------
  // Commands
  // ---------------------------------------------------------------------

  /** Saves `autor`, returning the stored row. */
  method CrearAutor(db: Repositorio, autor: Autor) returns (creado: Autor)
    requires db.Valid()
    modifies db
    ensures db.Valid()
    ensures creado.id.Some? && ExisteAutor(db, creado.id.value)
    ensures creado.nombre == autor.nombre && creado.nacionalidad == autor.nacionalidad
    ensures db.autores == old(db.autores)[creado.id.value := creado]
    ensures autor.id.Some? && autor.id.value in old(db.autores) ==>
              creado == autor && db.siguienteIdAutor == old(db.siguienteIdAutor)
    ensures !(autor.id.Some? && autor.id.value in old(db.autores)) ==>
              creado == autor.(id := Some(old(db.siguienteIdAutor))) && creado.id.value !in old(db.autores) &&
              db.siguienteIdAutor == old(db.siguienteIdAutor) + 1
    ensures db.libros == old(db.libros) && db.categorias == old(db.categorias)
    ensures db.libroCategorias == old(db.libroCategorias) && db.siguienteIdLibro == old(db.siguienteIdLibro)
  {
    creado := db.GuardarAutor(autor);
  }

  /** Deletes the author under `id`; true iff there was one. */
  method EliminarAutor(db: Repositorio, id: int) returns (eliminado: bool)
    requires db.Valid()
    modifies db
    ensures db.Valid()
    ensures eliminado <==> id in old(db.autores)
    ensures !ExisteAutor(db, id)
    ensures db.autores == old(db.autores) - {id}
    ensures !eliminado ==> unchanged(db)
    ensures db.libros == old(db.libros) && db.categorias == old(db.categorias)
    ensures db.libroCategorias == old(db.libroCategorias) && db.siguienteIdAutor == old(db.siguienteIdAutor) && db.siguienteIdLibro == old(db.siguienteIdLibro)
  {
    if id in db.autores {
      db.BorrarAutor(id);
      eliminado := true;
    } else {
      eliminado := false;
    }
  }

  /**
   * Full update of the author under `id`: absent id gives `None` and no
   * change; otherwise both fields are overwritten and the row is saved.
   */
  method ActualizarAutor(db: Repositorio, id: int, autor: Autor) returns (r: Option<Autor>)
    requires db.Valid()
    modifies db
    ensures db.Valid()
    ensures id !in old(db.autores) ==> r == None && unchanged(db)
    ensures id in old(db.autores) ==> r == Some(ReemplazoAutor(old(db.autores)[id], autor))
    ensures r.Some? ==> r.value.id == Some(id)
    ensures db.autores == TablaTrasReemplazo(old(db.autores), id, autor)
    ensures db.libros == old(db.libros) && db.categorias == old(db.categorias)
    ensures db.libroCategorias == old(db.libroCategorias) && db.siguienteIdAutor == old(db.siguienteIdAutor) && db.siguienteIdLibro == old(db.siguienteIdLibro)
  {
    if id in db.autores {
      var fusionado := ReemplazoAutor(db.autores[id], autor);
      var guardado := db.GuardarAutor(fusionado);
      r := Some(guardado);
    } else {
      r := None;
    }
  }

  /**
   * Partial update of the author under `id`: absent id gives `None` and no
   * change; otherwise only the non-null patch fields are written.
   */
  method ActualizacionParcial(db: Repositorio, id: int, autor: Autor) returns (r: Option<Autor>)
    requires db.Valid()
    modifies db
    ensures db.Valid()
    ensures id !in old(db.autores) ==> r == None && unchanged(db)
    ensures id in old(db.autores) ==> r == Some(FusionParcialAutor(old(db.autores)[id], autor))
    ensures r.Some? ==> r.value.id == Some(id)
    ensures db.autores == TablaTrasParcial(old(db.autores), id, autor)
    ensures db.libros == old(db.libros) && db.categorias == old(db.categorias)
    ensures db.libroCategorias == old(db.libroCategorias) && db.siguienteIdAutor == old(db.siguienteIdAutor) && db.siguienteIdLibro == old(db.siguienteIdLibro)
  {
    if id in db.autores {
      var fusionado := FusionParcialAutor(db.autores[id], autor);
      var guardado := db.GuardarAutor(fusionado);
      r := Some(guardado);
    } else {
      r := None;
    }
  }
}
