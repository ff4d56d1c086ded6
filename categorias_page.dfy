/**
 * The category page script: it takes the slug from the file name, loads
 * the category and its listings, and shows them as cards that can be
 * re-sorted by a filter button or narrowed by a search box. The cards are
 * modelled as the sequence of listings the grid shows, in order.
 */
module CategoriasPage {
  import opened Base
  import opened Strings
  import opened Sorting

  // ---------------------------------------------------------------------
  // obtenerSlugCategoria

  /** `pathname.split('/').pop().replace('.html', '')`. */
  function ObtenerSlugCategoria(pathname: string): (slug: string)
    ensures '/' !in slug
    ensures (forall j :: 0 <= j ==> !OccursAt(LastPiece(pathname, '/'), ".html", j)) ==> slug == LastPiece(pathname, '/')
  {
    ReplaceFirst(LastPiece(pathname, '/'), ".html", "")
  }

  /** The last piece of a path that ends in `/name` is `name`, when `name` holds no slash. */
  lemma LastPieceOfPath(dirs: string, name: string)
    requires '/' !in name
    ensures LastPiece(dirs + "/" + name, '/') == name
  {
    var s := dirs + "/" + name;
    var r := LastPiece(s, '/');
    assert s[|s| - |name|..] == name;
    if |r| > |name| {
      LongerSuffixHasSlash(dirs, name, r);
      assert false;
    } else if |r| < |name| {
      ShorterSuffixFollowsName(dirs, name, r);
      assert false;
    }
  }

  /** A suffix of `dirs/name` shorter than `name` follows a character of `name`. */
  lemma ShorterSuffixFollowsName(dirs: string, name: string, r: string)
    requires |r| < |name|
    ensures var s := dirs + "/" + name; s[|s| - |r| - 1] in name
  {
    var s := dirs + "/" + name;
    assert s[|s| - |r| - 1] == name[|name| - |r| - 1];
  }

  /** A suffix of `dirs/name` longer than `name` takes in the slash. */
  lemma LongerSuffixHasSlash(dirs: string, name: string, r: string)
    requires |name| < |r| <= |dirs + "/" + name|
    requires (dirs + "/" + name)[|dirs + "/" + name| - |r|..] == r
    ensures '/' in r
  {
    var s := dirs + "/" + name;
    assert r[|r| - |name| - 1] == s[|s| - |name| - 1] == '/';
  }

  /** A page `dirs/name.html`, with no dot in `name`, belongs to the category whose slug is `name`. */
  lemma SlugOfHtmlPage(dirs: string, name: string)
    requires '/' !in name && '.' !in name
    ensures ObtenerSlugCategoria(dirs + "/" + name + ".html") == name
  {
    var file := name + ".html";
    assert '/' !in file;
    assert dirs + "/" + name + ".html" == dirs + "/" + file;
    LastPieceOfPath(dirs, file);
    assert OccursAt(file, ".html", |name|);
    forall j | 0 <= j < |name| ensures !OccursAt(file, ".html", j) {
      assert file[j] == name[j];
    }
    assert file[..|name|] == name;
    assert file[|name| + 5..] == "";
  }

  // ---------------------------------------------------------------------
  // truncarTexto and the star string of crearTarjetaIA

  /** `r` is a slice of `s` with only white space around it. */
  ghost predicate TrimmedFrom(s: string, r: string) {
    exists i: nat, j: nat :: PaddedSlice(s, r, i, j)
  }

  /**
   * `truncarTexto(texto, maxLength)`: "" for a missing or empty text; the
   * text itself when it fits; otherwise its first `maxLength` characters,
   * trimmed, followed by "...".
   */
  function TruncarTexto(texto: Option<string>, maxLength: nat): (r: string)
    ensures !TruthyStr(texto) ==> r == ""
    ensures TruthyStr(texto) && |texto.value| <= maxLength ==> r == texto.value
    ensures TruthyStr(texto) && |texto.value| > maxLength ==>
      && |r| >= 3 && r[|r| - 3..] == "..."
      && TrimmedFrom(texto.value[..maxLength], r[..|r| - 3])
      && (r[..|r| - 3] == [] || (!IsSpace(r[0]) && !IsSpace(r[|r| - 4])))
    ensures |r| <= maxLength + 3
  {
    if !TruthyStr(texto) then ""
    else if |texto.value| <= maxLength then texto.value
    else
      var t := Trim(texto.value[..maxLength]);
      var r := t + "...";
      assert r[..|r| - 3] == t;
      r
  }

  /** `Math.round`: the nearest integer, halves upwards. */
  function Round(x: real): (n: int)
    ensures n as real - 0.5 <= x < n as real + 0.5
  {
    (x + 0.5).Floor
  }

  /**
   * The star string for a rating (`parseFloat(calificacion) || 0`):
   * `round(rating)` full stars then `5 - round(rating)` empty ones. Either
   * count negative makes `repeat` throw, which is `None` here.
   */
  function Estrellas(calificacion: Option<real>): (stars: Option<string>)
    ensures var rating := if calificacion.Some? then calificacion.value else 0.0;
      && (stars.Some? <==> 0 <= Round(rating) <= 5)
      && (stars.Some? ==>
            && |stars.value| == 5
            && (forall i :: 0 <= i < Round(rating) ==> stars.value[i] == '\U{2605}')
            && (forall i :: Round(rating) <= i < 5 ==> stars.value[i] == '\U{2606}'))
  {
    var rating := if calificacion.Some? then calificacion.value else 0.0;
    var n := Round(rating);
    if 0 <= n <= 5 then Some(Repeat('\U{2605}', n) + Repeat('\U{2606}', 5 - n)) else None
  }

  /** Every rating from 0 to 5 gives five stars; a missing rating gives five empty ones. */
  lemma EstrellasOfValidRating(calificacion: Option<real>)
    requires calificacion.Some? ==> 0.0 <= calificacion.value <= 5.0
    ensures Estrellas(calificacion).Some? && |Estrellas(calificacion).value| == 5
    ensures calificacion.None? ==> Estrellas(calificacion) == Some(Repeat('\U{2606}', 5))
  {
    if calificacion.None? {
      assert Round(0.0) == 0;
      assert Repeat('\U{2605}', 0) == [];
      assert Repeat('\U{2605}', 0) + Repeat('\U{2606}', 5) == Repeat('\U{2606}', 5);
    }
  }

  // ---------------------------------------------------------------------
  // the listings of the page

  /** An element of `data.ias`: the fields the page reads. */
  datatype IaItem = IaItem(
    ia_id: int,
    nombre: string,
    descripcion: string,
    total_usos: Option<int>,
    calificacion_promedio: Option<real>,
    fecha_publicacion: string)

  /** `data.categoria`: the fields the page shows. */
  datatype CategoriaInfo = CategoriaInfo(nombre: string, icono: string, descripcion: Option<string>)

  /** `total_usos || 0`. */
  function UsosKey(ia: IaItem): real {
    if ia.total_usos.Some? then ia.total_usos.value as real else 0.0
  }

  /** `parseFloat(calificacion_promedio) || 0`. */
  function RatingKey(ia: IaItem): real {
    if ia.calificacion_promedio.Some? then ia.calificacion_promedio.value else 0.0
  }

  /** `new Date(fecha_publicacion)` as a number; `time` is the date parser. */
  function FechaKey(time: string -> real): IaItem -> real {
    (ia: IaItem) => time(ia.fecha_publicacion)
  }

  /** The key `filtrarIAs` sorts by, if the filter is one it knows. */
  function FiltroKey(filtro: string, time: string -> real): (k: Option<IaItem -> real>)
    ensures k.Some? <==> filtro in {"most-used", "top-rated", "latest"}
  {
    if filtro == "most-used" then Some(UsosKey)
    else if filtro == "top-rated" then Some(RatingKey)
    else if filtro == "latest" then Some(FechaKey(time))
    else None
  }

  // ---------------------------------------------------------------------
  // the search box

  /** The term the search looks for: the input trimmed and lower-cased. */
  function Termino(input: string): string {
    ToLower(Trim(input))
  }

  /** The search predicate: the lower-cased name or description contains the term. */
  predicate Coincide(ia: IaItem, termino: string) {
    Includes(ToLower(ia.nombre), termino) || Includes(ToLower(ia.descripcion), termino)
  }

  /** `ias.filter(ia => coincide(ia, termino))`. */
  function FiltrarCoincidencias(ias: seq<IaItem>, termino: string): (r: seq<IaItem>)
    ensures |r| <= |ias|
    ensures forall x :: x in r ==> x in ias && Coincide(x, termino)
  {
    if ias == [] then []
    else (if Coincide(ias[0], termino) then [ias[0]] else []) + FiltrarCoincidencias(ias[1..], termino)
  }

  /** Every matching listing is kept. */
  lemma {:induction false} FiltrarCoincidenciasComplete(ias: seq<IaItem>, termino: string, x: IaItem)
    requires x in ias && Coincide(x, termino)
    ensures x in FiltrarCoincidencias(ias, termino)
    decreases |ias|
  {
    if ias[0] != x {
      FiltrarCoincidenciasComplete(ias[1..], termino, x);
    }
  }

  /** Filtering keeps the original order: it distributes over concatenation. */
  lemma {:induction false} FiltrarCoincidenciasConcat(a: seq<IaItem>, b: seq<IaItem>, termino: string)
    ensures FiltrarCoincidencias(a + b, termino) == FiltrarCoincidencias(a, termino) + FiltrarCoincidencias(b, termino)
    decreases |a|
  {
    if a == [] {
      assert a + b == b;
    } else {
      assert (a + b)[1..] == a[1..] + b;
      FiltrarCoincidenciasConcat(a[1..], b, termino);
    }
  }

  /** The filter keeps exactly the matching listings. */
  lemma FiltrarCoincidenciasExact(ias: seq<IaItem>, termino: string)
    ensures forall x :: x in FiltrarCoincidencias(ias, termino) <==> x in ias && Coincide(x, termino)
  {
    forall x | x in ias && Coincide(x, termino) ensures x in FiltrarCoincidencias(ias, termino) {
      FiltrarCoincidenciasComplete(ias, termino, x);
    }
  }

  /**
   * What the search shows for an input: all listings for an input of
   * white space only, otherwise exactly the listings whose lower-cased
   * name or description holds the trimmed, lower-cased input.
   */
  function Busqueda(originales: seq<IaItem>, input: string): (r: seq<IaItem>)
    ensures (forall k :: 0 <= k < |input| ==> IsSpace(input[k])) ==> r == originales
    ensures Termino(input) != "" ==> forall x :: x in r <==> x in originales && Coincide(x, Termino(input))
    ensures |r| <= |originales|
  {
    TrimEmptyIffBlank(input);
    FiltrarCoincidenciasExact(originales, Termino(input));
    if Termino(input) == "" then originales else FiltrarCoincidencias(originales, Termino(input))
  }

  // ---------------------------------------------------------------------
  // the page state

  /** The globals of the page and the grid of cards it shows. */
  class Page {
    var iasOriginales: seq<IaItem>
    var categoriaActual: Option<CategoriaInfo>
    var grid: seq<IaItem>
    var gridShown: bool
    var emptyState: bool

    /** The state before `cargarCategoria` has run. */
    constructor ()
      ensures iasOriginales == [] && categoriaActual.None? && grid == [] && gridShown && !emptyState
    {
      iasOriginales, categoriaActual, grid, emptyState := [], None, [], false;
      gridShown := true;
    }

    /**
     * `cargarCategoria` with the category response: `None` when the fetch
     * failed, which leaves the page as it was. Otherwise both globals are
     * set and the grid shows the listings, or, when there are none, the
     * grid is hidden and the empty state shown.
     */
    method CargarCategoria(response: Option<(CategoriaInfo, seq<IaItem>)>)
      modifies this
      ensures response.None? ==> unchanged(this)
      ensures response.Some? ==>
        && categoriaActual == Some(response.value.0)
        && iasOriginales == response.value.1
        && (|response.value.1| > 0 ==> grid == response.value.1 && gridShown && emptyState == old(emptyState))
        && (|response.value.1| == 0 ==> grid == old(grid) && !gridShown && emptyState)
    {
      if response.None? {
        return;
      }
      var (categoria, ias) := response.value;
      categoriaActual := Some(categoria);
      iasOriginales := ias;
      if |ias| > 0 {
        grid := ias;
        gridShown := true;
      } else {
        emptyState := true;
        gridShown := false;
      }
    }

    /**
     * `filtrarIAs(filtro)`: the grid shows a sorted copy of the originals,
     * which stay as they were; an unknown filter shows them in their
     * original order.
     */
    method FiltrarIAs(filtro: string, time: string -> real)
      modifies this`grid, this`gridShown
      ensures gridShown
      ensures multiset(grid) == multiset(iasOriginales)
      ensures FiltroKey(filtro, time).Some? ==> SortedDesc(grid, FiltroKey(filtro, time).value)
      ensures FiltroKey(filtro, time).None? ==> grid == iasOriginales
      ensures filtro == "most-used" ==> SortedDesc(grid, UsosKey)
      ensures filtro == "top-rated" ==> SortedDesc(grid, RatingKey)
    {
      var key := FiltroKey(filtro, time);
      gridShown := true;
      if key.Some? {
        grid := SortedCopy(iasOriginales, key.value);
      } else {
        grid := iasOriginales;
      }
    }

    /** The search box, after the debounce: the grid shows `Busqueda(iasOriginales, input)`. */
    method Buscar(input: string)
      modifies this`grid, this`gridShown
      ensures grid == Busqueda(iasOriginales, input) && gridShown
    {
      var termino := Termino(input);
      var originales := iasOriginales;
      if termino == "" {
        grid := originales;
      } else {
        grid := FiltrarCoincidencias(originales, termino);
      }
      assert grid == Busqueda(originales, input);
      gridShown := true;
    }
  }
}
