/** The QR sheet generator screen (frontend/src/components/admin/GeneradorQR.jsx): the
    service names offered as a filter, the selection of points and the guard before the
    PDF request. */
module GeneradorQr {
  import opened Common
  import opened Text

  /** A listed point as the screen uses it. */
  datatype PuntoItem = PuntoItem(id: int, nombre: string, servicioNombre: Option<string>)

  /** `puntosData.map(p => p.servicio_nombre).filter(Boolean)`: the non-empty names in order. */
  function PresentNames(puntos: seq<PuntoItem>): (r: seq<string>)
    ensures forall x :: x in r <==> exists p :: p in puntos && p.servicioNombre == Some(x) && x != ""
    decreases |puntos|
  {
    if puntos == [] then []
    else
      var p := puntos[0];
      (if TruthyStr(p.servicioNombre) then [p.servicioNombre.value] else []) + PresentNames(puntos[1..])
  }

  /** `[...new Set(names)]`: the distinct non-empty service names in first-seen order. */
  function ServiceNames(puntos: seq<PuntoItem>): (r: seq<string>)
    ensures NoDuplicates(r)
    ensures forall x :: x in r <==> exists p :: p in puntos && p.servicioNombre == Some(x) && x != ""
    ensures r == Dedup(PresentNames(puntos))
  {
    Dedup(PresentNames(puntos))
  }

  /** `togglePunto`: a selected id is removed, any other id goes at the end. */
  function TogglePunto(sel: seq<int>, id: int): (r: seq<int>)
    ensures id in r <==> id !in sel
    ensures forall x :: x != id ==> (x in r <==> x in sel)
    ensures id !in sel ==> r == sel + [id]
    ensures id in sel ==> |r| < |sel|
  {
    if id in sel then
      var r := Filter(sel, (x: int) => x != id);
      FilterShrinks(sel, (x: int) => x != id, id);
      r
    else sel + [id]
  }

  /** Filtering out an element the list holds makes it shorter. */
  lemma {:induction false} FilterShrinks(s: seq<int>, p: int -> bool, x: int)
    requires x in s && !p(x)
    ensures |Filter(s, p)| < |s|
  {
    if s[0] != x {
      FilterShrinks(s[1..], p, x);
    }
  }

  /** A selection built by toggling never holds an id twice. */
  lemma ToggleKeepsNoDuplicates(sel: seq<int>, id: int)
    requires NoDuplicates(sel)
    ensures NoDuplicates(TogglePunto(sel, id))
  {
    if id in sel {
      var f := (x: int) => x != id;
      FilterKeepsNoDuplicates(sel, f);
    } else {
      var r := sel + [id];
      forall i, j | 0 <= i < j < |r|
        ensures r[i] != r[j]
      {
        if j == |sel| {
          assert r[i] in sel;
        }
      }
    }
  }

  lemma {:induction false} FilterKeepsNoDuplicates(s: seq<int>, p: int -> bool)
    requires NoDuplicates(s)
    ensures NoDuplicates(Filter(s, p))
  {
    if s != [] {
      assert NoDuplicates(s[1..]) by {
        forall i, j | 0 <= i < j < |s[1..]|
          ensures s[1..][i] != s[1..][j]
        {
          assert s[1..][i] == s[i + 1] && s[1..][j] == s[j + 1];
        }
      }
      FilterKeepsNoDuplicates(s[1..], p);
      var rest := Filter(s[1..], p);
      if p(s[0]) {
        assert s[0] !in s[1..] by {
          forall k | 0 <= k < |s[1..]|
            ensures s[1..][k] != s[0]
          {
            assert s[1..][k] == s[k + 1];
          }
        }
        var r := [s[0]] + rest;
        forall i, j | 0 <= i < j < |r|
          ensures r[i] != r[j]
        {
          if i == 0 {
            assert r[j] in rest;
          } else {
            assert r[i] == rest[i - 1] && r[j] == rest[j - 1];
          }
        }
      }
    }
  }

  /** Adding an id and removing it again gives the selection back. */
  lemma ToggleTwiceFromUnselected(sel: seq<int>, id: int)
    requires id !in sel
    ensures TogglePunto(TogglePunto(sel, id), id) == sel
  {
    var once := sel + [id];
    var f := (x: int) => x != id;
    FilterAppend(sel, [id], f);
    FilterAll(sel, f);
  }

  /** The points the service filter shows: all of them for an empty filter, otherwise those
      of the named service. */
  predicate MatchesFiltro(p: PuntoItem, filtro: string) {
    filtro == "" || p.servicioNombre == Some(filtro)
  }

  function Ids(puntos: seq<PuntoItem>): (r: seq<int>)
    ensures |r| == |puntos|
    ensures forall i :: 0 <= i < |puntos| ==> r[i] == puntos[i].id
  {
    Map(puntos, (p: PuntoItem) => p.id)
  }

  function FiltroPredicate(filtro: string): PuntoItem -> bool {
    (p: PuntoItem) => MatchesFiltro(p, filtro)
  }

  /** `seleccionarTodos`: the selection becomes the ids of the shown points, in list order,
      replacing whatever was selected. */
  function SeleccionarTodos(puntos: seq<PuntoItem>, filtro: string): (r: seq<int>)
    ensures r == Ids(Filter(puntos, FiltroPredicate(filtro)))
    ensures forall x :: x in r <==> exists p :: p in puntos && MatchesFiltro(p, filtro) && p.id == x
  {
    var shown := Filter(puntos, FiltroPredicate(filtro));
    var r := Ids(shown);
    assert forall x :: x in r ==> exists p :: p in shown && p.id == x by {
      forall x | x in r
        ensures exists p :: p in shown && p.id == x
      {
        var i :| 0 <= i < |r| && r[i] == x;
        assert shown[i] in shown;
      }
    }
    assert forall p :: p in shown ==> p.id in r by {
      forall p | p in shown
        ensures p.id in r
      {
        var i :| 0 <= i < |shown| && shown[i] == p;
        assert r[i] == p.id;
      }
    }
    r
  }

  /** With no service filter every point is selected. */
  lemma SelectAllWithoutFilter(puntos: seq<PuntoItem>)
    ensures SeleccionarTodos(puntos, "") == Ids(puntos)
  {
    FilterAll(puntos, FiltroPredicate(""));
  }

  /** `deseleccionarTodos`. */
  const DeseleccionarTodos: seq<int> := []

  /** What pressing "generate PDF" does before any request. */
  datatype PdfOutcome = AlertSelectOne | PostPdf(puntoIds: seq<int>)

  /** `generarPDF`: an empty selection shows the alert and sends nothing; otherwise the
      whole selection, in order, is posted. */
  function GenerarPdf(sel: seq<int>): (r: PdfOutcome)
    ensures r.AlertSelectOne? <==> sel == []
    ensures r.PostPdf? ==> r.puntoIds == sel
  {
    if |sel| == 0 then AlertSelectOne else PostPdf(sel)
  }

  /** After "deselect all" the PDF button sends nothing; after "select all" it sends a
      request exactly when some point is shown. */
  lemma PdfAfterSelection(puntos: seq<PuntoItem>, filtro: string)
    ensures GenerarPdf(DeseleccionarTodos) == AlertSelectOne
    ensures GenerarPdf(SeleccionarTodos(puntos, filtro)).PostPdf? <==>
      exists p :: p in puntos && MatchesFiltro(p, filtro)
  {
    var r := SeleccionarTodos(puntos, filtro);
    if exists p :: p in puntos && MatchesFiltro(p, filtro) {
      var p :| p in puntos && MatchesFiltro(p, filtro);
      assert p.id in r;
    }
    if r != [] {
      assert r[0] in r;
    }
  }
}
