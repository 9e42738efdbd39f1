/** The service administration screen (frontend/src/components/admin/ServiciosAdmin.jsx): the
    day picker, the day-list text, the submit guard and the form defaults. Days are numbers,
    0 (Monday) to 6 (Sunday). */
module ServiciosAdmin {
  import opened Common
  import opened Text
  import opened Sorting
  import opened AdminApi

  predicate SortedAsc(s: seq<int>) {
    forall i, j :: 0 <= i < j < |s| ==> s[i] <= s[j]
  }

  /** Ascending order as the descending sort on the negated number. */
  function AscKey(): int -> Key {
    (x: int) => Key(-x, 0)
  }

  /** `[...dias].sort()` on day numbers. */
  function SortDays(s: seq<int>): (r: seq<int>)
    ensures SortedAsc(r) && multiset(r) == multiset(s)
  {
    var r := SortDesc(s, AscKey());
    assert forall i, j :: 0 <= i < j < |r| ==> KeyLe(AscKey()(r[j]), AscKey()(r[i]));
    r
  }

  function Without(dias: seq<int>, d: int): (r: seq<int>)
    ensures forall x :: x in r <==> x in dias && x != d
  {
    Filter(dias, (x: int) => x != d)
  }

  /** `toggleDia`: a day in the list is removed (every copy of it); any other day is appended
      and the list sorted. */
  function ToggleDia(dias: seq<int>, d: int): (r: seq<int>)
    ensures d in r <==> d !in dias
    ensures forall x :: x != d ==> (x in r <==> x in dias)
    ensures d in dias ==> r == Without(dias, d)
    ensures d !in dias ==> SortedAsc(r) && multiset(r) == multiset(dias) + multiset{d}
  {
    if d in dias then Without(dias, d)
    else
      var r := SortDays(dias + [d]);
      assert forall x :: x in r <==> x in multiset(dias + [d]);
      r
  }

  /** Filtering counts each kept element as often as the input holds it and drops the rest. */
  lemma {:induction false} FilterMultiset(s: seq<int>, p: int -> bool)
    ensures forall x :: multiset(Filter(s, p))[x] == if p(x) then multiset(s)[x] else 0
  {
    if s != [] {
      FilterMultiset(s[1..], p);
      assert s == [s[0]] + s[1..];
    }
  }

  lemma {:induction false} NoDuplicatesCount(s: seq<int>)
    requires NoDuplicates(s)
    ensures forall x :: multiset(s)[x] <= 1
  {
    if s != [] {
      assert s == [s[0]] + s[1..];
      assert s[0] !in s[1..] by {
        forall k | 0 <= k < |s[1..]|
          ensures s[1..][k] != s[0]
        {
          assert s[1..][k] == s[k + 1];
        }
      }
      NoDuplicatesCount(s[1..]);
    }
  }

  lemma HeadIsMin(s: seq<int>, x: int)
    requires SortedAsc(s) && x in s
    ensures s[0] <= x
  {
    var i :| 0 <= i < |s| && s[i] == x;
    if i > 0 {
      assert s[0] <= s[i];
    }
  }

  lemma TailSorted(s: seq<int>)
    requires SortedAsc(s) && s != []
    ensures SortedAsc(s[1..])
  {
    forall i, j | 0 <= i < j < |s[1..]|
      ensures s[1..][i] <= s[1..][j]
    {
      assert s[1..][i] == s[i + 1] && s[1..][j] == s[j + 1];
    }
  }

  lemma MultisetTail(s: seq<int>)
    requires s != []
    ensures multiset(s[1..]) == multiset(s) - multiset{s[0]}
  {
    assert s == [s[0]] + s[1..];
  }

  /** An ascending list is determined by the multiset of its elements. */
  lemma {:induction false} SortedAscUnique(a: seq<int>, b: seq<int>)
    requires SortedAsc(a) && SortedAsc(b) && multiset(a) == multiset(b)
    ensures a == b
  {
    if a == [] {
      assert |multiset(b)| == 0;
    } else {
      assert |b| == |multiset(b)| == |multiset(a)| == |a| > 0;
      assert a[0] in multiset(b) && b[0] in multiset(a);
      HeadIsMin(b, a[0]);
      HeadIsMin(a, b[0]);
      assert a[0] == b[0];
      MultisetTail(a);
      MultisetTail(b);
      TailSorted(a);
      TailSorted(b);
      SortedAscUnique(a[1..], b[1..]);
    }
  }

  /** Picking the same day twice gives back a sorted list without repeats. */
  lemma ToggleTwiceRestores(dias: seq<int>, d: int)
    requires SortedAsc(dias) && NoDuplicates(dias)
    ensures ToggleDia(ToggleDia(dias, d), d) == dias
  {
    NoDuplicatesCount(dias);
    if d in dias {
      RemoveThenAdd(dias, d);
    } else {
      AddThenRemove(dias, d);
    }
  }

  lemma RemoveThenAdd(dias: seq<int>, d: int)
    requires SortedAsc(dias) && d in dias
    requires forall x :: multiset(dias)[x] <= 1
    ensures ToggleDia(Without(dias, d), d) == dias
  {
    var once := Without(dias, d);
    FilterMultiset(dias, (x: int) => x != d);
    var twice := ToggleDia(once, d);
    assert multiset(dias)[d] == 1;
    assert multiset(twice) == multiset(once) + multiset{d};
    assert forall x :: multiset(twice)[x] == multiset(dias)[x];
    assert multiset(twice) == multiset(dias);
    SortedAscUnique(twice, dias);
  }

  lemma AddThenRemove(dias: seq<int>, d: int)
    requires SortedAsc(dias) && d !in dias
    ensures Without(ToggleDia(dias, d), d) == dias
  {
    var once := ToggleDia(dias, d);
    var twice := Without(once, d);
    FilterMultiset(once, (x: int) => x != d);
    assert multiset(dias)[d] == 0;
    assert forall x :: multiset(twice)[x] == multiset(dias)[x];
    assert multiset(twice) == multiset(dias);
    FilterKeepsSorted(once, (x: int) => x != d);
    SortedAscUnique(twice, dias);
  }

  lemma {:induction false} FilterKeepsSorted(s: seq<int>, p: int -> bool)
    requires SortedAsc(s)
    ensures SortedAsc(Filter(s, p))
  {
    if s != [] {
      FilterKeepsSorted(s[1..], p);
      var rest := Filter(s[1..], p);
      if p(s[0]) {
        var r := [s[0]] + rest;
        forall i, j | 0 <= i < j < |r|
          ensures r[i] <= r[j]
        {
          if i == 0 {
            assert r[j] in rest;
            var k :| 0 <= k < |s[1..]| && s[1..][k] == r[j];
            assert s[k + 1] == r[j];
          } else {
            assert r[i] == rest[i - 1] && r[j] == rest[j - 1];
          }
        }
      }
    }
  }

  // ---------------------------------------------------------------------------------------
  // Text

  /** The short day names, Monday first. */
  const DiasSemana := ["Lun", "Mar", "Mié", "Jue", "Vie", "Sáb", "Dom"]

  /** The names of the days, in list order; None when a day has no entry in the table
      (`diasSemana[d].nombre` on a missing entry throws). */
  function DayNames(dias: seq<int>): (r: Option<seq<string>>)
    ensures r.Some? <==> forall i :: 0 <= i < |dias| ==> 0 <= dias[i] < 7
    ensures r.Some? ==> |r.value| == |dias| && forall i :: 0 <= i < |dias| ==> r.value[i] == DiasSemana[dias[i]]
  {
    if forall i :: 0 <= i < |dias| ==> 0 <= dias[i] < 7 then
      Some(seq(|dias|, i requires 0 <= i < |dias| && 0 <= dias[i] < 7 => DiasSemana[dias[i]]))
    else
      None
  }

  /** `getDiasTexto`: the two fixed texts by length, otherwise the names joined by ", ". */
  function DiasTexto(dias: seq<int>): (r: Option<string>)
    ensures |dias| == 7 ==> r == Some("Todos los días")
    ensures |dias| == 0 ==> r == Some("Ningún día")
    ensures 0 < |dias| < 7 ==>
      (r.Some? <==> DayNames(dias).Some?) && (r.Some? ==> r.value == Join(DayNames(dias).value, ", "))
    ensures 0 < |dias| < 7 && r.Some? ==> r.value[..|DiasSemana[dias[0]]|] == DiasSemana[dias[0]]
  {
    if |dias| == 7 then Some("Todos los días")
    else if |dias| == 0 then Some("Ningún día")
    else
      match DayNames(dias)
      case None => None
      case Some(names) => Some(Join(names, ", "))
  }

  // ---------------------------------------------------------------------------------------
  // Form

  datatype ServicioForm = ServicioForm(
    nombre: string,
    descripcion: string,
    horaInicio: string,
    horaFin: string,
    diasActivo: seq<int>,
    intervaloRondaMinutos: int,
    activo: bool)

  /** The form's initial value and the value `resetForm` restores: Monday to Friday,
      08:00 to 20:00, a round every 60 minutes, active. */
  const DefaultForm := ServicioForm("", "", "08:00", "20:00", [0, 1, 2, 3, 4], 60, true)

  /** The screen state the handlers change. `editing` is the id of the service being edited. */
  datatype ScreenState = ScreenState(
    servicios: seq<Records.ServicioRow>,
    loading: bool,
    showForm: bool,
    editing: Option<int>,
    form: ServicioForm)

  /** `resetForm`. */
  function ResetForm(s: ScreenState): (r: ScreenState)
    ensures r.form == DefaultForm && r.editing == None && !r.showForm
    ensures r.servicios == s.servicios && r.loading == s.loading
    ensures SortedAsc(r.form.diasActivo) && NoDuplicates(r.form.diasActivo) && |r.form.diasActivo| == 5
  {
    s.(form := DefaultForm, editing := None, showForm := false)
  }

  /** The form as the object the API client cleans. */
  function FormEntries(f: ServicioForm): seq<Entry> {
    [Entry("nombre", JsStr(f.nombre)), Entry("descripcion", JsStr(f.descripcion)),
     Entry("hora_inicio", JsStr(f.horaInicio)), Entry("hora_fin", JsStr(f.horaFin)),
     Entry("dias_activo", JsIntList(f.diasActivo)),
     Entry("intervalo_ronda_minutos", JsNum(f.intervaloRondaMinutos)), Entry("activo", JsBool(f.activo))]
  }

  datatype SubmitOutcome = AlertNoDays | SendUpdate(id: int, body: seq<Entry>) | SendCreate(body: seq<Entry>)

  /** `handleSubmit` up to the request: no days gives the alert and no request; otherwise the
      cleaned form goes to update (while editing) or to create. */
  function HandleSubmit(s: ScreenState): (r: SubmitOutcome)
    ensures r.AlertNoDays? <==> s.form.diasActivo == []
    ensures r.SendUpdate? <==> s.form.diasActivo != [] && s.editing.Some?
    ensures r.SendUpdate? ==> r.id == s.editing.value
    ensures !r.AlertNoDays? ==>
      forall e :: e in r.body <==> e in FormEntries(s.form) && Kept(e.value)
  {
    if |s.form.diasActivo| == 0 then AlertNoDays
    else if s.editing.Some? then SendUpdate(s.editing.value, Cleaned(FormEntries(s.form)))
    else SendCreate(Cleaned(FormEntries(s.form)))
  }

  /** An empty description (the form's default) is left out of the request, and so is an
      empty name. */
  lemma EmptyTextFieldsNotSent(s: ScreenState)
    requires HandleSubmit(s).SendCreate? || HandleSubmit(s).SendUpdate?
    ensures s.form.descripcion == "" ==> forall e :: e in HandleSubmit(s).body ==> e.key != "descripcion"
    ensures s.form.nombre == "" ==> forall e :: e in HandleSubmit(s).body ==> e.key != "nombre"
    ensures Entry("dias_activo", JsIntList(s.form.diasActivo)) in HandleSubmit(s).body
  {
    var es := FormEntries(s.form);
    var body := HandleSubmit(s).body;
    assert body == Cleaned(es);
    assert es[4] == Entry("dias_activo", JsIntList(s.form.diasActivo));
    forall e | e in body
      ensures e.key == "descripcion" ==> e.value == JsStr(s.form.descripcion) && Kept(e.value)
      ensures e.key == "nombre" ==> e.value == JsStr(s.form.nombre) && Kept(e.value)
    {
      FormEntryKeys(s.form, e);
    }
  }

  /** Only the first entry of the form is keyed "nombre" and only the second "descripcion". */
  lemma FormEntryKeys(f: ServicioForm, e: Entry)
    requires e in FormEntries(f)
    ensures e.key == "descripcion" ==> e == Entry("descripcion", JsStr(f.descripcion))
    ensures e.key == "nombre" ==> e == Entry("nombre", JsStr(f.nombre))
  {
    var es := FormEntries(f);
    var i :| 0 <= i < |es| && es[i] == e;
    if e.key == "descripcion" {
      assert e.key[1] == 'e';
      assert i == 1;
    }
    if e.key == "nombre" {
      assert e.key[0] == 'n';
      assert i == 0;
    }
  }
}
