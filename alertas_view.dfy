/** The supervisor's alert panel (frontend/src/components/supervisor/Alertas.jsx): the
    elapsed-time text, the colour and icon of each priority, the four counters and the
    reload handler. The alerts are those `get_alertas` returns. */
module AlertasView {
  import opened Common
  import opened Text
  import opened Alertas

  /** The wire name of a priority. */
  function PriorityName(p: Priority): string {
    match p
    case Alta => "alta"
    case Media => "media"
    case Baja => "baja"
  }

  /** How long ago a point was visited, in the unit `formatTiempo` picks. */
  datatype Elapsed = Nunca | Minutos(m: int) | Horas(h: int) | Dias(d: int)

  /** The unit choice of `formatTiempo`: minutes below an hour, whole hours below a day,
      whole days from then on (`Math.floor`, exact for these non-negative values). */
  function ElapsedOf(minutos: Option<int>): (r: Elapsed)
    ensures minutos.None? <==> r == Nunca
    ensures r.Minutos? <==> minutos.Some? && minutos.value < 60
    ensures r.Minutos? ==> r.m == minutos.value
    ensures r.Horas? <==> minutos.Some? && 60 <= minutos.value < 1440
    ensures r.Horas? ==> 1 <= r.h <= 23 && r.h * 60 <= minutos.value < r.h * 60 + 60
    ensures r.Dias? <==> minutos.Some? && minutos.value >= 1440
    ensures r.Dias? ==> r.d >= 1 && r.d * 1440 <= minutos.value < r.d * 1440 + 1440
  {
    match minutos
    case None => Nunca
    case Some(m) =>
      if m < 60 then Minutos(m)
      else if m < 1440 then Horas(m / 60)
      else Dias(m / 1440)
  }

  function ElapsedText(e: Elapsed): string {
    match e
    case Nunca => "Nunca visitado"
    case Minutos(m) => IntToString(m) + " minutos"
    case Horas(h) => IntToString(h) + " horas"
    case Dias(d) => IntToString(d) + " días"
  }

  /** `formatTiempo`. */
  function FormatTiempo(minutos: Option<int>): (r: string)
    ensures minutos.None? ==> r == "Nunca visitado"
    ensures minutos.Some? ==> r == ElapsedText(ElapsedOf(minutos))
  {
    ElapsedText(ElapsedOf(minutos))
  }

  /** The badge colours. */
  datatype Colors = Colors(bg: string, color: string, border: string)

  const DefaultColors := Colors("#f5f5f5", "#666", "#ccc")

  /** `getPrioridadColor`: a fixed triple per priority name, a grey default for anything else. */
  function PrioridadColor(prioridad: string): (r: Colors)
    ensures r != DefaultColors <==> prioridad in {"alta", "media", "baja"}
    ensures prioridad == "alta" ==> r == Colors("#ffcdd2", "#c62828", "#f44336")
    ensures prioridad == "media" ==> r == Colors("#fff3cd", "#856404", "#ff9800")
    ensures prioridad == "baja" ==> r == Colors("#e3f2fd", "#1565c0", "#2196f3")
  {
    if prioridad == "alta" then Colors("#ffcdd2", "#c62828", "#f44336")
    else if prioridad == "media" then Colors("#fff3cd", "#856404", "#ff9800")
    else if prioridad == "baja" then Colors("#e3f2fd", "#1565c0", "#2196f3")
    else DefaultColors
  }

  /** `getPrioridadIcon`, with the same cases. */
  function PrioridadIcon(prioridad: string): (r: string)
    ensures r != "○" <==> prioridad in {"alta", "media", "baja"}
    ensures prioridad == "alta" ==> r == "🚨"
    ensures prioridad == "media" ==> r == "⚠️"
    ensures prioridad == "baja" ==> r == "ℹ️"
  {
    if prioridad == "alta" then "🚨"
    else if prioridad == "media" then "⚠️"
    else if prioridad == "baja" then "ℹ️"
    else "○"
  }

  /** The three priorities get three different icons. */
  lemma PrioridadIconsDiffer(p: string, q: string)
    requires p in {"alta", "media", "baja"} && q in {"alta", "media", "baja"} && p != q
    ensures PrioridadIcon(p) != PrioridadIcon(q)
  {
  }

  /** The four counters: each priority's alerts, and all of them. */
  datatype Counters = Counters(alta: nat, media: nat, baja: nat, total: nat)

  function CountersOf(alertas: seq<Alerta>): (r: Counters)
    ensures r.total == |alertas|
    ensures r.alta <= r.total && r.media <= r.total && r.baja <= r.total
    ensures r.alta + r.media + r.baja == r.total
    ensures r.alta == Count(alertas, (a: Alerta) => PriorityName(a.prioridad) == "alta")
  {
    var alta := (a: Alerta) => PriorityName(a.prioridad) == "alta";
    var media := (a: Alerta) => PriorityName(a.prioridad) == "media";
    var baja := (a: Alerta) => PriorityName(a.prioridad) == "baja";
    CountThreeWay(alertas, alta, media, baja);
    Counters(Count(alertas, alta), Count(alertas, media), Count(alertas, baja), |alertas|)
  }

  /** The panel's counters agree with the server's `get_alertas_count` over the same alerts. */
  lemma CountersMatchServer(alertas: seq<Alerta>)
    ensures var c := CountersOf(alertas); var s := CountAlertas(alertas);
      c.alta == s.alta && c.media == s.media && c.baja == s.baja && c.total == s.total
  {
    FilterSamePredicate(alertas, (a: Alerta) => PriorityName(a.prioridad) == "alta", (a: Alerta) => a.prioridad == Alta);
    FilterSamePredicate(alertas, (a: Alerta) => PriorityName(a.prioridad) == "media", (a: Alerta) => a.prioridad == Media);
    FilterSamePredicate(alertas, (a: Alerta) => PriorityName(a.prioridad) == "baja", (a: Alerta) => a.prioridad == Baja);
  }

  datatype PanelState = PanelState(alertas: seq<Alerta>, loading: bool)

  /** `loadAlertas`: the reply (None when the request throws) replaces the list; a failure
      keeps the previous list. Either way the spinner stops. */
  function LoadAlertas(s: PanelState, reply: Option<seq<Alerta>>): (r: PanelState)
    ensures !r.loading
    ensures r.alertas == reply.GetOr(s.alertas)
  {
    PanelState(reply.GetOr(s.alertas), false)
  }
}
