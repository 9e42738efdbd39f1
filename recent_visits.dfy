/** The supervisor's recent-visits panel (frontend/src/components/supervisor/RecentVisits.jsx):
    the ten newest visits, newest first, each with its type colour and icon, a relative
    time and a pending badge. */
module RecentVisits {
  import opened Common
  import opened Text
  import opened Records
  import opened Sorting
  import opened VisitList

  const MaxShown: nat := 10

  function ByFecha(): VisitRow -> Key {
    (v: VisitRow) => Key(v.fechaHora, 0)
  }

  /** `[...visitas].sort(newest first).slice(0, 10)`: the copy is sorted, the prop is not. */
  function Newest(visitas: seq<VisitRow>): (r: seq<VisitRow>)
    ensures |r| == Min(MaxShown, |visitas|)
    ensures SortedDesc(r, ByFecha())
    ensures multiset(r) <= multiset(visitas)
    ensures forall v, w :: v in multiset(visitas) - multiset(r) && w in r ==> v.fechaHora <= w.fechaHora
  {
    var sorted := SortDesc(visitas, ByFecha());
    var r := Take(sorted, MaxShown);
    TakeOfSorted(sorted, ByFecha(), MaxShown);
    forall v, w | v in multiset(visitas) - multiset(r) && w in r
      ensures v.fechaHora <= w.fechaHora
    {
      assert KeyLe(ByFecha()(v), ByFecha()(w));
    }
    r
  }

  /** A short list is shown whole. */
  lemma ShortListShownWhole(visitas: seq<VisitRow>)
    requires |visitas| <= MaxShown
    ensures multiset(Newest(visitas)) == multiset(visitas)
  {
    var r := Newest(visitas);
    assert |multiset(r)| == |r| == |visitas| == |multiset(visitas)|;
    MultisetSubsetSameSize(multiset(r), multiset(visitas));
  }

  lemma MultisetSubsetSameSize<T>(a: multiset<T>, b: multiset<T>)
    requires a <= b && |a| == |b|
    ensures a == b
  {
    var d := b - a;
    assert b == a + d;
    assert |d| == 0;
  }

  /** `getTipoIcon`: observations and incidents share the warning sign. */
  function TipoIcon(tipo: string): (r: string)
    ensures tipo == "normal" <==> r == "✓"
    ensures tipo in {"observacion", "incidencia"} <==> r == "⚠"
    ensures tipo !in {"normal", "observacion", "incidencia"} <==> r == "○"
  {
    if tipo == "normal" then "✓"
    else if tipo == "observacion" || tipo == "incidencia" then "⚠"
    else "○"
  }

  /** How `formatDate` renders a visit time. Times older than a day use the browser's locale
      format, left as the time itself. */
  datatype Ago = AhoraMismo | HaceMin(n: int) | HaceHoras(h: int) | FechaLocal(fecha: int)

  function AgoOf(fecha: int, now: int): (r: Ago)
    ensures r == AhoraMismo <==> now - fecha < 60000
    ensures r.HaceMin? <==> 60000 <= now - fecha < 60 * 60000
    ensures r.HaceMin? ==> 1 <= r.n < 60 && r.n * 60000 <= now - fecha < (r.n + 1) * 60000
    ensures r.HaceHoras? <==> 60 * 60000 <= now - fecha < 1440 * 60000
    ensures r.HaceHoras? ==> 1 <= r.h <= 23 && r.h * 3600000 <= now - fecha < (r.h + 1) * 3600000
    ensures r.FechaLocal? ==> r.fecha == fecha && now - fecha >= 1440 * 60000
  {
    var diffMinutes := (now - fecha) / 60000;
    if diffMinutes < 1 then AhoraMismo
    else if diffMinutes < 60 then HaceMin(diffMinutes)
    else if diffMinutes < 1440 then HaceHoras(diffMinutes / 60)
    else FechaLocal(fecha)
  }

  /** A visit stamped in the future reads "Ahora mismo". */
  lemma FutureVisitIsNow(fecha: int, now: int)
    requires fecha > now
    ensures AgoOf(fecha, now) == AhoraMismo
  {
  }

  /** One card of the panel. */
  datatype RecentCard = RecentCard(color: string, icon: string, when: Ago, pendingBadge: bool)

  datatype RecentScreen = Placeholder | Recent(cards: seq<RecentCard>)

  /** The panel: the placeholder for an absent or empty list, otherwise a card per shown visit;
      the pending badge shows exactly for visits not marked `sincronizado`. */
  function RecentVisitsView(visitas: Option<seq<VisitRow>>, now: int): (r: RecentScreen)
    ensures r == Placeholder <==> visitas.None? || visitas.value == []
    ensures r.Recent? ==> var shown := Newest(visitas.value);
      |r.cards| == |shown| <= MaxShown &&
      forall i :: 0 <= i < |shown| ==>
        r.cards[i] == RecentCard(TipoColor(shown[i].tipo), TipoIcon(shown[i].tipo), AgoOf(shown[i].fechaHora, now),
          !shown[i].sincronizado)
  {
    if visitas.None? || |visitas.value| == 0 then Placeholder
    else
      var shown := Newest(visitas.value);
      Recent(seq(|shown|, i requires 0 <= i < |shown| =>
        RecentCard(TipoColor(shown[i].tipo), TipoIcon(shown[i].tipo), AgoOf(shown[i].fechaHora, now), !shown[i].sincronizado)))
  }
}
