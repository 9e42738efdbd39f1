/** The supervisor's dashboard (frontend/src/components/supervisor/Dashboard.jsx): the counters
    computed from the fetched visits, the load handler and what the component renders.
    `dayOf` numbers calendar days (`toDateString` equality) and `now` is the load time. */
module Dashboard {
  import opened Common
  import opened Records

  datatype DashboardStats = DashboardStats(totalVisitsToday: nat, totalVisits: nat, incidencias: nat,
                                           observaciones: nat, lastUpdate: int)

  function OnDay(day: int, dayOf: int -> int): VisitRow -> bool {
    (v: VisitRow) => dayOf(v.fechaHora) == day
  }

  function OfTipo(tipo: string): VisitRow -> bool {
    (v: VisitRow) => v.tipo == tipo
  }

  /** The counters `loadStats` stores. */
  function ComputeStats(visits: seq<VisitRow>, now: int, dayOf: int -> int): (r: DashboardStats)
    ensures r.totalVisits == |visits|
    ensures r.totalVisitsToday == Count(visits, OnDay(dayOf(now), dayOf)) <= r.totalVisits
    ensures r.incidencias == Count(visits, OfTipo("incidencia"))
    ensures r.observaciones == Count(visits, OfTipo("observacion"))
    ensures r.incidencias + r.observaciones <= r.totalVisits
    ensures r.lastUpdate == now
  {
    var inc := OfTipo("incidencia");
    var obs := OfTipo("observacion");
    var either := (v: VisitRow) => v.tipo == "incidencia" || v.tipo == "observacion";
    CountDisjointOr(visits, inc, obs, either);
    CountMonotone(visits, either, (v: VisitRow) => true);
    CountMonotone(visits, OnDay(dayOf(now), dayOf), (v: VisitRow) => true);
    FilterAll(visits, (v: VisitRow) => true);
    DashboardStats(Count(visits, OnDay(dayOf(now), dayOf)), |visits|, Count(visits, inc), Count(visits, obs), now)
  }

  /** The component state: the stats (null until a load succeeds) and the spinner flag. */
  datatype DashState = DashState(stats: Option<DashboardStats>, loading: bool)

  const Initial := DashState(None, true)

  /** `loadStats`: the fetched visits (None when the request throws) give new stats; a failure
      leaves the previous stats. Either way the spinner stops. */
  function LoadStats(s: DashState, reply: Option<seq<VisitRow>>, now: int, dayOf: int -> int): (r: DashState)
    ensures !r.loading
    ensures reply.Some? ==> r.stats == Some(ComputeStats(reply.value, now, dayOf))
    ensures reply.None? ==> r.stats == s.stats
  {
    match reply
    case Some(visits) => DashState(Some(ComputeStats(visits, now, dayOf)), false)
    case None => s.(loading := false)
  }

  /** What a render produces. `RenderThrew` is the TypeError of reading a field of null. */
  datatype DashView = Spinner | Panel(stats: DashboardStats) | SinDatos | RenderThrew

  /** The render as written: once loading is over it reads `stats.lastUpdate` unguarded. */
  function RenderAsWritten(s: DashState): (r: DashView)
    ensures s.loading <==> r == Spinner
    ensures !s.loading && s.stats.Some? ==> r == Panel(s.stats.value)
    ensures r == RenderThrew <==> !s.loading && s.stats.None?
  {
    if s.loading then Spinner
    else match s.stats
      case Some(st) => Panel(st)
      case None => RenderThrew
  }

  /** A failed first load leaves the stats null with the spinner off, and the render throws. */
  lemma FailedFirstLoadThrows(now: int, dayOf: int -> int)
    ensures LoadStats(Initial, None, now, dayOf) == DashState(None, false)
    ensures RenderAsWritten(LoadStats(Initial, None, now, dayOf)) == RenderThrew
  {
  }

  /** The render with the missing guard: no stats after loading shows an empty panel. */
  function Render(s: DashState): (r: DashView)
    ensures r != RenderThrew
    ensures s.loading <==> r == Spinner
    ensures !s.loading && s.stats.Some? ==> r == Panel(s.stats.value)
    ensures !s.loading && s.stats.None? ==> r == SinDatos
  {
    if s.loading then Spinner
    else match s.stats
      case Some(st) => Panel(st)
      case None => SinDatos
  }

  /** Both renders agree whenever the one as written does not throw. */
  lemma RenderAgreesWhenDefined(s: DashState)
    requires RenderAsWritten(s) != RenderThrew
    ensures Render(s) == RenderAsWritten(s)
  {
  }

  /** Every state reachable from the initial one by loads renders without throwing, and once a
      load has succeeded there are stats to show. */
  lemma {:induction false} LoadsRenderSafely(replies: seq<Option<seq<VisitRow>>>, now: int, dayOf: int -> int)
    ensures Render(Run(Initial, replies, now, dayOf)) != RenderThrew
    ensures (exists i :: 0 <= i < |replies| && replies[i].Some?) ==>
      Run(Initial, replies, now, dayOf).stats.Some?
  {
    if replies != [] {
      var n := |replies| - 1;
      var prefix := replies[..n];
      LoadsRenderSafely(prefix, now, dayOf);
      if exists i :: 0 <= i < |replies| && replies[i].Some? {
        var i :| 0 <= i < |replies| && replies[i].Some?;
        if i < n {
          assert prefix[i].Some?;
        }
      }
    }
  }

  /** After a sequence of loads the panel shows the counters of the latest load that
      succeeded; later failures keep them. */
  lemma {:induction false} LatestLoadShown(replies: seq<Option<seq<VisitRow>>>, now: int, dayOf: int -> int)
    ensures forall i :: 0 <= i < |replies| && replies[i].Some? && (forall j :: i < j < |replies| ==> replies[j].None?) ==>
      Run(Initial, replies, now, dayOf).stats == Some(ComputeStats(replies[i].value, now, dayOf))
  {
    if replies != [] {
      var n := |replies| - 1;
      var prefix := replies[..n];
      LatestLoadShown(prefix, now, dayOf);
      forall i | 0 <= i < |replies| && replies[i].Some? && (forall j :: i < j < |replies| ==> replies[j].None?)
        ensures Run(Initial, replies, now, dayOf).stats == Some(ComputeStats(replies[i].value, now, dayOf))
      {
        if i < n {
          assert replies[n].None?;
          assert prefix[i] == replies[i];
          assert forall j :: i < j < |prefix| ==> prefix[j].None? by {
            forall j | i < j < |prefix|
              ensures prefix[j].None?
            {
              assert prefix[j] == replies[j];
            }
          }
        }
      }
    }
  }

  /** The state after a sequence of loads (the 30-second polling). */
  function Run(s: DashState, replies: seq<Option<seq<VisitRow>>>, now: int, dayOf: int -> int): DashState
    decreases |replies|
  {
    if replies == [] then s
    else LoadStats(Run(s, replies[..|replies| - 1], now, dayOf), replies[|replies| - 1], now, dayOf)
  }
}
