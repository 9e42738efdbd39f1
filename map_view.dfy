/** The supervisor's map (frontend/src/components/supervisor/MapView.jsx): the last visit of
    each point, the map centre and the colour of each point's circle. The Leaflet markup is
    not part of this model. */
module MapView {
  import opened Common
  import opened Records
  import opened Sorting
  import opened Puntos

  function ByFecha(): VisitRow -> Key {
    (v: VisitRow) => Key(v.fechaHora, 0)
  }

  function OfPoint(puntoId: int): VisitRow -> bool {
    (v: VisitRow) => v.puntoQrId == puntoId
  }

  /** `getLastVisit`: null without a visit list or without a visit of the point; otherwise
      the first of the point's visits sorted newest first. The sort runs on the filtered
      copy, so the list itself keeps its order. */
  function GetLastVisit(puntoId: int, visitas: Option<seq<VisitRow>>): (r: Option<VisitRow>)
    ensures r.None? <==> visitas.None? || forall v :: v in visitas.value ==> v.puntoQrId != puntoId
    ensures r.Some? ==> r.value in visitas.value && r.value.puntoQrId == puntoId
    ensures r.Some? ==> forall v :: v in visitas.value && v.puntoQrId == puntoId ==> v.fechaHora <= r.value.fechaHora
  {
    if visitas.None? then None
    else
      var own := Filter(visitas.value, OfPoint(puntoId));
      if |own| == 0 then
        NoOwnVisits(visitas.value, puntoId);
        None
      else
        var sorted := SortDesc(own, ByFecha());
        NewestOwnVisit(visitas.value, puntoId);
        Some(sorted[0])
  }

  lemma NoOwnVisits(vs: seq<VisitRow>, puntoId: int)
    requires |Filter(vs, OfPoint(puntoId))| == 0
    ensures forall v :: v in vs ==> v.puntoQrId != puntoId
  {
    forall v | v in vs
      ensures v.puntoQrId != puntoId
    {
      assert OfPoint(puntoId)(v) == (v.puntoQrId == puntoId);
    }
  }

  /** The head of the point's visits sorted newest first is one of its newest visits. */
  lemma NewestOwnVisit(vs: seq<VisitRow>, puntoId: int)
    requires |Filter(vs, OfPoint(puntoId))| > 0
    ensures var sorted := SortDesc(Filter(vs, OfPoint(puntoId)), ByFecha());
      |sorted| > 0 && sorted[0] in vs && sorted[0].puntoQrId == puntoId &&
      forall v :: v in vs && v.puntoQrId == puntoId ==> v.fechaHora <= sorted[0].fechaHora
  {
    var own := Filter(vs, OfPoint(puntoId));
    var sorted := SortDesc(own, ByFecha());
    SortedHeadIsMax(sorted, ByFecha());
    assert sorted[0] in multiset(sorted);
    assert sorted[0] in own;
    assert OfPoint(puntoId)(sorted[0]);
    forall v | v in vs && v.puntoQrId == puntoId
      ensures v.fechaHora <= sorted[0].fechaHora
    {
      assert OfPoint(puntoId)(v);
      assert v in own;
      assert v in multiset(sorted);
      assert KeyLe(ByFecha()(v), ByFecha()(sorted[0]));
    }
  }

  /** Visits of other points do not change a point's last visit. */
  lemma OtherPointsIrrelevant(puntoId: int, visitas: seq<VisitRow>, extra: VisitRow)
    requires extra.puntoQrId != puntoId
    ensures GetLastVisit(puntoId, Some(visitas + [extra])) == GetLastVisit(puntoId, Some(visitas))
  {
    var f := OfPoint(puntoId);
    FilterAppend(visitas, [extra], f);
    assert !f(extra);
    assert Filter([extra], f) == Filter([extra][1..], f) == [];
    assert Filter(visitas + [extra], f) == Filter(visitas, f);
  }

  datatype LatLng = LatLng(lat: real, lng: real)

  /** Playa del Carmen. */
  const DefaultCenter := LatLng(20.6296, -87.0739)

  /** The centre effect: a non-empty point list moves the map to its first point; an absent
      or empty list leaves the centre where it was. */
  function UpdateCenter(current: LatLng, puntos: Option<seq<PuntoQrResponse>>): (r: LatLng)
    ensures puntos.Some? && puntos.value != [] ==> r == LatLng(puntos.value[0].latitud, puntos.value[0].longitud)
    ensures puntos.None? || puntos.value == [] ==> r == current
  {
    if puntos.Some? && |puntos.value| > 0 then LatLng(puntos.value[0].latitud, puntos.value[0].longitud) else current
  }

  /** The radius drawn around every point, in metres. */
  const CircleRadius := 50

  const Visited := "#4caf50"
  const NotVisited := "#f44336"

  datatype Circle = Circle(center: LatLng, radius: int, color: string)

  /** The circle of one point: at the point, 50 m, green iff the point has a last visit. */
  function PointCircle(p: PuntoQrResponse, visitas: Option<seq<VisitRow>>): (r: Circle)
    ensures r.center == LatLng(p.latitud, p.longitud) && r.radius == CircleRadius
    ensures r.color == Visited <==> GetLastVisit(p.id, visitas).Some?
    ensures r.color == NotVisited <==> GetLastVisit(p.id, visitas).None?
  {
    Circle(LatLng(p.latitud, p.longitud), CircleRadius, if GetLastVisit(p.id, visitas).Some? then Visited else NotVisited)
  }
}
