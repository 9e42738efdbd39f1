/** The supervisor's guard list (frontend/src/components/supervisor/GuardiasList.jsx): the
    visits are grouped per guard in first-seen order (a JavaScript Map filled by a loop),
    and each guard gets its visit counts, its latest visit and an "active" flag. Whether a
    time falls on today is given by `dayOf`, which numbers calendar days. */
module GuardiasList {
  import opened Common
  import opened Records
  import opened Sorting

  /** One Map entry: a guard and its visits in arrival order. */
  datatype Group = Group(id: int, visitas: seq<VisitRow>)

  /** `guardiasMap.get(id).visitas.push(v)`, creating the entry at the end when missing. */
  function AddVisit(groups: seq<Group>, v: VisitRow): seq<Group> {
    if groups == [] then [Group(v.guardiaId, [v])]
    else if groups[0].id == v.guardiaId then [groups[0].(visitas := groups[0].visitas + [v])] + groups[1..]
    else [groups[0]] + AddVisit(groups[1..], v)
  }

  /** The Map after the `forEach` over `visitas`. */
  function Groups(visitas: seq<VisitRow>): seq<Group>
    decreases |visitas|
  {
    if visitas == [] then [] else AddVisit(Groups(visitas[..|visitas| - 1]), visitas[|visitas| - 1])
  }

  function GroupIds(groups: seq<Group>): (r: seq<int>)
    ensures |r| == |groups|
    ensures forall i :: 0 <= i < |groups| ==> r[i] == groups[i].id
  {
    Map(groups, (g: Group) => g.id)
  }

  function GuardIdsOf(visitas: seq<VisitRow>): (r: seq<int>)
    ensures |r| == |visitas|
    ensures forall i :: 0 <= i < |visitas| ==> r[i] == visitas[i].guardiaId
  {
    Map(visitas, (v: VisitRow) => v.guardiaId)
  }

  /** The visits of the first group with this id (none when there is none). */
  function VisitsOf(groups: seq<Group>, id: int): seq<VisitRow> {
    if groups == [] then [] else if groups[0].id == id then groups[0].visitas else VisitsOf(groups[1..], id)
  }

  /** The sum of the groups' sizes. */
  function TotalVisits(groups: seq<Group>): nat {
    if groups == [] then 0 else |groups[0].visitas| + TotalVisits(groups[1..])
  }

  predicate AllNonEmpty(groups: seq<Group>) {
    forall i :: 0 <= i < |groups| ==> groups[i].visitas != []
  }

  // ---------------------------------------------------------------------------------------
  // One visit at a time

  lemma {:induction false} AddVisitIds(groups: seq<Group>, v: VisitRow)
    ensures GroupIds(AddVisit(groups, v)) ==
      if v.guardiaId in GroupIds(groups) then GroupIds(groups) else GroupIds(groups) + [v.guardiaId]
  {
    if groups != [] {
      if groups[0].id != v.guardiaId {
        AddVisitIds(groups[1..], v);
        assert GroupIds(groups) == [groups[0].id] + GroupIds(groups[1..]);
        assert GroupIds(AddVisit(groups, v)) == [groups[0].id] + GroupIds(AddVisit(groups[1..], v));
      } else {
        assert GroupIds(groups)[0] == v.guardiaId;
      }
    }
  }

  lemma {:induction false} AddVisitVisits(groups: seq<Group>, v: VisitRow, id: int)
    ensures VisitsOf(AddVisit(groups, v), id) == VisitsOf(groups, id) + (if id == v.guardiaId then [v] else [])
  {
    if groups != [] && groups[0].id != v.guardiaId {
      AddVisitVisits(groups[1..], v, id);
      assert AddVisit(groups, v)[1..] == AddVisit(groups[1..], v);
    }
  }

  lemma {:induction false} AddVisitTotal(groups: seq<Group>, v: VisitRow)
    ensures TotalVisits(AddVisit(groups, v)) == TotalVisits(groups) + 1
  {
    if groups != [] {
      if groups[0].id != v.guardiaId {
        AddVisitTotal(groups[1..], v);
        assert AddVisit(groups, v)[1..] == AddVisit(groups[1..], v);
      } else {
        assert AddVisit(groups, v)[1..] == groups[1..];
      }
    }
  }

  lemma {:induction false} AddVisitNonEmpty(groups: seq<Group>, v: VisitRow)
    requires AllNonEmpty(groups)
    ensures AllNonEmpty(AddVisit(groups, v))
  {
    if groups != [] && groups[0].id != v.guardiaId {
      AddVisitNonEmpty(groups[1..], v);
      var r := AddVisit(groups, v);
      forall i | 0 <= i < |r|
        ensures r[i].visitas != []
      {
        if i > 0 {
          assert r[i] == AddVisit(groups[1..], v)[i - 1];
        }
      }
    }
  }

  /** Where the Map already holds the guard at position k, the push changes that entry only. */
  lemma {:induction false} AddVisitAt(groups: seq<Group>, v: VisitRow, k: nat)
    requires k < |groups| && groups[k].id == v.guardiaId
    requires forall j :: 0 <= j < k ==> groups[j].id != v.guardiaId
    ensures AddVisit(groups, v) == groups[k := groups[k].(visitas := groups[k].visitas + [v])]
  {
    if k > 0 {
      AddVisitAt(groups[1..], v, k - 1);
    }
  }

  /** A guard not yet in the Map gets a new entry at the end. */
  lemma {:induction false} AddVisitNew(groups: seq<Group>, v: VisitRow)
    requires forall j :: 0 <= j < |groups| ==> groups[j].id != v.guardiaId
    ensures AddVisit(groups, v) == groups + [Group(v.guardiaId, [v])]
  {
    if groups != [] {
      AddVisitNew(groups[1..], v);
      assert groups == [groups[0]] + groups[1..];
    }
  }

  // ---------------------------------------------------------------------------------------
  // The grouping and what it promises

  /** There is one group per distinct guard, in the order the guards first appear. */
  lemma {:induction false} GroupsAreFirstSeen(visitas: seq<VisitRow>)
    decreases |visitas|
    ensures GroupIds(Groups(visitas)) == Dedup(GuardIdsOf(visitas))
  {
    if visitas != [] {
      var n := |visitas| - 1;
      var prefix := visitas[..n];
      var ids := GuardIdsOf(visitas);
      GroupsAreFirstSeen(prefix);
      var g := Groups(prefix);
      AddVisitIds(g, visitas[n]);
      assert ids[..n] == GuardIdsOf(prefix);
      assert ids[n] == visitas[n].guardiaId;
      assert Dedup(ids) == (if ids[n] in Dedup(ids[..n]) then Dedup(ids[..n]) else Dedup(ids[..n]) + [ids[n]]);
      assert Groups(visitas) == AddVisit(g, visitas[n]);
    }
  }

  function OfGuard(id: int): VisitRow -> bool {
    (v: VisitRow) => v.guardiaId == id
  }

  /** Each guard's group holds exactly that guard's visits, in arrival order. */
  lemma {:induction false} GroupsHoldGuardVisits(visitas: seq<VisitRow>, id: int)
    decreases |visitas|
    ensures VisitsOf(Groups(visitas), id) == Filter(visitas, OfGuard(id))
  {
    if visitas != [] {
      var n := |visitas| - 1;
      GroupsHoldGuardVisits(visitas[..n], id);
      AddVisitVisits(Groups(visitas[..n]), visitas[n], id);
      assert visitas == visitas[..n] + [visitas[n]];
      FilterAppend(visitas[..n], [visitas[n]], OfGuard(id));
      assert Filter([visitas[n]], OfGuard(id)) == if id == visitas[n].guardiaId then [visitas[n]] else [];
    }
  }

  /** The per-guard totals add up to the number of visits, and no group is empty. */
  lemma {:induction false} GroupsPartition(visitas: seq<VisitRow>)
    decreases |visitas|
    ensures TotalVisits(Groups(visitas)) == |visitas|
    ensures AllNonEmpty(Groups(visitas))
  {
    if visitas != [] {
      var n := |visitas| - 1;
      GroupsPartition(visitas[..n]);
      AddVisitTotal(Groups(visitas[..n]), visitas[n]);
      AddVisitNonEmpty(Groups(visitas[..n]), visitas[n]);
    }
  }

  /** The loop's Map: every guard with an entry is indexed, at the position of its first
      (and only) entry. */
  predicate PosIndexes(groups: seq<Group>, pos: map<int, nat>) {
    (forall id :: id in pos ==>
       pos[id] < |groups| && groups[pos[id]].id == id && forall j :: 0 <= j < pos[id] ==> groups[j].id != id) &&
    (forall j :: 0 <= j < |groups| ==> groups[j].id in pos)
  }

  /** A new guard's entry at the end of the list, indexed by the Map. */
  lemma NewGuardIndexed(groups: seq<Group>, pos: map<int, nat>, v: VisitRow)
    requires PosIndexes(groups, pos) && v.guardiaId !in pos
    ensures PosIndexes(groups + [Group(v.guardiaId, [v])], pos[v.guardiaId := |groups|])
  {
    var groups' := groups + [Group(v.guardiaId, [v])];
    var pos' := pos[v.guardiaId := |groups|];
    forall id | id in pos'
      ensures pos'[id] < |groups'| && groups'[pos'[id]].id == id &&
        forall j :: 0 <= j < pos'[id] ==> groups'[j].id != id
    {
      if id != v.guardiaId {
        assert pos'[id] == pos[id] && groups'[pos[id]] == groups[pos[id]];
      } else {
        forall j | 0 <= j < |groups|
          ensures groups'[j].id != id
        {
          assert groups[j].id in pos;
        }
      }
    }
    forall j | 0 <= j < |groups'|
      ensures groups'[j].id in pos'
    {
      if j < |groups| {
        assert groups'[j] == groups[j];
      }
    }
  }

  /** Replacing an entry by one of the same guard keeps the Map right. */
  lemma SameGuardIndexed(groups: seq<Group>, pos: map<int, nat>, k: nat, g: Group)
    requires PosIndexes(groups, pos) && k < |groups| && g.id == groups[k].id
    ensures PosIndexes(groups[k := g], pos)
  {
    assert forall j :: 0 <= j < |groups| ==> groups[k := g][j].id == groups[j].id;
  }

  /** One turn of the `forEach`: a new guard gets an entry at the end of the list and in the
      Map, a known one gets the visit pushed onto its entry. */
  method PushVisit(groups: seq<Group>, pos: map<int, nat>, v: VisitRow)
    returns (groups': seq<Group>, pos': map<int, nat>)
    requires PosIndexes(groups, pos)
    ensures groups' == AddVisit(groups, v) && PosIndexes(groups', pos')
  {
    if v.guardiaId !in pos {
      AddVisitNew(groups, v);
      NewGuardIndexed(groups, pos, v);
      pos' := pos[v.guardiaId := |groups|];
      groups' := groups + [Group(v.guardiaId, [])];
      groups' := groups'[|groups'| - 1 := groups'[|groups'| - 1].(visitas := [v])];
      assert groups' == groups + [Group(v.guardiaId, [v])];
    } else {
      var k := pos[v.guardiaId];
      AddVisitAt(groups, v, k);
      SameGuardIndexed(groups, pos, k, groups[k].(visitas := groups[k].visitas + [v]));
      groups' := groups[k := groups[k].(visitas := groups[k].visitas + [v])];
      pos' := pos;
    }
  }

  /** The `forEach` loop with its Map: `pos` is where each guard's entry sits. */
  method BuildGroups(visitas: seq<VisitRow>) returns (groups: seq<Group>)
    ensures groups == Groups(visitas)
  {
    groups := [];
    var pos: map<int, nat> := map[];
    var i := 0;
    while i < |visitas|
      invariant 0 <= i <= |visitas|
      invariant groups == Groups(visitas[..i])
      invariant PosIndexes(groups, pos)
    {
      assert visitas[..i + 1][..i] == visitas[..i];
      groups, pos := PushVisit(groups, pos, visitas[i]);
      i := i + 1;
    }
    assert visitas[..i] == visitas;
  }

  // ---------------------------------------------------------------------------------------
  // Per-guard statistics

  const ActiveMillis := 120 * 60000

  /** `isActive`: fewer than 120 minutes (exact division) since the visit. */
  predicate IsActive(lastVisit: int, now: int) {
    now - lastVisit < ActiveMillis
  }

  datatype GuardiaInfo = GuardiaInfo(id: int, totalVisitas: nat, visitasHoy: nat, ultimaVisita: int,
                                     ultimoPunto: int, activo: bool)

  function ByFecha(): VisitRow -> Key {
    (v: VisitRow) => Key(v.fechaHora, 0)
  }

  /** The entry built for one guard: its visits newest first, the first of them as the last
      visit, and the count of visits on today's date. */
  function Summarize(g: Group, now: int, dayOf: int -> int): (r: GuardiaInfo)
    requires g.visitas != []
    ensures r.id == g.id && r.totalVisitas == |g.visitas|
    ensures r.visitasHoy <= r.totalVisitas
    ensures r.visitasHoy == Count(g.visitas, (v: VisitRow) => dayOf(v.fechaHora) == dayOf(now))
    ensures exists v :: v in g.visitas && v.fechaHora == r.ultimaVisita && v.puntoQrId == r.ultimoPunto
    ensures forall v :: v in g.visitas ==> v.fechaHora <= r.ultimaVisita
    ensures r.activo <==> now - r.ultimaVisita < ActiveMillis
  {
    var sorted := SortDesc(g.visitas, ByFecha());
    var last := sorted[0];
    SortedHeadIsMax(sorted, ByFecha());
    assert last in multiset(g.visitas);
    assert forall v :: v in g.visitas ==> v in multiset(sorted);
    var today := (v: VisitRow) => dayOf(v.fechaHora) == dayOf(now);
    var hoy := Count(g.visitas, today);
    GuardiaInfo(g.id, |g.visitas|, hoy, last.fechaHora, last.puntoQrId, IsActive(last.fechaHora, now))
  }

  /** The list the effect computes from a non-empty `visitas`. */
  function GuardiasData(visitas: seq<VisitRow>, now: int, dayOf: int -> int): (r: seq<GuardiaInfo>)
    ensures var groups := Groups(visitas);
      |r| == |groups| && forall i :: 0 <= i < |r| ==> groups[i].visitas != [] && r[i] == Summarize(groups[i], now, dayOf)
  {
    var groups := Groups(visitas);
    GroupsPartition(visitas);
    seq(|groups|, i requires 0 <= i < |groups| => Summarize(groups[i], now, dayOf))
  }

  function SumTotals(infos: seq<GuardiaInfo>): nat {
    if infos == [] then 0 else infos[0].totalVisitas + SumTotals(infos[1..])
  }

  lemma {:induction false} SumTotalsOfGroups(groups: seq<Group>, infos: seq<GuardiaInfo>)
    requires |infos| == |groups|
    requires forall i :: 0 <= i < |groups| ==> infos[i].totalVisitas == |groups[i].visitas|
    ensures SumTotals(infos) == TotalVisits(groups)
  {
    if groups != [] {
      SumTotalsOfGroups(groups[1..], infos[1..]);
    }
  }

  /** The list has one entry per distinct guard, first-seen first, and the totals add up to
      the number of visits. */
  lemma GuardiasDataShape(visitas: seq<VisitRow>, now: int, dayOf: int -> int)
    ensures var r := GuardiasData(visitas, now, dayOf);
      |r| == |Dedup(GuardIdsOf(visitas))| &&
      (forall i :: 0 <= i < |r| ==> r[i].id == Dedup(GuardIdsOf(visitas))[i]) &&
      SumTotals(r) == |visitas|
  {
    var r := GuardiasData(visitas, now, dayOf);
    var groups := Groups(visitas);
    GroupsAreFirstSeen(visitas);
    GroupsPartition(visitas);
    SumTotalsOfGroups(groups, r);
  }

  /** The effect: a present, non-empty `visitas` replaces the list; otherwise the previous
      list stays. */
  function UpdateGuardias(prev: seq<GuardiaInfo>, visitas: Option<seq<VisitRow>>, now: int,
                          dayOf: int -> int): (r: seq<GuardiaInfo>)
    ensures visitas.None? || visitas.value == [] ==> r == prev
    ensures visitas.Some? && visitas.value != [] ==> r == GuardiasData(visitas.value, now, dayOf)
  {
    if visitas.Some? && |visitas.value| > 0 then GuardiasData(visitas.value, now, dayOf) else prev
  }
}
