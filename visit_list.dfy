/** The guard's visit history (frontend/src/components/VisitList.jsx): the server's visits
    followed by the offline queue, with a banner for pending records and an OFFLINE tag. */
module VisitList {
  import opened Common
  import opened Records
  import opened Storage

  /** An entry of the merged list: a row from the server or a record from the offline queue. */
  datatype ListedVisit = Online(row: VisitRow) | Queued(record: QueuedVisit)

  /** What `api.getVisits` settles to. */
  datatype FetchReply = Fetched(rows: seq<VisitRow>) | FetchThrew

  /** One rendered card: the type label's colour and whether the OFFLINE tag shows. */
  datatype Card = Card(color: string, offlineTag: bool)

  /** What the component renders. */
  datatype ListScreen = LoadingList | NoVisits | Listing(pendingBanner: Option<nat>, cards: seq<Card>)

  /** The colour of a visit type's label; any other type gets the grey default. */
  function TipoColor(tipo: string): (c: string)
    ensures tipo !in {"normal", "observacion", "incidencia"} ==> c == "#757575"
    ensures tipo == "normal" ==> c == "#4caf50"
    ensures tipo == "observacion" ==> c == "#ff9800"
    ensures tipo == "incidencia" ==> c == "#f44336"
  {
    if tipo == "normal" then "#4caf50"
    else if tipo == "observacion" then "#ff9800"
    else if tipo == "incidencia" then "#f44336"
    else "#757575"
  }

  function TipoOf(v: ListedVisit): string {
    match v
    case Online(row) => row.tipo
    case Queued(q) => VisitTypeName(q.visit.tipo)
  }

  /** The entry's `sincronizado` field. Queued records have none: the store spells its flag
      `syncronizado`. */
  function Sincronizado(v: ListedVisit): Option<bool> {
    match v
    case Online(row) => Some(row.sincronizado)
    case Queued(_) => None
  }

  /** The OFFLINE tag shows when `sincronizado` is falsy (false or absent). */
  predicate OfflineTag(v: ListedVisit) {
    Sincronizado(v) != Some(true)
  }

  /** `[...visits, ...offlineVisits]`. */
  function AllVisits(visits: seq<VisitRow>, offline: seq<QueuedVisit>): seq<ListedVisit> {
    seq(|visits|, i requires 0 <= i < |visits| => Online(visits[i])) +
    seq(|offline|, i requires 0 <= i < |offline| => Queued(offline[i]))
  }

  /** The component's render for its three state fields. */
  function Render(loading: bool, visits: seq<VisitRow>, offline: seq<QueuedVisit>): ListScreen {
    var all := AllVisits(visits, offline);
    if loading then LoadingList
    else if |all| == 0 then NoVisits
    else Listing(if |offline| > 0 then Some(|offline|) else None,
                 seq(|all|, i requires 0 <= i < |all| => Card(TipoColor(TipoOf(all[i])), OfflineTag(all[i]))))
  }

  /** The merged list is the server's rows in order, then the queue in store order. */
  lemma AllVisitsOrder(visits: seq<VisitRow>, offline: seq<QueuedVisit>)
    ensures var all := AllVisits(visits, offline);
      |all| == |visits| + |offline| &&
      (forall i :: 0 <= i < |visits| ==> all[i] == Online(visits[i])) &&
      (forall i :: 0 <= i < |offline| ==> all[|visits| + i] == Queued(offline[i]))
  {
  }

  /** Past loading: the placeholder shows exactly when both lists are empty; the banner shows
      exactly when the queue is non-empty, with its length; every queued record is tagged
      OFFLINE whatever its own flag says, and a server row exactly when it is not synchronised. */
  lemma RenderShowsPending(visits: seq<VisitRow>, offline: seq<QueuedVisit>)
    ensures Render(false, visits, offline) == NoVisits <==> visits == [] && offline == []
    ensures var s := Render(false, visits, offline);
      s.Listing? ==>
        (s.pendingBanner.Some? <==> |offline| > 0) &&
        (s.pendingBanner.Some? ==> s.pendingBanner.value == |offline|) &&
        |s.cards| == |visits| + |offline| &&
        (forall i :: |visits| <= i < |s.cards| ==> s.cards[i].offlineTag) &&
        (forall i :: 0 <= i < |visits| ==> (s.cards[i].offlineTag <==> !visits[i].sincronizado))
  {
    AllVisitsOrder(visits, offline);
  }

  class VisitList {
    var visits: seq<VisitRow>
    var offlineVisits: seq<QueuedVisit>
    var loading: bool

    constructor ()
      ensures visits == [] && offlineVisits == [] && loading
    {
      visits := [];
      offlineVisits := [];
      loading := true;
    }

    /** `loadVisits`: the server's list, then the queue; if the server request throws, only
        the queue is loaded and the previous server list stays. */
    method LoadVisits(fetch: FetchReply, store: StorageService, readFails: bool)
      modifies this
      ensures !loading
      ensures visits == if fetch.Fetched? then fetch.rows else old(visits)
      ensures offlineVisits == if readFails then [] else store.queue
    {
      loading := true;
      match fetch {
        case Fetched(rows) =>
          visits := rows;
        case FetchThrew =>
      }
      offlineVisits := store.GetOfflineVisits(readFails);
      loading := false;
    }
  }

  /** A guard who is offline still sees every queued record, each tagged OFFLINE, under a
      banner that counts them. */
  method OfflineGuardSeesQueue(q0: seq<QueuedVisit>) returns (screen: ListScreen)
    requires |q0| > 0
    ensures screen.Listing? && screen.pendingBanner == Some(|q0|) && |screen.cards| == |q0|
    ensures forall i :: 0 <= i < |q0| ==> screen.cards[i].offlineTag
  {
    var store := new StorageService();
    var _ := store.SetOfflineVisits(q0, false);
    var list := new VisitList();
    list.LoadVisits(FetchThrew, store, false);
    screen := Render(list.loading, list.visits, list.offlineVisits);
    RenderShowsPending(list.visits, list.offlineVisits);
  }
}
