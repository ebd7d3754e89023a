/**
 * The pickup screen: the doorman types a retrieval code, the first pending
 * delivery with that code is shown, and confirming it records the pickup in
 * the backend, marks the delivery as picked up in the shared list and sends
 * the resident a confirmation over the webhook. Below, the pending and the
 * picked-up deliveries are listed newest first, the latter with checkboxes.
 */
module Pickups {
  import opened Wrappers
  import opened Text
  import opened Seqs
  import opened Selection
  import opened Entities
  import opened Messaging
  import opened Adapters

  /** Who collected the package when the doorman picks nobody else. */
  const DefaultPickupPerson: string := "O proprio(a)"

  /** The choices of the "retrieved by" list, in screen order. */
  const PickupOptions: seq<string> := [
    DefaultPickupPerson, "Filho(a)", "Irmão(a)", "Domestica do Lar", "Pai", "Mãe", "Avó", "Avô",
    "Tio(a)", "Marido", "Esposa", "Visita", "Vizinho(a)"]

  // ------------------------------------------------------------ code lookup

  /** A delivery the typed code picks out: equal code, still pending. */
  predicate AwaitsPickup(d: Delivery, code: string)
  {
    d.code == code && d.status == Pending
  }

  /**
   * The lookup effect: with at least five characters after trimming, the
   * position of the first pending delivery whose code is the trimmed text;
   * nothing for a shorter text.
   */
  function FindPendingByCode(deliveries: seq<Delivery>, search: string): (k: Option<nat>)
    ensures |Trim(search)| < 5 ==> k.None?
    ensures k.Some? ==> k.value < |deliveries| && AwaitsPickup(deliveries[k.value], Trim(search))
    ensures k.Some? ==> forall j :: 0 <= j < k.value ==> !AwaitsPickup(deliveries[j], Trim(search))
    ensures |Trim(search)| >= 5 && k.None? ==> forall j :: 0 <= j < |deliveries| ==> !AwaitsPickup(deliveries[j], Trim(search))
  {
    if |Trim(search)| >= 5 then FindFirst(deliveries, (d: Delivery) => AwaitsPickup(d, Trim(search))) else None
  }

  /** A code shorter than five characters after trimming never finds anything, whatever the list holds. */
  lemma ShortCodeFindsNothing(deliveries: seq<Delivery>, search: string)
    requires |Trim(search)| < 5
    ensures FindPendingByCode(deliveries, search).None?
  {
  }

  // ------------------------------------------------------------ confirmation

  /**
   * The UUID `markAsPickedUp` is called with: the delivery's own when it has
   * a non-empty one, otherwise whatever the identity cache holds for its id.
   */
  function PickupTarget(d: Delivery, cache: CacheState): (u: Option<string>)
    ensures d.uuid.Some? && d.uuid.value != "" ==> u == d.uuid
    ensures (d.uuid.None? || d.uuid.value == "") ==> u == LookupUuid(cache, d.id)
    ensures u.Some? ==> u.value != ""
  {
    if d.uuid.Some? && d.uuid.value != "" then d.uuid else LookupUuid(cache, d.id)
  }

  /**
   * A delivery kept only locally (no UUID, and an id the cache never issued,
   * such as the sentinel 0 or a clock-based id) has nothing to confirm.
   */
  lemma LocalOnlyCannotBeConfirmed(d: Delivery, cache: CacheState)
    requires CacheInv(cache)
    requires d.uuid.None? || d.uuid.value == ""
    requires d.id == 0 || d.id >= cache.nextId
    ensures PickupTarget(d, cache).None?
  {
    NeverIssued(cache, d.id);
  }

  /** The record after its pickup: picked up, at `when`, by `person`. */
  function PickedUpRecord(d: Delivery, when: string, person: string): (e: Delivery)
    ensures e.status == PickedUp && e.pickupDate == Some(when) && e.pickupPerson == Some(person)
    ensures e.id == d.id && e.uuid == d.uuid && e.code == d.code && e.residentId == d.residentId
    ensures e.employeeId == d.employeeId && e.receivedDate == d.receivedDate
    ensures e.photoUrl == d.photoUrl && e.observation == d.observation
  {
    d.(status := PickedUp, pickupDate := Some(when), pickupPerson := Some(person))
  }

  /**
   * `prev.map(d => d.id === id ? { ...d, status: 'picked-up', ... } : d)`:
   * every delivery with the confirmed id is picked up, every other one is
   * left as it was.
   */
  function MarkPickedUp(deliveries: seq<Delivery>, id: nat, when: string, person: string): (r: seq<Delivery>)
    ensures |r| == |deliveries|
    ensures forall k :: 0 <= k < |deliveries| && deliveries[k].id == id ==> r[k] == PickedUpRecord(deliveries[k], when, person)
    ensures forall k :: 0 <= k < |deliveries| && deliveries[k].id != id ==> r[k] == deliveries[k]
  {
    if deliveries == [] then []
    else
      var d := deliveries[0];
      [if d.id == id then PickedUpRecord(d, when, person) else d] + MarkPickedUp(deliveries[1..], id, when, person)
  }

  predicate IsPending(d: Delivery)
  {
    d.status == Pending
  }

  /** After a confirmation the pending list has lost exactly the deliveries with that id. */
  lemma {:induction false} PickupLeavesOtherPending(deliveries: seq<Delivery>, id: nat, when: string, person: string)
    ensures Filter(MarkPickedUp(deliveries, id, when, person), IsPending)
            == Filter(deliveries, (d: Delivery) => IsPending(d) && d.id != id)
  {
    if deliveries != [] {
      PickupLeavesOtherPending(deliveries[1..], id, when, person);
      var r := MarkPickedUp(deliveries, id, when, person);
      assert r[1..] == MarkPickedUp(deliveries[1..], id, when, person);
    }
  }

  // ------------------------------------------------------------ notification

  /** The header of the confirmation: the building and the resident's name. */
  function PickupHeader(r: Resident): string
  {
    "🏢 *" + r.condo + "*\n\nOlá *" + r.name + "*, informamos que sua encomenda foi retirada!\n\n✅ *Encomenda Retirada*\n\n"
  }

  /** The lines that name the code and who collected the package. */
  function PickupLines(code: string, person: string): string
  {
    "🔑 Código: *" + code + "*\n👤 Retirada por: *" + person + "*"
  }

  /** `generatePickupMessage`; `date` and `time` are the formatted local date and time. */
  function GeneratePickupMessage(r: Resident, code: string, person: string, date: string, time: string): (m: string)
    ensures StartsWith(m, PickupHeader(r))
    ensures Includes(m, PickupLines(code, person))
  {
    var head := PickupHeader(r);
    var tail := "\n\n📅 Data: " + date + "\n⏰ Hora: " + time + "\n\nEsta é uma mensagem de confirmação automática, Entregas ZAP.";
    IncludesConcat(head, PickupLines(code, person), tail);
    assert (head + PickupLines(code, person) + tail)[..|head|] == head;
    head + PickupLines(code, person) + tail
  }

  datatype PickupPayload = PickupPayload(
    condominio: string,
    morador: string,
    mensagem: string,
    telefone: string,
    codigoRetirada: string,
    tipo: string,
    retiradoPor: string)

  /** The body of the confirmation POST for the resident of the confirmed delivery. */
  function PickupNotice(r: Resident, d: Delivery, person: string, date: string, time: string): (p: PickupPayload)
    ensures p.tipo == "confirmacao_retirada"
    ensures p.codigoRetirada == d.code && p.retiradoPor == person
    ensures p.telefone == FormatPhoneNumber(r.phone)
    ensures Includes(p.mensagem, PickupLines(p.codigoRetirada, p.retiradoPor))
  {
    PickupPayload(r.condo, r.name, GeneratePickupMessage(r, d.code, person, date, time),
                  FormatPhoneNumber(r.phone), d.code, "confirmacao_retirada", person)
  }

  /** The confirmation POST: where it goes and what it carries. */
  datatype PickupRequest = PickupRequest(url: string, body: PickupPayload)

  /**
   * The POST a confirmation makes: none unless the pickup was confirmed for
   * a known resident, and then the pickup notice at that resident's
   * building webhook.
   */
  function NotifyOn(report: PickupReport, condos: seq<Condo>, found: Option<Delivery>, person: string,
                    date: string, time: string): (request: Option<PickupRequest>)
    ensures request.Some? <==> report.Confirmed? && report.notify.Some? && found.Some?
    ensures request.Some? ==>
              && request.value.url == WebhookUrlFor(condos, report.notify.value.condo)
              && request.value.body == PickupNotice(report.notify.value, found.value, person, date, time)
  {
    if report.Confirmed? && report.notify.Some? && found.Some?
    then Some(RequestFor(condos, report.notify.value, found.value, person, date, time))
    else None
  }

  /** The confirmation for resident `r`: the building's webhook and the pickup notice. */
  function RequestFor(condos: seq<Condo>, r: Resident, d: Delivery, person: string, date: string, time: string): PickupRequest
  {
    PickupRequest(WebhookUrlFor(condos, r.condo), PickupNotice(r, d, person, date, time))
  }

  // ------------------------------------------------------------ the lists

  /** The pending deliveries, newest received first (`timeOf` reads an ISO date as milliseconds). */
  function PendingDeliveries(deliveries: seq<Delivery>, timeOf: string -> int): (r: seq<Delivery>)
    ensures SortedDesc(r, (d: Delivery) => timeOf(d.receivedDate))
    ensures multiset(r) == multiset(Filter(deliveries, IsPending))
  {
    SortDesc(Filter(deliveries, IsPending), (d: Delivery) => timeOf(d.receivedDate))
  }

  /** `d.status === 'picked-up' && d.pickupDate`: picked up with a (non-empty) pickup date. */
  predicate IsPickedUpDated(d: Delivery)
  {
    d.status == PickedUp && d.pickupDate.Some? && d.pickupDate.value != ""
  }

  /** The key of the history's sort: the pickup time. */
  function PickupTime(d: Delivery, timeOf: string -> int): int
  {
    if d.pickupDate.Some? then timeOf(d.pickupDate.value) else 0
  }

  /** The picked-up deliveries that carry a pickup date, most recent pickup first. */
  function PickedUpDeliveries(deliveries: seq<Delivery>, timeOf: string -> int): (r: seq<Delivery>)
    ensures SortedDesc(r, (d: Delivery) => PickupTime(d, timeOf))
    ensures multiset(r) == multiset(Filter(deliveries, IsPickedUpDated))
  {
    SortDesc(Filter(deliveries, IsPickedUpDated), (d: Delivery) => PickupTime(d, timeOf))
  }

  /** A delivery is listed as pending exactly when it is pending, and in the history exactly when picked up with a date. */
  lemma ListsMembership(deliveries: seq<Delivery>, timeOf: string -> int, d: Delivery)
    ensures d in PendingDeliveries(deliveries, timeOf) <==> d in deliveries && IsPending(d)
    ensures d in PickedUpDeliveries(deliveries, timeOf) <==> d in deliveries && IsPickedUpDated(d)
    ensures !(d in PendingDeliveries(deliveries, timeOf) && d in PickedUpDeliveries(deliveries, timeOf))
  {
    var p := Filter(deliveries, IsPending);
    var q := Filter(deliveries, IsPickedUpDated);
    PermutationKeepsMembers(PendingDeliveries(deliveries, timeOf), p);
    PermutationKeepsMembers(PickedUpDeliveries(deliveries, timeOf), q);
    if d in deliveries {
      var k :| 0 <= k < |deliveries| && deliveries[k] == d;
    }
  }

  /** The ids of a list of deliveries, in order. */
  function DeliveryIds(ds: seq<Delivery>): (ids: seq<nat>)
    ensures |ids| == |ds| && forall k :: 0 <= k < |ds| ==> ids[k] == ds[k].id
  {
    Map(ds, (d: Delivery) => d.id)
  }

  // ------------------------------------------------------------ the screen

  /** What pressing "confirm pickup" did. */
  datatype PickupReport =
    | NothingFound
    | Unresolved
    | PersistFailed
    | Confirmed(uuid: string, notify: Option<Resident>)

  /**
   * The decision of `handleConfirmPickup`: nothing to do without a found
   * delivery, a refusal when there is no UUID to update, a failure when the
   * backend call throws, and otherwise a confirmation under that UUID. A
   * confirmation notifies the resident when the resident is known; the POST
   * goes to `WebhookUrlFor(condos, r.condo)` with the body `PickupNotice`.
   */
  function ConfirmOutcome(found: Option<Delivery>, resident: Option<Resident>, cache: CacheState, persisted: Call): (report: PickupReport)
    ensures found.None? ==> report == NothingFound
    ensures found.Some? && PickupTarget(found.value, cache).None? ==> report == Unresolved
    ensures found.Some? && PickupTarget(found.value, cache).Some? && persisted == Raised ==> report == PersistFailed
    ensures report.Confirmed? <==> found.Some? && PickupTarget(found.value, cache).Some? && persisted == Completed
    ensures report.Confirmed? ==> Some(report.uuid) == PickupTarget(found.value, cache) && report.notify == resident
  {
    if found.None? then NothingFound
    else
      match PickupTarget(found.value, cache)
      case None => Unresolved
      case Some(uuid) =>
        match persisted
        case Raised => PersistFailed
        case Completed => Confirmed(uuid, resident)
  }

  /**
   * The pickup screen's state and the shared delivery list it updates. The
   * found delivery and resident are what the lookup effect settles on, so
   * they are functions of the typed code and the lists.
   */
  class PickupScreen {
    const residents: seq<Resident>
    const condos: seq<Condo>
    var deliveries: seq<Delivery>
    var searchCode: string
    var pickupPerson: string
    var selectedIds: set<nat>

    constructor (residents: seq<Resident>, condos: seq<Condo>, deliveries: seq<Delivery>, selectedIds: set<nat>)
      ensures this.residents == residents && this.condos == condos
      ensures this.deliveries == deliveries && this.selectedIds == selectedIds
      ensures searchCode == "" && pickupPerson == DefaultPickupPerson
    {
      this.residents := residents;
      this.condos := condos;
      this.deliveries := deliveries;
      this.selectedIds := selectedIds;
      searchCode := "";
      pickupPerson := DefaultPickupPerson;
    }

    /** The delivery the typed code finds, if any. */
    function FoundDelivery(): Option<Delivery>
      reads this
    {
      match FindPendingByCode(deliveries, searchCode)
      case None => None
      case Some(k) => Some(deliveries[k])
    }

    /** `residents.find(r => r.id === delivery.residentId) || null`. */
    function FoundResident(): Option<Resident>
      reads this
    {
      match FoundDelivery()
      case None => None
      case Some(d) => ResidentOf(residents, d)
    }

    /** The "searching" flag: set while the trimmed code has five characters or more. */
    function IsSearching(): bool
      reads this
    {
      |Trim(searchCode)| >= 5
    }

    /** Typing in the code box (or clicking a card, which fills it); the effect resets the person for a short code. */
    method SetSearchCode(s: string)
      modifies this
      ensures searchCode == s && deliveries == old(deliveries) && selectedIds == old(selectedIds)
      ensures s != old(searchCode) && |Trim(s)| < 5 ==> pickupPerson == DefaultPickupPerson
      ensures s == old(searchCode) || |Trim(s)| >= 5 ==> pickupPerson == old(pickupPerson)
    {
      if s != searchCode {
        searchCode := s;
        if |Trim(s)| < 5 {
          pickupPerson := DefaultPickupPerson;
        }
      }
    }

    method SetPickupPerson(p: string)
      modifies this
      ensures pickupPerson == p
      ensures searchCode == old(searchCode) && deliveries == old(deliveries) && selectedIds == old(selectedIds)
    {
      pickupPerson := p;
    }

    /**
     * `handleConfirmPickup`. `persisted` is how `markAsPickedUp` ended, `now`
     * the ISO time of the update, and `date` and `time` the local date and
     * time the message shows; the webhook's answer changes nothing, so it is
     * not an input. The list and the form change only on a confirmation; the
     * form is then cleared. A confirmation for a known resident also posts
     * the pickup notice to the resident's building webhook.
     */
    method ConfirmPickup(cache: IdCache, persisted: Call, now: string, date: string, time: string)
      returns (report: PickupReport, request: Option<PickupRequest>)
      modifies this
      ensures report == ConfirmOutcome(old(FoundDelivery()), old(FoundResident()), cache.State(), persisted)
      ensures report.Confirmed? ==> old(FoundDelivery()).Some?
      ensures report.Confirmed? ==>
                && deliveries == MarkPickedUp(old(deliveries), old(FoundDelivery()).value.id, now, old(pickupPerson))
                && searchCode == "" && pickupPerson == DefaultPickupPerson && unchanged(this`selectedIds)
      ensures !report.Confirmed? ==> unchanged(this)
      ensures request == NotifyOn(report, condos, old(FoundDelivery()), old(pickupPerson), date, time)
    {
      var found := FoundDelivery();
      var resident := FoundResident();
      report := ConfirmOutcome(found, resident, cache.State(), persisted);
      request := NotifyOn(report, condos, found, pickupPerson, date, time);
      if report.Confirmed? {
        RecordPickup(found.value.id, now);
      }
    }

    /** The state update of a confirmation: the delivery marked in the list, and the form cleared. */
    method RecordPickup(id: nat, now: string)
      modifies this
      ensures deliveries == MarkPickedUp(old(deliveries), id, now, old(pickupPerson))
      ensures searchCode == "" && pickupPerson == DefaultPickupPerson && unchanged(this`selectedIds)
    {
      deliveries := MarkPickedUp(deliveries, id, now, pickupPerson);
      searchCode := "";
      pickupPerson := DefaultPickupPerson;
    }

    /** `handleSelect`. */
    method Select(id: nat, checked: bool)
      modifies this
      ensures selectedIds == Toggle(old(selectedIds), id, checked)
      ensures deliveries == old(deliveries) && searchCode == old(searchCode) && pickupPerson == old(pickupPerson)
    {
      selectedIds := Toggle(selectedIds, id, checked);
    }

    /** `handleSelectAll` over the history as listed with the clock reading `timeOf`. */
    method SelectAllPickedUp(checked: bool, timeOf: string -> int)
      modifies this
      ensures selectedIds == SelectAll(DeliveryIds(PickedUpDeliveries(deliveries, timeOf)), checked)
      ensures deliveries == old(deliveries) && searchCode == old(searchCode) && pickupPerson == old(pickupPerson)
    {
      selectedIds := SelectAll(DeliveryIds(PickedUpDeliveries(deliveries, timeOf)), checked);
    }

    /** The header checkbox of the history. */
    predicate AllSelected(timeOf: string -> int)
      reads this
    {
      IsAllSelected(DeliveryIds(PickedUpDeliveries(deliveries, timeOf)), selectedIds)
    }
  }

  /** With an empty history the header checkbox is never ticked. */
  lemma NoHistoryNotAllSelected(deliveries: seq<Delivery>, timeOf: string -> int, sel: set<nat>)
    requires forall k :: 0 <= k < |deliveries| ==> !IsPickedUpDated(deliveries[k])
    ensures !IsAllSelected(DeliveryIds(PickedUpDeliveries(deliveries, timeOf)), sel)
  {
    var q := Filter(deliveries, IsPickedUpDated);
    assert |PickedUpDeliveries(deliveries, timeOf)| == |multiset(q)|;
  }
}
