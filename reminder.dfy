/**
 * The reminder screen: the pending deliveries whose resident is known are
 * split into those not yet reminded and those already reminded this session;
 * the doorman filters them by text and by age, ticks some and sends each
 * ticked one a reminder over its building's webhook. Reminded deliveries can
 * be reminded again or hidden from the screen.
 */
module Reminder {
  import opened Wrappers
  import opened Text
  import opened Seqs
  import opened Selection
  import opened Entities
  import opened Messaging

  /** A delivery together with its resident (`Delivery & { resident: Resident }`). */
  datatype Candidate = Candidate(delivery: Delivery, resident: Resident)

  /** A delivery the screen offers: pending, not hidden, with a known resident. */
  predicate IsCandidate(residents: seq<Resident>, excluded: set<nat>, d: Delivery)
  {
    d.status == Pending && d.id !in excluded && ResidentOf(residents, d).Some?
  }

  /**
   * `allPendingDeliveriesWithResident`: the pending deliveries outside
   * `excluded`, each paired with its resident, those without one dropped.
   */
  function Candidates(deliveries: seq<Delivery>, residents: seq<Resident>, excluded: set<nat>): (r: seq<Candidate>)
    ensures |r| <= |deliveries|
    ensures forall i :: 0 <= i < |r| ==> ResidentOf(residents, r[i].delivery) == Some(r[i].resident)
  {
    if deliveries == [] then []
    else
      var d := deliveries[0];
      var rest := Candidates(deliveries[1..], residents, excluded);
      if d.status == Pending && d.id !in excluded then
        match ResidentOf(residents, d)
        case Some(res) => [Candidate(d, res)] + rest
        case None => rest
      else rest
  }

  /** The deliveries of a list of candidates, in order. */
  function DeliveriesOf(cs: seq<Candidate>): (ds: seq<Delivery>)
    ensures |ds| == |cs| && forall k :: 0 <= k < |cs| ==> ds[k] == cs[k].delivery
  {
    Map(cs, (c: Candidate) => c.delivery)
  }

  lemma DeliveriesOfCons(c: Candidate, rest: seq<Candidate>)
    ensures DeliveriesOf([c] + rest) == [c.delivery] + DeliveriesOf(rest)
  {
    var l := DeliveriesOf([c] + rest);
    var r := [c.delivery] + DeliveriesOf(rest);
    assert |l| == |r|;
    forall k | 0 <= k < |l| ensures l[k] == r[k] {
      if k > 0 {
        assert ([c] + rest)[k] == rest[k - 1];
      }
    }
  }

  /** The candidates are exactly the deliveries that meet `IsCandidate`, in list order. */
  lemma {:induction false} CandidatesAreFiltered(deliveries: seq<Delivery>, residents: seq<Resident>, excluded: set<nat>)
    ensures DeliveriesOf(Candidates(deliveries, residents, excluded))
            == Filter(deliveries, (d: Delivery) => IsCandidate(residents, excluded, d))
  {
    if deliveries != [] {
      var p := (d: Delivery) => IsCandidate(residents, excluded, d);
      CandidatesAreFiltered(deliveries[1..], residents, excluded);
      var rest := Candidates(deliveries[1..], residents, excluded);
      assert Filter(deliveries, p) == (if p(deliveries[0]) then [deliveries[0]] else []) + Filter(deliveries[1..], p);
      if p(deliveries[0]) {
        var c := Candidate(deliveries[0], ResidentOf(residents, deliveries[0]).value);
        assert Candidates(deliveries, residents, excluded) == [c] + rest;
        DeliveriesOfCons(c, rest);
      } else {
        assert Candidates(deliveries, residents, excluded) == rest;
      }
    }
  }

  /** A candidate is a delivery of the list that meets `IsCandidate`, and every such delivery is a candidate. */
  lemma CandidateMembership(deliveries: seq<Delivery>, residents: seq<Resident>, excluded: set<nat>, d: Delivery)
    ensures d in DeliveriesOf(Candidates(deliveries, residents, excluded)) <==> d in deliveries && IsCandidate(residents, excluded, d)
  {
    CandidatesAreFiltered(deliveries, residents, excluded);
    if d in deliveries {
      var k :| 0 <= k < |deliveries| && deliveries[k] == d;
    }
  }

  /** A hidden delivery is never offered again, whatever the lists hold. */
  lemma ExcludedNeverOffered(deliveries: seq<Delivery>, residents: seq<Resident>, excluded: set<nat>, i: nat)
    requires i < |Candidates(deliveries, residents, excluded)|
    ensures Candidates(deliveries, residents, excluded)[i].delivery.id !in excluded
    ensures Candidates(deliveries, residents, excluded)[i].delivery.status == Pending
  {
    var r := Candidates(deliveries, residents, excluded);
    CandidateMembership(deliveries, residents, excluded, r[i].delivery);
    assert DeliveriesOf(r)[i] == r[i].delivery;
  }

  // ------------------------------------------------------------ the two views

  predicate WasReminded(sent: set<nat>, c: Candidate)
  {
    c.delivery.id in sent
  }

  /** `pendingDeliveries`: the candidates not reminded yet. */
  function NotRemindedView(cs: seq<Candidate>, sent: set<nat>): seq<Candidate>
  {
    Filter(cs, (c: Candidate) => !WasReminded(sent, c))
  }

  /** `sentDeliveries`: the candidates already reminded. */
  function RemindedView(cs: seq<Candidate>, sent: set<nat>): seq<Candidate>
  {
    Filter(cs, (c: Candidate) => WasReminded(sent, c))
  }

  /** The two views split the candidates: each candidate is in exactly one, and their sizes add up. */
  lemma ViewsPartition(cs: seq<Candidate>, sent: set<nat>, c: Candidate)
    ensures |NotRemindedView(cs, sent)| + |RemindedView(cs, sent)| == |cs|
    ensures c in NotRemindedView(cs, sent) <==> c in cs && c.delivery.id !in sent
    ensures c in RemindedView(cs, sent) <==> c in cs && c.delivery.id in sent
  {
    FilterComplement(cs, (c: Candidate) => !WasReminded(sent, c), (c: Candidate) => WasReminded(sent, c));
    if c in cs {
      var k :| 0 <= k < |cs| && cs[k] == c;
    }
  }

  // ------------------------------------------------------------ the filters

  /**
   * The text filter: a blank query (after trimming) keeps everything;
   * otherwise the lower-cased query, untrimmed, must occur in the lower-cased
   * name, apartment, block or code.
   */
  predicate SearchMatch(query: string, c: Candidate)
  {
    Trim(query) == ""
    || Includes(Lower(c.resident.name), Lower(query))
    || Includes(Lower(c.resident.apt), Lower(query))
    || Includes(Lower(c.resident.block), Lower(query))
    || Includes(Lower(c.delivery.code), Lower(query))
  }

  /** The age filter on whole days since the day of receipt; an unknown choice keeps everything. */
  predicate DayMatch(dayFilter: string, days: nat)
  {
    if dayFilter == "today" then days == 0
    else if dayFilter == "yesterday" then days == 1
    else if dayFilter == "3days" then days >= 3
    else if dayFilter == "7days" then days >= 7
    else true
  }

  predicate Kept(query: string, dayFilter: string, daysSince: string -> nat, c: Candidate)
  {
    SearchMatch(query, c) && DayMatch(dayFilter, daysSince(c.delivery.receivedDate))
  }

  /**
   * `applyFilters`; `daysSince` gives, for a received date, the whole days
   * between that day and today.
   */
  function ApplyFilters(cs: seq<Candidate>, query: string, dayFilter: string, daysSince: string -> nat): (r: seq<Candidate>)
    ensures forall i :: 0 <= i < |r| ==> r[i] in cs && Kept(query, dayFilter, daysSince, r[i])
    ensures forall k :: 0 <= k < |cs| && Kept(query, dayFilter, daysSince, cs[k]) ==> cs[k] in r
  {
    Filter(cs, (c: Candidate) => Kept(query, dayFilter, daysSince, c))
  }

  /** The filters keep the list's order. */
  lemma ApplyFiltersKeepsOrder(cs: seq<Candidate>, query: string, dayFilter: string, daysSince: string -> nat)
    ensures IsSubsequence(ApplyFilters(cs, query, dayFilter, daysSince), cs)
  {
    FilterIsSubsequence(cs, (c: Candidate) => Kept(query, dayFilter, daysSince, c));
  }

  /** A blank query with the "all" choice shows the whole list. */
  lemma NoFilterShowsAll(cs: seq<Candidate>, query: string, daysSince: string -> nat)
    requires Trim(query) == ""
    ensures ApplyFilters(cs, query, "all", daysSince) == cs
  {
    FilterAll(cs, (c: Candidate) => Kept(query, "all", daysSince, c));
  }

  /** Whatever the "7 days or more" choice shows, the "3 days or more" choice shows too. */
  lemma WeekOldIsThreeDaysOld(cs: seq<Candidate>, query: string, daysSince: string -> nat, c: Candidate)
    requires c in ApplyFilters(cs, query, "7days", daysSince)
    ensures c in ApplyFilters(cs, query, "3days", daysSince)
  {
    var k :| 0 <= k < |cs| && cs[k] == c;
  }

  // ------------------------------------------------------------ the message

  /** The building and greeting the reminder opens with. */
  function ReminderHeader(r: Resident): string
  {
    "🏢 " + r.condo + "\n\nOlá *" + r.name + "*, Passando para te lembrar que seu pedido ja chegou.\n\n"
  }

  /** The code, in bold, as the reminder repeats it. */
  function CodeMark(code: string): string
  {
    "*" + code + "*"
  }

  /** `generateReminderMessage`; `date` and `time` are the formatted date and time of receipt. */
  function GenerateReminderMessage(c: Candidate, date: string, time: string): (m: string)
    ensures StartsWith(m, ReminderHeader(c.resident))
    ensures Includes(m, CodeMark(c.delivery.code))
  {
    Framed(ReminderHeader(c.resident), ReminderWhen(date, time), CodeMark(c.delivery.code), ReminderFooter());
    ReminderHeader(c.resident) + ReminderWhen(date, time) + CodeMark(c.delivery.code) + ReminderFooter()
  }

  /** The lines between the header and the code: the date and time of receipt. */
  function ReminderWhen(date: string, time: string): string
  {
    "*Está aqui na portaria Des do dia !*\n📅 " + date + "\n⏰ Hora: " + time
    + "\n\nAguardamos sua presença, E não se esqueça do código para retirada do produto aqui está novamente: "
  }

  function ReminderFooter(): string
  {
    "\n\nEste é um atendimento automático, Entregas ZAP, não responder."
  }

  datatype ReminderPayload = ReminderPayload(condominio: string, morador: string, mensagem: string, telefone: string)

  /** The body of one reminder POST. */
  function ReminderNotice(c: Candidate, date: string, time: string): (p: ReminderPayload)
    ensures p.condominio == c.resident.condo && p.morador == c.resident.name
    ensures p.telefone == FormatPhoneNumber(c.resident.phone)
    ensures Includes(p.mensagem, CodeMark(c.delivery.code))
  {
    var m := GenerateReminderMessage(c, date, time);
    assert Includes(m, CodeMark(c.delivery.code));
    ReminderPayload(c.resident.condo, c.resident.name, m, FormatPhoneNumber(c.resident.phone))
  }

  /** One request of a batch: where it went and what it carried. */
  datatype Post = Post(url: string, body: ReminderPayload)

  // ------------------------------------------------------------ the batch send

  /**
   * The reminders of a batch: each id in the set's iteration order `order`
   * looked up among the candidates, ids that find none dropped.
   */
  function ResolveReminders(order: seq<nat>, cs: seq<Candidate>): (r: seq<Candidate>)
    ensures |r| <= |order|
    ensures forall i :: 0 <= i < |r| ==> r[i] in cs && r[i].delivery.id in order
  {
    if order == [] then []
    else
      var rest := ResolveReminders(order[1..], cs);
      match Find(cs, (c: Candidate) => c.delivery.id == order[0])
      case Some(c) => [c] + rest
      case None => rest
  }

  /** Some candidate has this id. */
  predicate Resolves(cs: seq<Candidate>, id: nat)
  {
    exists k :: 0 <= k < |cs| && cs[k].delivery.id == id
  }

  function IdsOf(cs: seq<Candidate>): set<nat>
  {
    set k | 0 <= k < |cs| :: cs[k].delivery.id
  }

  /** The batch holds exactly the ids of `order` that some candidate has. */
  lemma {:induction false} ResolvedIds(order: seq<nat>, cs: seq<Candidate>)
    ensures IdsOf(ResolveReminders(order, cs)) == set x | x in order && Resolves(cs, x)
  {
    if order != [] {
      ResolvedIds(order[1..], cs);
      var r := ResolveReminders(order, cs);
      var rest := ResolveReminders(order[1..], cs);
      var found := Find(cs, (c: Candidate) => c.delivery.id == order[0]);
      forall x ensures x in IdsOf(r) <==> x in order && Resolves(cs, x) {
        if found.Some? {
          assert r == [found.value] + rest;
          if x in IdsOf(r) {
            var k :| 0 <= k < |r| && r[k].delivery.id == x;
            if k > 0 {
              assert rest[k - 1] == r[k];
              assert x in IdsOf(rest);
            }
          }
          if x in order && Resolves(cs, x) {
            if x == order[0] {
              assert r[0].delivery.id == x;
            } else {
              assert x in order[1..];
              assert x in IdsOf(rest);
              var k :| 0 <= k < |rest| && rest[k].delivery.id == x;
              assert r[k + 1] == rest[k];
            }
          }
        } else {
          assert r == rest;
          if x in order && x != order[0] {
            assert x in order[1..];
          }
        }
      }
    }
  }

  /** No two reminders of a batch of distinct ids are for the same delivery id. */
  predicate DistinctIds(cs: seq<Candidate>)
  {
    forall i, j :: 0 <= i < j < |cs| ==> cs[i].delivery.id != cs[j].delivery.id
  }

  lemma {:induction false} ResolvedDistinct(order: seq<nat>, cs: seq<Candidate>)
    requires Distinct(order)
    ensures DistinctIds(ResolveReminders(order, cs))
  {
    if order != [] {
      assert Distinct(order[1..]);
      ResolvedDistinct(order[1..], cs);
      var r := ResolveReminders(order, cs);
      var rest := ResolveReminders(order[1..], cs);
      var found := Find(cs, (c: Candidate) => c.delivery.id == order[0]);
      if found.Some? {
        assert r == [found.value] + rest;
        forall j | 0 < j < |r| ensures r[0].delivery.id != r[j].delivery.id {
          assert r[j] == rest[j - 1];
          assert rest[j - 1].delivery.id in order[1..];
        }
      } else {
        assert r == rest;
      }
    }
  }

  /** The ids whose reminder the webhook accepted. */
  function Succeeded(batch: seq<Candidate>, outcomes: seq<WebhookOutcome>): set<nat>
    requires |outcomes| >= |batch|
  {
    set k | 0 <= k < |batch| && Delivered(outcomes[k]) :: batch[k].delivery.id
  }

  /** The ids whose reminder was refused or whose request threw. */
  function Failed(batch: seq<Candidate>, outcomes: seq<WebhookOutcome>): set<nat>
    requires |outcomes| >= |batch|
  {
    set k | 0 <= k < |batch| && !Delivered(outcomes[k]) :: batch[k].delivery.id
  }

  /** With distinct ids, success and failure never share an id, and together they are the batch's ids. */
  lemma SplitByOutcome(batch: seq<Candidate>, outcomes: seq<WebhookOutcome>)
    requires |outcomes| >= |batch| && DistinctIds(batch)
    ensures Succeeded(batch, outcomes) * Failed(batch, outcomes) == {}
    ensures Succeeded(batch, outcomes) + Failed(batch, outcomes) == IdsOf(batch)
  {
    forall i, j | 0 <= i < |batch| && 0 <= j < |batch| && Delivered(outcomes[i]) && !Delivered(outcomes[j])
      ensures batch[i].delivery.id != batch[j].delivery.id
    {
      assert i != j;
    }
  }

  /**
   * The body posted for a reminder: `ReminderNotice` dated with the
   * `pt-BR` date and time of the delivery's receipt, which `localeDate` and
   * `localeTime` read off its ISO timestamp.
   */
  function ReminderFor(localeDate: string -> string, localeTime: string -> string): Candidate -> ReminderPayload
  {
    (c: Candidate) => ReminderNotice(c, localeDate(c.delivery.receivedDate), localeTime(c.delivery.receivedDate))
  }

  /**
   * `sendReminders`. `order` is the iteration order of the id set and
   * `outcomes[i]` how the `i`-th POST ended. Every resolved reminder is
   * posted once, in order, to its building's webhook with its reminder
   * notice; the accepted ids and the others come back as two disjoint sets
   * that together are the requested ids a candidate has.
   */
  method SendReminders(ids: set<nat>, order: seq<nat>, cs: seq<Candidate>, condos: seq<Condo>,
                       localeDate: string -> string, localeTime: string -> string, outcomes: seq<WebhookOutcome>)
    returns (successful: set<nat>, failed: set<nat>, posts: seq<Post>)
    requires Distinct(order) && forall x :: x in order <==> x in ids
    requires |outcomes| >= |order|
    ensures ids == {} ==> successful == {} && failed == {} && posts == []
    ensures successful == Succeeded(ResolveReminders(order, cs), outcomes)
    ensures failed == Failed(ResolveReminders(order, cs), outcomes)
    ensures successful * failed == {}
    ensures successful + failed == set x | x in ids && Resolves(cs, x)
    ensures posts == Map(ResolveReminders(order, cs), PostFor(condos, ReminderFor(localeDate, localeTime)))
    ensures |posts| == |ResolveReminders(order, cs)|
    ensures forall k :: 0 <= k < |posts| ==>
              var c := ResolveReminders(order, cs)[k];
              && posts[k].url == WebhookUrlFor(condos, c.resident.condo)
              && posts[k].body == ReminderNotice(c, localeDate(c.delivery.receivedDate), localeTime(c.delivery.receivedDate))
  {
    if ids == {} {
      NoMemberEmpty(order);
      return {}, {}, [];
    }
    successful, failed, posts := PostBatch(ResolveReminders(order, cs), PostFor(condos, ReminderFor(localeDate, localeTime)), outcomes);
    BatchSplit(ids, order, cs, outcomes);
  }

  /** The request for a reminder: its building's webhook, its body. */
  function PostFor(condos: seq<Condo>, payloadOf: Candidate -> ReminderPayload): Candidate -> Post
  {
    (c: Candidate) => Post(WebhookUrlFor(condos, c.resident.condo), payloadOf(c))
  }

  /**
   * The loop of `sendReminders`: one request per reminder of `batch`, in
   * order, each the one `postFor` builds for it (`SendReminders` passes the
   * building's webhook and the reminder notice).
   */
  method PostBatch(batch: seq<Candidate>, postFor: Candidate -> Post, outcomes: seq<WebhookOutcome>)
    returns (successful: set<nat>, failed: set<nat>, posts: seq<Post>)
    requires |outcomes| >= |batch|
    ensures successful == Succeeded(batch, outcomes)
    ensures failed == Failed(batch, outcomes)
    ensures posts == Map(batch, postFor)
  {
    successful, failed, posts := {}, {}, [];
    var i := 0;
    while i < |batch|
      invariant 0 <= i <= |batch|
      invariant successful == Succeeded(batch[..i], outcomes)
      invariant failed == Failed(batch[..i], outcomes)
      invariant posts == Map(batch[..i], postFor)
    {
      var c := batch[i];
      assert batch[..i + 1] == batch[..i] + [c];
      MapSnoc(batch[..i], c, postFor);
      posts := posts + [postFor(c)];
      if Delivered(outcomes[i]) {
        successful := successful + {c.delivery.id};
      } else {
        failed := failed + {c.delivery.id};
      }
      SucceededStep(batch, outcomes, i);
      i := i + 1;
    }
    assert batch[..i] == batch;
  }

  /** The outcome sets of a batch of distinct requested ids split exactly those a candidate has. */
  lemma BatchSplit(ids: set<nat>, order: seq<nat>, cs: seq<Candidate>, outcomes: seq<WebhookOutcome>)
    requires Distinct(order) && forall x :: x in order <==> x in ids
    requires |outcomes| >= |order|
    ensures Succeeded(ResolveReminders(order, cs), outcomes) * Failed(ResolveReminders(order, cs), outcomes) == {}
    ensures Succeeded(ResolveReminders(order, cs), outcomes) + Failed(ResolveReminders(order, cs), outcomes)
            == set x | x in ids && Resolves(cs, x)
  {
    ResolvedIds(order, cs);
    ResolvedDistinct(order, cs);
    SplitByOutcome(ResolveReminders(order, cs), outcomes);
  }

  lemma SucceededStep(batch: seq<Candidate>, outcomes: seq<WebhookOutcome>, i: nat)
    requires i < |batch| <= |outcomes|
    ensures Delivered(outcomes[i]) ==>
              Succeeded(batch[..i + 1], outcomes) == Succeeded(batch[..i], outcomes) + {batch[i].delivery.id}
              && Failed(batch[..i + 1], outcomes) == Failed(batch[..i], outcomes)
    ensures !Delivered(outcomes[i]) ==>
              Succeeded(batch[..i + 1], outcomes) == Succeeded(batch[..i], outcomes)
              && Failed(batch[..i + 1], outcomes) == Failed(batch[..i], outcomes) + {batch[i].delivery.id}
  {
    var p := batch[..i + 1];
    assert p[i] == batch[i];
    assert forall k :: 0 <= k < i ==> p[k] == batch[..i][k];
  }

  // ------------------------------------------------------------ the header checkboxes

  /** The ids of a shown list, in order. */
  function ShownIds(shown: seq<Candidate>): (ids: seq<nat>)
    ensures |ids| == |shown| && forall k :: 0 <= k < |shown| ==> ids[k] == shown[k].delivery.id
  {
    Map(shown, (c: Candidate) => c.delivery.id)
  }

  /**
   * The header checkbox as the screen computes it: ticked when the list is
   * not empty and the selection has as many ids as the list has rows.
   */
  predicate HeaderTickedAsWritten(shown: seq<Candidate>, sel: set<nat>)
  {
    |shown| > 0 && |sel| == |shown|
  }

  /** The header checkbox as evidently intended: ticked when every shown row is ticked. */
  predicate HeaderTicked(shown: seq<Candidate>, sel: set<nat>)
  {
    IsAllSelected(ShownIds(shown), sel)
  }

  /**
   * A selection left over from another filter can have the right size
   * without covering the rows: two rows 1 and 2, ticks on 1 and 3.
   */
  lemma HeaderTickedWithUntickedRow(c1: Candidate, c2: Candidate)
    requires c1.delivery.id == 1 && c2.delivery.id == 2
    ensures HeaderTickedAsWritten([c1, c2], {1, 3})
    ensures !HeaderTicked([c1, c2], {1, 3})
    ensures c2.delivery.id !in {1, 3}
  {
    assert |{1, 3}| == 2 by {
      assert {1, 3} == {1} + {3};
    }
    assert ShownIds([c1, c2])[1] == 2;
  }

  lemma {:induction false} DistinctIdSetSize(ids: seq<nat>)
    requires Distinct(ids)
    ensures |IdSet(ids)| == |ids|
  {
    if ids != [] {
      var init := ids[..|ids| - 1];
      assert Distinct(init);
      DistinctIdSetSize(init);
      assert IdSet(ids) == IdSet(init) + {ids[|ids| - 1]};
      assert ids[|ids| - 1] !in IdSet(init);
    }
  }

  /**
   * When every ticked id is a shown row and the rows have distinct ids, the
   * size test and the intended test agree.
   */
  lemma HeaderTestsAgree(shown: seq<Candidate>, sel: set<nat>)
    requires Distinct(ShownIds(shown))
    requires sel <= IdSet(ShownIds(shown))
    ensures HeaderTickedAsWritten(shown, sel) <==> HeaderTicked(shown, sel)
  {
    DistinctIdSetSize(ShownIds(shown));
    if HeaderTickedAsWritten(shown, sel) {
      FullSizeCovers(IdSet(ShownIds(shown)), sel);
    }
    if HeaderTicked(shown, sel) {
      assert IdSet(ShownIds(shown)) <= sel;
      assert sel == IdSet(ShownIds(shown));
    }
  }

  /** A subset as large as its finite superset is the whole of it. */
  lemma FullSizeCovers(all: set<nat>, sel: set<nat>)
    requires sel <= all && |sel| == |all|
    ensures all == sel
  {
    var rest := all - sel;
    assert all == sel + rest && sel * rest == {};
    assert |rest| == 0;
  }

  /** The intended header: ticked after "select all" exactly when rows are shown, and cleared by unticking any row. */
  lemma HeaderTickedBehaves(shown: seq<Candidate>, sel: set<nat>, k: nat)
    requires k < |shown|
    ensures HeaderTicked(shown, SelectAll(ShownIds(shown), true))
    ensures !HeaderTicked(shown, SelectAll(ShownIds(shown), false))
    ensures !HeaderTicked(shown, Toggle(sel, shown[k].delivery.id, false))
  {
    SelectAllThenAllSelected(ShownIds(shown));
    ToggleOffClearsAll(ShownIds(shown), sel, k);
  }

  // ------------------------------------------------------------ the screen

  /** The reminder screen's session state over the lists it is given. */
  class ReminderScreen {
    const deliveries: seq<Delivery>
    const residents: seq<Resident>
    const condos: seq<Condo>
    var searchQuery: string
    var dayFilter: string
    var selectedIds: set<nat>
    var sentIds: set<nat>
    var selectedSentIds: set<nat>
    var excludedIds: set<nat>

    constructor (deliveries: seq<Delivery>, residents: seq<Resident>, condos: seq<Condo>)
      ensures this.deliveries == deliveries && this.residents == residents && this.condos == condos
      ensures searchQuery == "" && dayFilter == "all"
      ensures selectedIds == {} && sentIds == {} && selectedSentIds == {} && excludedIds == {}
    {
      this.deliveries := deliveries;
      this.residents := residents;
      this.condos := condos;
      searchQuery := "";
      dayFilter := "all";
      selectedIds := {};
      sentIds := {};
      selectedSentIds := {};
      excludedIds := {};
    }

    function Offered(): seq<Candidate>
      reads this
    {
      Candidates(deliveries, residents, excludedIds)
    }

    /** The "to send" list as shown. */
    function FilteredNotReminded(daysSince: string -> nat): seq<Candidate>
      reads this
    {
      ApplyFilters(NotRemindedView(Offered(), sentIds), searchQuery, dayFilter, daysSince)
    }

    /** The "sent" list as shown. */
    function FilteredReminded(daysSince: string -> nat): seq<Candidate>
      reads this
    {
      ApplyFilters(RemindedView(Offered(), sentIds), searchQuery, dayFilter, daysSince)
    }

    method SetSearchQuery(q: string)
      modifies this
      ensures searchQuery == q && dayFilter == old(dayFilter)
      ensures selectedIds == old(selectedIds) && sentIds == old(sentIds)
      ensures selectedSentIds == old(selectedSentIds) && excludedIds == old(excludedIds)
    {
      searchQuery := q;
    }

    method SetDayFilter(f: string)
      modifies this
      ensures dayFilter == f && searchQuery == old(searchQuery)
      ensures selectedIds == old(selectedIds) && sentIds == old(sentIds)
      ensures selectedSentIds == old(selectedSentIds) && excludedIds == old(excludedIds)
    {
      dayFilter := f;
    }

    /** `handleSelect`. */
    method Select(id: nat, checked: bool)
      modifies this
      ensures selectedIds == Toggle(old(selectedIds), id, checked)
      ensures searchQuery == old(searchQuery) && dayFilter == old(dayFilter) && sentIds == old(sentIds)
      ensures selectedSentIds == old(selectedSentIds) && excludedIds == old(excludedIds)
    {
      selectedIds := Toggle(selectedIds, id, checked);
    }

    /** `handleSelectAll`: every id of the shown "to send" list, or none. */
    method SelectAllNotReminded(checked: bool, daysSince: string -> nat)
      modifies this
      ensures selectedIds == SelectAll(ShownIds(old(FilteredNotReminded(daysSince))), checked)
      ensures searchQuery == old(searchQuery) && dayFilter == old(dayFilter) && sentIds == old(sentIds)
      ensures selectedSentIds == old(selectedSentIds) && excludedIds == old(excludedIds)
    {
      selectedIds := SelectAll(ShownIds(FilteredNotReminded(daysSince)), checked);
    }

    /** The "to send" header checkbox (the intended test). */
    predicate NotRemindedHeader(daysSince: string -> nat)
      reads this
    {
      HeaderTicked(FilteredNotReminded(daysSince), selectedIds)
    }

    /** The "sent" header checkbox (the intended test). */
    predicate RemindedHeader(daysSince: string -> nat)
      reads this
    {
      HeaderTicked(FilteredReminded(daysSince), selectedSentIds)
    }

    /** `handleSelectSent`. */
    method SelectSent(id: nat, checked: bool)
      modifies this
      ensures selectedSentIds == Toggle(old(selectedSentIds), id, checked)
      ensures searchQuery == old(searchQuery) && dayFilter == old(dayFilter) && sentIds == old(sentIds)
      ensures selectedIds == old(selectedIds) && excludedIds == old(excludedIds)
    {
      selectedSentIds := Toggle(selectedSentIds, id, checked);
    }

    /** `handleSelectAllSent`: every id of the shown "sent" list, or none. */
    method SelectAllReminded(checked: bool, daysSince: string -> nat)
      modifies this
      ensures selectedSentIds == SelectAll(ShownIds(old(FilteredReminded(daysSince))), checked)
      ensures searchQuery == old(searchQuery) && dayFilter == old(dayFilter) && sentIds == old(sentIds)
      ensures selectedIds == old(selectedIds) && excludedIds == old(excludedIds)
    {
      selectedSentIds := SelectAll(ShownIds(FilteredReminded(daysSince)), checked);
    }

    /**
     * `handleSendReminders` over the ticked "to send" ids, iterated in
     * `order`: one reminder notice is posted per ticked offered delivery, the
     * accepted ids join the reminded set, which never loses one, and any
     * success clears the ticks.
     */
    method HandleSend(order: seq<nat>, localeDate: string -> string, localeTime: string -> string,
                      outcomes: seq<WebhookOutcome>)
      returns (successful: set<nat>, failed: set<nat>, posts: seq<Post>)
      requires Distinct(order) && forall x :: x in order <==> x in selectedIds
      requires |outcomes| >= |order|
      modifies this
      ensures posts == Map(ResolveReminders(order, old(Offered())), PostFor(condos, ReminderFor(localeDate, localeTime)))
      ensures successful * failed == {}
      ensures successful + failed == set x | x in old(selectedIds) && Resolves(old(Offered()), x)
      ensures sentIds == old(sentIds) + successful && old(sentIds) <= sentIds
      ensures successful != {} ==> selectedIds == {}
      ensures successful == {} ==> unchanged(this`selectedIds)
      ensures unchanged(this`searchQuery, this`dayFilter, this`selectedSentIds, this`excludedIds)
    {
      successful, failed, posts := SendReminders(selectedIds, order, Offered(), condos, localeDate, localeTime, outcomes);
      if successful != {} {
        RecordSent(successful);
      }
    }

    /** The accepted ids join the reminded set and the ticks clear. */
    method RecordSent(successful: set<nat>)
      modifies this
      ensures sentIds == old(sentIds) + successful && selectedIds == {}
      ensures unchanged(this`searchQuery, this`dayFilter, this`selectedSentIds, this`excludedIds)
    {
      sentIds := sentIds + successful;
      selectedIds := {};
    }

    /**
     * `handleResendReminders` over the ticked "sent" ids: the reminded set
     * stays as it was and the ticks are cleared whatever the outcome.
     */
    method HandleResend(order: seq<nat>, localeDate: string -> string, localeTime: string -> string,
                        outcomes: seq<WebhookOutcome>)
      returns (successful: set<nat>, failed: set<nat>, posts: seq<Post>)
      requires Distinct(order) && forall x :: x in order <==> x in selectedSentIds
      requires |outcomes| >= |order|
      modifies this
      ensures posts == Map(ResolveReminders(order, old(Offered())), PostFor(condos, ReminderFor(localeDate, localeTime)))
      ensures successful * failed == {}
      ensures successful + failed == set x | x in old(selectedSentIds) && Resolves(old(Offered()), x)
      ensures sentIds == old(sentIds) && selectedSentIds == {}
      ensures searchQuery == old(searchQuery) && dayFilter == old(dayFilter)
      ensures selectedIds == old(selectedIds) && excludedIds == old(excludedIds)
    {
      successful, failed, posts := SendReminders(selectedSentIds, order, Offered(), condos, localeDate, localeTime, outcomes);
      ClearSentTicks();
    }

    /** The ticks of the "sent" list clear; nothing else changes. */
    method ClearSentTicks()
      modifies this
      ensures selectedSentIds == {}
      ensures unchanged(this`searchQuery, this`dayFilter, this`sentIds, this`selectedIds, this`excludedIds)
    {
      selectedSentIds := {};
    }

    /**
     * `handleDeleteSentReminders`: nothing without a tick; otherwise the
     * ticked ids are hidden for good and the ticks cleared.
     */
    method HandleDeleteSent()
      modifies this
      ensures old(selectedSentIds) == {} ==> unchanged(this)
      ensures old(selectedSentIds) != {} ==>
                excludedIds == old(excludedIds) + old(selectedSentIds) && selectedSentIds == {}
                && sentIds == old(sentIds) && selectedIds == old(selectedIds)
                && searchQuery == old(searchQuery) && dayFilter == old(dayFilter)
      ensures forall i :: 0 <= i < |Offered()| ==> Offered()[i].delivery.id !in old(selectedSentIds)
    {
      if selectedSentIds == {} {
        return;
      }
      excludedIds := excludedIds + selectedSentIds;
      selectedSentIds := {};
      forall i | 0 <= i < |Offered()| ensures Offered()[i].delivery.id !in old(selectedSentIds) {
        ExcludedNeverOffered(deliveries, residents, excludedIds, i);
      }
    }
  }
}
