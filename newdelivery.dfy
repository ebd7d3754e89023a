/**
 * The registration screen: the doorman picks a building, an optional block
 * and an apartment, ticks the residents found there, picks a service and
 * sends each ticked resident a WhatsApp notice through the webhook. For the
 * package service a five-digit retrieval code is drawn once per form and every
 * notice that the webhook accepts is filed as a pending delivery.
 */
module NewDelivery {
  import opened Wrappers
  import opened Text
  import opened Seqs
  import opened Selection
  import opened Entities
  import opened Messaging

  /** The service that carries a retrieval code and is filed as a delivery. */
  const PackageService: string := "Encomendas/Produtos"

  /** The service buttons, in screen order. */
  const Services: seq<string> := [PackageService, "Delivery", "Gás", "Visita", "Uber", "99", "Taxi"]

  // ------------------------------------------------------- resident matching

  /** `r.condo?.trim().toLowerCase() === condo.trim().toLowerCase()`. */
  predicate InCondo(r: Resident, condo: string)
  {
    Lower(Trim(r.condo)) == Lower(Trim(condo))
  }

  /** `!block || (r.block || '').trim().toLowerCase() === block.trim().toLowerCase()`. */
  predicate InBlock(r: Resident, block: string)
  {
    block == "" || Lower(Trim(r.block)) == Lower(Trim(block))
  }

  /** `(r.apt || '').trim().toLowerCase() === apt.trim().toLowerCase()`. */
  predicate InApt(r: Resident, apt: string)
  {
    Lower(Trim(r.apt)) == Lower(Trim(apt))
  }

  /** The building choices: the distinct building names of the residents, sorted. */
  function CondoOptions(residents: seq<Resident>): (names: seq<string>)
    ensures SortedStrings(names) && Distinct(names)
    ensures forall x :: x in names <==> exists k :: 0 <= k < |residents| && residents[k].condo == x
  {
    var all := Map(residents, (r: Resident) => r.condo);
    var names := SortedDistinct(all);
    assert forall x :: x in all <==> exists k :: 0 <= k < |residents| && residents[k].condo == x by {
      forall x ensures x in all <==> exists k :: 0 <= k < |residents| && residents[k].condo == x {
        if x in all {
          var k :| 0 <= k < |all| && all[k] == x;
          assert residents[k].condo == x;
        }
      }
    }
    names
  }

  /** Some resident of the building has this (trimmed) block. */
  predicate HasBlock(residents: seq<Resident>, condo: string, x: string)
  {
    exists k :: 0 <= k < |residents| && InCondo(residents[k], condo) && Trim(residents[k].block) == x
  }

  /** Some resident of the building and block has this (trimmed) apartment. */
  predicate HasApt(residents: seq<Resident>, condo: string, block: string, x: string)
  {
    exists k :: 0 <= k < |residents| && InCondo(residents[k], condo) && InBlock(residents[k], block) && Trim(residents[k].apt) == x
  }

  /** The block choices for a building: the distinct trimmed blocks of its residents, sorted. */
  function BlockOptions(residents: seq<Resident>, condo: string): (blocks: seq<string>)
    ensures SortedStrings(blocks) && Distinct(blocks)
    ensures forall x :: x in blocks <==> HasBlock(residents, condo, x)
  {
    var p := (r: Resident) => InCondo(r, condo);
    var f := (r: Resident) => Trim(r.block);
    FilterMapMembers(residents, p, f);
    SortedDistinct(Map(Filter(residents, p), f))
  }

  /** The apartment choices for a building and an optional block, sorted and distinct. */
  function AptOptions(residents: seq<Resident>, condo: string, block: string): (apts: seq<string>)
    ensures SortedStrings(apts) && Distinct(apts)
    ensures forall x :: x in apts <==> HasApt(residents, condo, block, x)
  {
    var p := (r: Resident) => InCondo(r, condo) && InBlock(r, block);
    var f := (r: Resident) => Trim(r.apt);
    FilterMapMembers(residents, p, f);
    SortedDistinct(Map(Filter(residents, p), f))
  }

  /**
   * The residents offered for ticking: none until a building and an apartment
   * are chosen, then exactly those in that building, block (when one is
   * chosen) and apartment, in list order.
   */
  function MatchResidents(residents: seq<Resident>, condo: string, block: string, apt: string): (matched: seq<Resident>)
    ensures condo == "" || apt == "" ==> matched == []
    ensures forall i :: 0 <= i < |matched| ==> matched[i] in residents
    ensures forall i :: 0 <= i < |matched| ==> InCondo(matched[i], condo) && InBlock(matched[i], block) && InApt(matched[i], apt)
    ensures condo != "" && apt != "" ==>
              forall k :: 0 <= k < |residents| && InCondo(residents[k], condo) && InBlock(residents[k], block) && InApt(residents[k], apt)
                ==> residents[k] in matched
    ensures IsSubsequence(matched, residents)
  {
    if condo != "" && apt != "" then
      var p := (r: Resident) => InCondo(r, condo) && InBlock(r, block) && InApt(r, apt);
      FilterIsSubsequence(residents, p);
      Filter(residents, p)
    else []
  }

  // ---------------------------------------------------------- retrieval code

  /** A retrieval code as drawn by the form: five decimal digits, the first not zero. */
  predicate IsRetrievalCode(code: string)
  {
    |code| == 5 && AllDigits(code) && code[0] != '0'
  }

  /** `Math.floor(10000 + Math.random() * 90000).toString()`, for the drawn `r` in [0, 1). */
  function NewCode(r: real): (code: string)
    requires 0.0 <= r < 1.0
    ensures IsRetrievalCode(code)
    ensures 10000 <= ParseDigits(code) <= 99999
  {
    var n := (10000.0 + r * 90000.0).Floor;
    assert 10000 <= n <= 99999;
    FiveDigitNumeral(n);
    NatToString(n)
  }

  /**
   * The code effect, run after the service or the code changes: the package
   * service keeps an existing code and draws one when there is none; any
   * other choice, or none, clears it.
   */
  function CodeEffect(service: Option<string>, code: string, r: real): (next: string)
    requires 0.0 <= r < 1.0
    ensures service == Some(PackageService) && code != "" ==> next == code
    ensures service == Some(PackageService) && code == "" ==> IsRetrievalCode(next)
    ensures service != Some(PackageService) ==> next == ""
  {
    if service == Some(PackageService) then
      if code == "" then NewCode(r) else code
    else ""
  }

  /**
   * Running the effect again, as React does after the code it set, changes
   * nothing: a code is drawn at most once while the package service stays
   * selected.
   */
  lemma CodeEffectSettles(service: Option<string>, code: string, r: real, r2: real)
    requires 0.0 <= r < 1.0 && 0.0 <= r2 < 1.0
    ensures CodeEffect(service, CodeEffect(service, code, r), r2) == CodeEffect(service, code, r)
  {
    if service == Some(PackageService) && code == "" {
      assert NewCode(r) != "";
    }
  }

  /** The code field is set exactly while the package service is selected, and is then a retrieval code. */
  predicate CodeInv(service: Option<string>, code: string)
  {
    (code != "" <==> service == Some(PackageService)) && (code != "" ==> IsRetrievalCode(code))
  }

  lemma CodeEffectKeepsInv(service: Option<string>, code: string, r: real)
    requires 0.0 <= r < 1.0
    requires code != "" ==> IsRetrievalCode(code)
    ensures CodeInv(service, CodeEffect(service, code, r))
  {
  }

  // ------------------------------------------------------------------ message

  /** `getServiceMessageDetail`: the headline of a notice for a service other than the package one. */
  function ServiceMessageDetail(service: string): (detail: string)
    ensures Lower(service) == "uber" || Lower(service) == "99" || Lower(service) == "taxi" ==> detail == "Seu " + service + " chegou"
    ensures Lower(service) !in {"delivery", "gás", "visita", "uber", "99", "taxi"} ==> detail == "Sua encomenda (" + service + ") chegou"
  {
    match Lower(service)
    case "delivery" => "seu Delivery chegou"
    case "gás" => "Seu gás chegou"
    case "visita" => "Sua visita chegou"
    case "uber" => "Seu " + service + " chegou"
    case "99" => "Seu " + service + " chegou"
    case "taxi" => "Seu " + service + " chegou"
    case _ => "Sua encomenda (" + service + ") chegou"
  }

  /** The headline of every service button, as the notice shows it. */
  lemma ServiceMessageTable()
    ensures ServiceMessageDetail("Delivery") == "seu Delivery chegou"
    ensures ServiceMessageDetail("Gás") == "Seu gás chegou"
    ensures ServiceMessageDetail("Visita") == "Sua visita chegou"
    ensures ServiceMessageDetail("Uber") == "Seu Uber chegou"
    ensures ServiceMessageDetail("99") == "Seu 99 chegou"
    ensures ServiceMessageDetail("Taxi") == "Seu Taxi chegou"
  {
    LowerServiceNames();
  }

  /** The service buttons' labels in lower case. */
  lemma LowerServiceNames()
    ensures Lower("Delivery") == "delivery" && Lower("Gás") == "gás" && Lower("Visita") == "visita"
    ensures Lower("Uber") == "uber" && Lower("99") == "99" && Lower("Taxi") == "taxi"
  {
  }

  /** The line of the package notice that carries the code. */
  function CodeLine(code: string): string
  {
    "🔑 Código de retirada na portaria: *" + code + "*"
  }

  /** The header of every notice: the building and the resident's name. */
  function Greeting(r: Resident): string
  {
    "🏢 *" + r.condo + "*\n\nOlá *" + r.name + "*, "
  }

  /**
   * `generateMessage`: the notice text; `date` and `time` are the formatted
   * local date and time of sending. Its `null` for a missing service never
   * reaches the send loop, which starts only once a service is chosen.
   */
  function GenerateMessage(r: Resident, service: string, code: string, date: string, time: string): (m: string)
    ensures StartsWith(m, Greeting(r))
    ensures service == PackageService ==> Includes(m, CodeLine(code))
    ensures service != PackageService ==> Includes(m, "*" + ServiceMessageDetail(service) + "*")
  {
    if service == PackageService then
      Framed(Greeting(r), PackageArrived(date, time), CodeLine(code), PackageFooter());
      Greeting(r) + PackageArrived(date, time) + CodeLine(code) + PackageFooter()
    else
      var mid := "*" + ServiceMessageDetail(service) + "*";
      Framed(Greeting(r), ServiceLead(), mid, ServiceFooter(date, time));
      Greeting(r) + ServiceLead() + mid + ServiceFooter(date, time)
  }

  /** The date and time lines of every notice. */
  function SentAt(date: string, time: string): string
  {
    "\n\n📅 Data: " + date + "\n⏰ Hora: " + time + "\n\n"
  }

  /** The package notice between the greeting and the code line. */
  function PackageArrived(date: string, time: string): string
  {
    "você tem uma nova encomenda!\n\n📦 Sua Encomenda Chegou!" + SentAt(date, time)
  }

  function PackageFooter(): string
  {
    "\n\nEsta é uma mensagem de atendimento automático, Entregas ZAP."
  }

  /** Any other service's notice between the greeting and the service phrase. */
  function ServiceLead(): string
  {
    "Passando só pra te dizer que \n\n📦 "
  }

  function ServiceFooter(date: string, time: string): string
  {
    SentAt(date, time) + "Este é um atendimento automático, Entregas ZAP."
  }

  // ------------------------------------------------------------------ payload

  datatype Payload = Payload(
    condominio: string,
    morador: string,
    mensagem: string,
    telefone: string,
    fotoUrl: Option<string>,
    observacao: Option<string>,
    codigoRetirada: Option<string>,
    servico: Option<string>)

  /** `observation && observation.trim() ? observation.trim() : undefined`. */
  function ObservationOf(observation: string): (o: Option<string>)
    ensures o.Some? <==> Trim(observation) != ""
    ensures o.Some? ==> o.value == Trim(observation)
  {
    if Trim(observation) != "" then Some(Trim(observation)) else None
  }

  /**
   * The JSON body for one resident: the notice text, the formatted phone,
   * the photo and the trimmed observation when present, and either the code
   * (the package service with a code) or the service name.
   */
  function ComposePayload(r: Resident, message: string, service: string, code: string,
                          photoUrl: Option<string>, observation: string): (p: Payload)
    ensures p.telefone == FormatPhoneNumber(r.phone)
    ensures p.observacao == ObservationOf(observation)
    ensures p.codigoRetirada.Some? <==> service == PackageService && code != ""
    ensures p.codigoRetirada.Some? ==> p.codigoRetirada.value == code
    ensures p.servico.Some? <==> p.codigoRetirada.None?
    ensures p.servico.Some? ==> p.servico.value == service
    ensures p.fotoUrl.Some? <==> photoUrl.Some? && photoUrl.value != ""
    ensures p.fotoUrl.Some? ==> p.fotoUrl == photoUrl
    ensures p.condominio == r.condo && p.morador == r.name && p.mensagem == message
  {
    var withCode := service == PackageService && code != "";
    Payload(r.condo, r.name, message, FormatPhoneNumber(r.phone), NonEmpty(photoUrl), ObservationOf(observation),
            if withCode then Some(code) else None,
            if withCode then None else Some(service))
  }

  /** The body posted for one resident, around the notice dated `date` and `time`. */
  function Notice(r: Resident, service: string, code: string, photoUrl: Option<string>,
                  observation: string, date: string, time: string): Payload
  {
    ComposePayload(r, GenerateMessage(r, service, code, date, time), service, code, photoUrl, observation)
  }

  /** The body `handleSendMessage` posts to each resident of one batch. */
  function NoticeFor(service: string, code: string, photoUrl: Option<string>, observation: string,
                     date: string, time: string): Resident -> Payload
  {
    (r: Resident) => Notice(r, service, code, photoUrl, observation, date, time)
  }

  /**
   * Under the form's code invariant the package notice always carries its
   * code, the same code its text shows, and no other notice carries one.
   */
  lemma PayloadCarriesCode(r: Resident, service: string, code: string, photoUrl: Option<string>,
                           observation: string, date: string, time: string)
    requires CodeInv(Some(service), code)
    ensures var p := Notice(r, service, code, photoUrl, observation, date, time);
            && (p.codigoRetirada.Some? <==> service == PackageService)
            && (service == PackageService ==> IsRetrievalCode(p.codigoRetirada.value)
                                              && Includes(p.mensagem, CodeLine(p.codigoRetirada.value)))
            && StartsWith(p.mensagem, Greeting(r))
  {
  }

  // --------------------------------------------------------------- send loop

  /** Every draw of `Math.random()` lies in [0, 1). */
  predicate Draws(draws: seq<real>)
  {
    forall i :: 0 <= i < |draws| ==> 0.0 <= draws[i] < 1.0
  }

  /**
   * The employee filed with a delivery:
   * `activeEmployees[Math.floor(Math.random() * activeEmployees.length)]`,
   * or the sentinel `0` when no employee is active.
   */
  function EmployeeIdFor(active: seq<Employee>, r: real): (id: nat)
    requires 0.0 <= r < 1.0
    ensures |active| == 0 ==> id == 0
    ensures |active| > 0 ==> exists k :: 0 <= k < |active| && active[k].id == id
  {
    if |active| == 0 then 0
    else
      var n := |active| as real;
      assert 0.0 <= r * n < n;
      active[(r * n).Floor].id
  }

  /** Some ticked resident with this id had its notice accepted. */
  predicate Accepted(toNotify: seq<Resident>, outcomes: seq<WebhookOutcome>, id: nat)
    requires |outcomes| >= |toNotify|
  {
    exists i :: 0 <= i < |toNotify| && Delivered(outcomes[i]) && toNotify[i].id == id
  }

  /**
   * The deliveries filed by a send: one per ticked resident, in order, whose
   * webhook answered ok, when the service is the package one and a code is
   * set; none otherwise.
   */
  function Registrations(toNotify: seq<Resident>, service: string, code: string, photoUrl: Option<string>,
                         observation: string, active: seq<Employee>,
                         outcomes: seq<WebhookOutcome>, draws: seq<real>): (regs: seq<DeliveryInput>)
    requires |outcomes| >= |toNotify| && |draws| >= |toNotify| && Draws(draws)
    ensures |regs| <= |toNotify|
    ensures service != PackageService || code == "" ==> regs == []
    decreases |toNotify|
  {
    if toNotify == [] then []
    else
      var n := |toNotify| - 1;
      var prev := Registrations(toNotify[..n], service, code, photoUrl, observation, active, outcomes, draws);
      if Delivered(outcomes[n]) && service == PackageService && code != "" then
        prev + [DeliveryInput(code, toNotify[n].id, EmployeeIdFor(active, draws[n]), NonEmpty(photoUrl), ObservationOf(observation))]
      else prev
  }

  /**
   * Every filed delivery carries the form's code, photo and trimmed
   * observation, and belongs to a ticked resident whose notice was accepted.
   */
  predicate Filed(regs: seq<DeliveryInput>, toNotify: seq<Resident>, code: string, photoUrl: Option<string>,
                  observation: string, outcomes: seq<WebhookOutcome>)
    requires |outcomes| >= |toNotify|
  {
    forall k :: 0 <= k < |regs| ==>
      && regs[k].code == code
      && regs[k].photoUrl == NonEmpty(photoUrl)
      && regs[k].observation == ObservationOf(observation)
      && Accepted(toNotify, outcomes, regs[k].residentId)
  }

  lemma {:induction false} RegistrationsFiled(toNotify: seq<Resident>, service: string, code: string, photoUrl: Option<string>,
                                             observation: string, active: seq<Employee>,
                                             outcomes: seq<WebhookOutcome>, draws: seq<real>)
    requires |outcomes| >= |toNotify| && |draws| >= |toNotify| && Draws(draws)
    ensures Filed(Registrations(toNotify, service, code, photoUrl, observation, active, outcomes, draws),
                  toNotify, code, photoUrl, observation, outcomes)
    decreases |toNotify|
  {
    if toNotify != [] {
      var n := |toNotify| - 1;
      RegistrationsFiled(toNotify[..n], service, code, photoUrl, observation, active, outcomes, draws);
      var prev := Registrations(toNotify[..n], service, code, photoUrl, observation, active, outcomes, draws);
      FiledWidens(prev, toNotify, n, code, photoUrl, observation, outcomes);
      if Delivered(outcomes[n]) && service == PackageService && code != "" {
        var d := DeliveryInput(code, toNotify[n].id, EmployeeIdFor(active, draws[n]), NonEmpty(photoUrl), ObservationOf(observation));
        assert Accepted(toNotify, outcomes, d.residentId);
        FiledSnoc(prev, d, toNotify, code, photoUrl, observation, outcomes);
      }
    }
  }

  /** What was filed for the first `n` residents is filed for all of them. */
  lemma FiledWidens(regs: seq<DeliveryInput>, toNotify: seq<Resident>, n: nat, code: string, photoUrl: Option<string>,
                    observation: string, outcomes: seq<WebhookOutcome>)
    requires n <= |toNotify| <= |outcomes|
    requires Filed(regs, toNotify[..n], code, photoUrl, observation, outcomes)
    ensures Filed(regs, toNotify, code, photoUrl, observation, outcomes)
  {
    forall k | 0 <= k < |regs| ensures Accepted(toNotify, outcomes, regs[k].residentId) {
      AcceptedWidens(toNotify, outcomes, n, regs[k].residentId);
    }
  }

  /** One more delivery with the form's values, for an accepted notice, keeps the list filed. */
  lemma FiledSnoc(regs: seq<DeliveryInput>, d: DeliveryInput, toNotify: seq<Resident>, code: string,
                  photoUrl: Option<string>, observation: string, outcomes: seq<WebhookOutcome>)
    requires |toNotify| <= |outcomes|
    requires Filed(regs, toNotify, code, photoUrl, observation, outcomes)
    requires d.code == code && d.photoUrl == NonEmpty(photoUrl) && d.observation == ObservationOf(observation)
    requires Accepted(toNotify, outcomes, d.residentId)
    ensures Filed(regs + [d], toNotify, code, photoUrl, observation, outcomes)
  {
    assert forall k :: 0 <= k < |regs| ==> (regs + [d])[k] == regs[k];
  }

  /** A notice accepted among the first `n` residents is accepted among all of them. */
  lemma AcceptedWidens(toNotify: seq<Resident>, outcomes: seq<WebhookOutcome>, n: nat, id: nat)
    requires n <= |toNotify| <= |outcomes|
    requires Accepted(toNotify[..n], outcomes, id)
    ensures Accepted(toNotify, outcomes, id)
  {
    var i :| 0 <= i < n && Delivered(outcomes[i]) && toNotify[..n][i].id == id;
    assert toNotify[..n][i] == toNotify[i];
  }

  /** For the package service with a code, exactly one delivery is filed per accepted notice. */
  lemma {:induction false} RegistrationsPerSuccess(toNotify: seq<Resident>, service: string, code: string, photoUrl: Option<string>,
                                                  observation: string, active: seq<Employee>,
                                                  outcomes: seq<WebhookOutcome>, draws: seq<real>)
    requires |outcomes| >= |toNotify| && |draws| >= |toNotify| && Draws(draws)
    requires service == PackageService && code != ""
    ensures |Registrations(toNotify, service, code, photoUrl, observation, active, outcomes, draws)|
            == |Filter(outcomes[..|toNotify|], Delivered)|
    decreases |toNotify|
  {
    if toNotify != [] {
      var n := |toNotify| - 1;
      RegistrationsPerSuccess(toNotify[..n], service, code, photoUrl, observation, active, outcomes, draws);
      assert outcomes[..|toNotify|] == outcomes[..n] + [outcomes[n]];
      FilterAppend(outcomes[..n], [outcomes[n]], Delivered);
    }
  }

  /** With no active employee every filed delivery carries the sentinel employee id `0`. */
  lemma {:induction false} RegistrationsWithoutEmployee(toNotify: seq<Resident>, service: string, code: string, photoUrl: Option<string>,
                                                       observation: string, outcomes: seq<WebhookOutcome>, draws: seq<real>)
    requires |outcomes| >= |toNotify| && |draws| >= |toNotify| && Draws(draws)
    ensures forall k :: 0 <= k < |Registrations(toNotify, service, code, photoUrl, observation, [], outcomes, draws)| ==>
              Registrations(toNotify, service, code, photoUrl, observation, [], outcomes, draws)[k].employeeId == 0
    decreases |toNotify|
  {
    if toNotify != [] {
      RegistrationsWithoutEmployee(toNotify[..|toNotify| - 1], service, code, photoUrl, observation, outcomes, draws);
    }
  }

  /** One more ticked resident adds at most its own delivery at the end. */
  lemma RegistrationsStep(toNotify: seq<Resident>, i: nat, service: string, code: string, photoUrl: Option<string>,
                          observation: string, active: seq<Employee>,
                          outcomes: seq<WebhookOutcome>, draws: seq<real>)
    requires i < |toNotify| && |outcomes| >= |toNotify| && |draws| >= |toNotify| && Draws(draws)
    ensures var prev := Registrations(toNotify[..i], service, code, photoUrl, observation, active, outcomes, draws);
            Registrations(toNotify[..i + 1], service, code, photoUrl, observation, active, outcomes, draws)
            == if Delivered(outcomes[i]) && service == PackageService && code != "" then
                 prev + [DeliveryInput(code, toNotify[i].id, EmployeeIdFor(active, draws[i]), NonEmpty(photoUrl), ObservationOf(observation))]
               else prev
  {
    assert toNotify[..i + 1][..i] == toNotify[..i];
  }

  /** The number of accepted notices among the first `n` outcomes. */
  function CountDelivered(outcomes: seq<WebhookOutcome>, n: nat): nat
    requires n <= |outcomes|
  {
    if n == 0 then 0 else CountDelivered(outcomes, n - 1) + (if Delivered(outcomes[n - 1]) then 1 else 0)
  }

  /** The count is the number of accepted outcomes in the prefix. */
  lemma {:induction false} CountDeliveredFilter(outcomes: seq<WebhookOutcome>, n: nat)
    requires n <= |outcomes|
    ensures CountDelivered(outcomes, n) == |Filter(outcomes[..n], Delivered)|
  {
    if n > 0 {
      CountDeliveredFilter(outcomes, n - 1);
      assert outcomes[..n] == outcomes[..n - 1] + [outcomes[n - 1]];
      FilterAppend(outcomes[..n - 1], [outcomes[n - 1]], Delivered);
    }
  }

  /**
   * The `for` loop of `handleSendMessage`: one POST per ticked resident, a
   * failure for one resident does not stop the others, `successCount` counts
   * the accepted notices and the accepted package notices are filed.
   * `payloadOf` builds the body for one resident around `generateMessage`.
   */
  method SendNotifications(toNotify: seq<Resident>, payloadOf: Resident -> Payload, service: string, code: string,
                           photoUrl: Option<string>, observation: string, active: seq<Employee>,
                           outcomes: seq<WebhookOutcome>, draws: seq<real>)
    returns (successCount: nat, payloads: seq<Payload>, registered: seq<DeliveryInput>)
    requires |outcomes| >= |toNotify| && |draws| >= |toNotify| && Draws(draws)
    ensures successCount == |Filter(outcomes[..|toNotify|], Delivered)|
    ensures successCount <= |toNotify|
    ensures |payloads| == |toNotify|
    ensures forall k :: 0 <= k < |toNotify| ==> payloads[k] == payloadOf(toNotify[k])
    ensures registered == Registrations(toNotify, service, code, photoUrl, observation, active, outcomes, draws)
  {
    successCount := 0;
    payloads := [];
    registered := [];
    var i := 0;
    while i < |toNotify|
      invariant 0 <= i <= |toNotify|
      invariant successCount == CountDelivered(outcomes, i)
      invariant |payloads| == i
      invariant forall k :: 0 <= k < i ==> payloads[k] == payloadOf(toNotify[k])
      invariant registered == Registrations(toNotify[..i], service, code, photoUrl, observation, active, outcomes, draws)
    {
      var resident := toNotify[i];
      payloads := payloads + [payloadOf(resident)];
      if Delivered(outcomes[i]) {
        if service == PackageService && code != "" {
          var employeeId := EmployeeIdFor(active, draws[i]);
          registered := registered + [DeliveryInput(code, resident.id, employeeId, NonEmpty(photoUrl), ObservationOf(observation))];
        }
        successCount := successCount + 1;
      }
      RegistrationsStep(toNotify, i, service, code, photoUrl, observation, active, outcomes, draws);
      i := i + 1;
    }
    assert toNotify[..i] == toNotify;
    CountDeliveredFilter(outcomes, i);
  }

  /** What a press of the send button did. */
  datatype SendReport =
    | NotStarted
    | Finished(webhookUrl: string, payloads: seq<Payload>, successCount: nat, total: nat, registered: seq<DeliveryInput>)

  // --------------------------------------------------------------- the form

  /** The matches the user ticked, in list order. */
  function Ticked(matched: seq<Resident>, sel: set<nat>): (r: seq<Resident>)
    ensures |r| <= |matched|
  {
    Filter(matched, (x: Resident) => x.id in sel)
  }

  /** The employees a draw picks from. */
  function ActiveEmployees(employees: seq<Employee>): seq<Employee>
  {
    Filter(employees, (e: Employee) => e.active)
  }

  /**
   * The registration form's state. The lists the effects derive from the
   * building, block and apartment fields are functions of those fields: the
   * values the effects settle on.
   */
  class DeliveryForm {
    const residents: seq<Resident>
    var condo: string
    var block: string
    var apt: string
    var selectedResidentIds: set<nat>
    var selectedService: Option<string>
    var retrievalCode: string
    var observation: string
    var hasPhoto: bool

    /** The block choices: empty until a building is chosen. */
    function AvailableBlocks(): seq<string>
      reads this
    {
      if condo == "" then [] else BlockOptions(residents, condo)
    }

    /** The apartment choices: empty until a building is chosen. */
    function AvailableApts(): seq<string>
      reads this
    {
      if condo == "" then [] else AptOptions(residents, condo, block)
    }

    /** The residents offered for ticking. */
    function MatchedResidents(): seq<Resident>
      reads this
    {
      MatchResidents(residents, condo, block, apt)
    }

    ghost predicate Valid()
      reads this
    {
      CodeInv(selectedService, retrievalCode)
    }

    constructor (residents: seq<Resident>)
      ensures Valid()
      ensures this.residents == residents
      ensures condo == "" && block == "" && apt == ""
      ensures selectedResidentIds == {} && selectedService.None? && retrievalCode == ""
      ensures observation == "" && !hasPhoto
    {
      this.residents := residents;
      condo, block, apt := "", "", "";
      selectedResidentIds := {};
      selectedService := None;
      retrievalCode, observation := "", "";
      hasPhoto := false;
    }

    /** Choosing a building clears the block, the apartment, the matches and the ticks. */
    method SetCondo(c: string)
      requires Valid()
      modifies this
      ensures Valid()
      ensures condo == c
      ensures c != old(condo) ==> block == "" && apt == "" && selectedResidentIds == {} && MatchedResidents() == []
      ensures c == old(condo) ==> block == old(block) && apt == old(apt) && selectedResidentIds == old(selectedResidentIds)
      ensures selectedService == old(selectedService) && retrievalCode == old(retrievalCode)
      ensures observation == old(observation) && hasPhoto == old(hasPhoto)
    {
      if c != condo {
        condo, block, apt := c, "", "";
        selectedResidentIds := {};
      }
    }

    /** Choosing a block clears the apartment, the matches and the ticks. */
    method SetBlock(b: string)
      requires Valid()
      modifies this
      ensures Valid()
      ensures block == b && condo == old(condo)
      ensures b != old(block) ==> apt == "" && selectedResidentIds == {} && MatchedResidents() == []
      ensures b == old(block) ==> apt == old(apt) && selectedResidentIds == old(selectedResidentIds)
      ensures selectedService == old(selectedService) && retrievalCode == old(retrievalCode)
      ensures observation == old(observation) && hasPhoto == old(hasPhoto)
    {
      if b != block {
        block, apt := b, "";
        selectedResidentIds := {};
      }
    }

    /** Choosing an apartment lists the matching residents and clears the ticks. */
    method SetApt(a: string)
      requires Valid()
      modifies this
      ensures Valid()
      ensures apt == a && condo == old(condo) && block == old(block)
      ensures a != old(apt) ==> selectedResidentIds == {}
      ensures a == old(apt) ==> selectedResidentIds == old(selectedResidentIds)
      ensures selectedService == old(selectedService) && retrievalCode == old(retrievalCode)
      ensures observation == old(observation) && hasPhoto == old(hasPhoto)
    {
      if a != apt {
        apt := a;
        selectedResidentIds := {};
      }
    }

    method ToggleResident(id: nat, checked: bool)
      requires Valid()
      modifies this
      ensures Valid()
      ensures selectedResidentIds == Toggle(old(selectedResidentIds), id, checked)
      ensures condo == old(condo) && block == old(block) && apt == old(apt)
      ensures selectedService == old(selectedService) && retrievalCode == old(retrievalCode)
      ensures observation == old(observation) && hasPhoto == old(hasPhoto)
    {
      selectedResidentIds := Toggle(selectedResidentIds, id, checked);
    }

    /**
     * Pressing a service button, followed by the code effect with the draw
     * `r`. The buttons are the entries of `Services`, so a selected service
     * is never the empty name that `!selectedService` would treat as none.
     */
    method SelectService(service: string, r: real)
      requires Valid() && 0.0 <= r < 1.0
      requires service in Services
      modifies this
      ensures Valid()
      ensures selectedService == Some(service)
      ensures retrievalCode == CodeEffect(Some(service), old(retrievalCode), r)
      ensures condo == old(condo) && block == old(block) && apt == old(apt)
      ensures selectedResidentIds == old(selectedResidentIds)
      ensures observation == old(observation) && hasPhoto == old(hasPhoto)
    {
      selectedService := Some(service);
      retrievalCode := CodeEffect(selectedService, retrievalCode, r);
    }

    method SetObservation(o: string)
      requires Valid()
      modifies this
      ensures Valid()
      ensures observation == o
      ensures condo == old(condo) && block == old(block) && apt == old(apt)
      ensures selectedResidentIds == old(selectedResidentIds)
      ensures selectedService == old(selectedService) && retrievalCode == old(retrievalCode) && hasPhoto == old(hasPhoto)
    {
      observation := o;
    }

    /** A photo taken or chosen (`processPhotoFile`), or removed (`removePhoto`). */
    method SetPhoto(present: bool)
      requires Valid()
      modifies this
      ensures Valid()
      ensures hasPhoto == present
      ensures condo == old(condo) && block == old(block) && apt == old(apt)
      ensures selectedResidentIds == old(selectedResidentIds)
      ensures selectedService == old(selectedService) && retrievalCode == old(retrievalCode) && observation == old(observation)
    {
      hasPhoto := present;
    }

    /** `resetForm`, with the effects it triggers. */
    method ResetForm()
      requires Valid()
      modifies this
      ensures Valid()
      ensures condo == "" && block == "" && apt == "" && selectedResidentIds == {}
      ensures selectedService.None? && retrievalCode == "" && observation == "" && !hasPhoto
    {
      condo, block, apt := "", "", "";
      selectedResidentIds := {};
      selectedService := None;
      retrievalCode, observation := "", "";
      hasPhoto := false;
    }

    /**
     * `handleSendMessage`. `uploaded` is what the photo upload returned,
     * `outcomes[i]` and `draws[i]` the webhook outcome and the employee draw
     * for the i-th ticked resident. Nothing happens without a tick or a
     * service; otherwise every ticked match is notified and the form resets
     * when at least one notice was accepted.
     */
    method HandleSendMessage(condos: seq<Condo>, employees: seq<Employee>, uploaded: Option<string>,
                             outcomes: seq<WebhookOutcome>, draws: seq<real>, date: string, time: string)
      returns (report: SendReport)
      requires Valid()
      requires |outcomes| >= |MatchedResidents()| && |draws| >= |MatchedResidents()| && Draws(draws)
      modifies this
      ensures Valid()
      ensures old(selectedResidentIds) == {} || old(selectedService).None? ==> report.NotStarted? && unchanged(this)
      ensures report.Finished? ==>
                var toNotify := Ticked(old(MatchedResidents()), old(selectedResidentIds));
                var photoUrl := if old(hasPhoto) then uploaded else None;
                var active := ActiveEmployees(employees);
                && report.webhookUrl == WebhookUrlFor(condos, old(condo))
                && report.total == |toNotify|
                && report.successCount == |Filter(outcomes[..|toNotify|], Delivered)|
                && |report.payloads| == |toNotify|
                && report.registered == Registrations(toNotify, old(selectedService).value, old(retrievalCode), photoUrl, old(observation), active, outcomes, draws)
                && (forall k :: 0 <= k < |toNotify| ==>
                      report.payloads[k] == NoticeFor(old(selectedService).value, old(retrievalCode), photoUrl, old(observation), date, time)(toNotify[k]))
      ensures report.Finished? && report.successCount > 0 ==>
                && condo == "" && block == "" && apt == "" && selectedResidentIds == {}
                && selectedService.None? && retrievalCode == "" && observation == "" && !hasPhoto
      ensures report.Finished? && report.successCount == 0 ==> unchanged(this)
    {
      if selectedResidentIds == {} || selectedService.None? {
        return NotStarted;
      }
      report := Dispatch(condos, employees, uploaded, outcomes, draws, date, time);
      if report.successCount > 0 {
        ResetForm();
      }
    }

    /** The batch for the ticked matches, built from the form as it stands. */
    method Dispatch(condos: seq<Condo>, employees: seq<Employee>, uploaded: Option<string>,
                    outcomes: seq<WebhookOutcome>, draws: seq<real>, date: string, time: string)
      returns (report: SendReport)
      requires selectedService.Some?
      requires |outcomes| >= |MatchedResidents()| && |draws| >= |MatchedResidents()| && Draws(draws)
      ensures report.Finished?
      ensures var toNotify := Ticked(MatchedResidents(), selectedResidentIds);
              var photoUrl := if hasPhoto then uploaded else None;
              var active := ActiveEmployees(employees);
              && report.webhookUrl == WebhookUrlFor(condos, condo)
              && report.total == |toNotify|
              && report.successCount == |Filter(outcomes[..|toNotify|], Delivered)|
              && |report.payloads| == |toNotify|
              && report.registered == Registrations(toNotify, selectedService.value, retrievalCode, photoUrl, observation, active, outcomes, draws)
              && (forall k :: 0 <= k < |toNotify| ==>
                    report.payloads[k] == NoticeFor(selectedService.value, retrievalCode, photoUrl, observation, date, time)(toNotify[k]))
    {
      var photoUrl := if hasPhoto then uploaded else None;
      var webhookUrl := WebhookUrlFor(condos, condo);
      var toNotify := Ticked(MatchedResidents(), selectedResidentIds);
      var active := ActiveEmployees(employees);
      var service, code, obs := selectedService.value, retrievalCode, observation;
      var successCount, payloads, registered :=
        SendNotifications(toNotify, NoticeFor(service, code, photoUrl, obs, date, time),
                          service, code, photoUrl, obs, active, outcomes, draws);
      report := Finished(webhookUrl, payloads, successCount, |toNotify|, registered);
    }
  }
}
