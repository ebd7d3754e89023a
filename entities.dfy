/**
 * The records the screens share (the `Employee`, `Condo`, `Resident` and
 * `Delivery` interfaces of the application shell) and the ones they pass to
 * the backend. Local ids are naturals; the backend's row ids are UUID strings.
 * Dates stay the ISO text the backend stores; where a screen compares or
 * formats them, the conversion is a parameter.
 */
module Entities {
  import opened Wrappers
  import opened Seqs

  datatype Status = Pending | PickedUp

  /** An awaited backend call that returns nothing: it completed, or it threw. */
  datatype Call = Completed | Raised

  datatype Address = Address(street: string, number: string, neighborhood: string, city: string, state: string)

  datatype Condo = Condo(id: nat, name: string, address: Address, webhookUrl: Option<string>)

  datatype Resident = Resident(id: nat, name: string, apt: string, block: string, phone: string, condo: string, active: bool)

  datatype Employee = Employee(id: nat, name: string, cpf: string, password: Option<string>, role: string, condo: string, active: bool)

  datatype Delivery = Delivery(
    id: nat,
    uuid: Option<string>,
    code: string,
    residentId: nat,
    employeeId: nat,
    status: Status,
    receivedDate: string,
    pickupDate: Option<string>,
    photoUrl: Option<string>,
    pickupPerson: Option<string>,
    observation: Option<string>)

  /** What the registration screen hands to `addDelivery`: a delivery without id, status or date. */
  datatype DeliveryInput = DeliveryInput(
    code: string,
    residentId: nat,
    employeeId: nat,
    photoUrl: Option<string>,
    observation: Option<string>)

  /** The fields of a new `entregas` row the application sends to the backend. */
  datatype EntregaInsert = EntregaInsert(
    codigoRetirada: string,
    moradorId: string,
    funcionarioId: string,
    condominioId: string,
    fotoUrl: Option<string>,
    observacoes: Option<string>,
    status: string,
    mensagemEnviada: Option<bool>)

  /**
   * `{ id, ...input, status: 'pending', receivedDate }`: the delivery a screen
   * prepends to its list, optionally carrying the backend's UUID.
   */
  function NewLocalDelivery(id: nat, uuid: Option<string>, input: DeliveryInput, receivedDate: string): (d: Delivery)
    ensures d.id == id && d.uuid == uuid && d.status == Pending && d.receivedDate == receivedDate
    ensures d.code == input.code && d.residentId == input.residentId && d.employeeId == input.employeeId
    ensures d.photoUrl == input.photoUrl && d.observation == input.observation
    ensures d.pickupDate.None? && d.pickupPerson.None?
  {
    Delivery(id, uuid, input.code, input.residentId, input.employeeId, Pending, receivedDate, None, input.photoUrl, None, input.observation)
  }

  /** `residents.find(r => r.id === d.residentId)`: the delivery's resident, if listed. */
  function ResidentOf(residents: seq<Resident>, d: Delivery): (r: Option<Resident>)
    ensures r.Some? ==> r.value in residents && r.value.id == d.residentId
    ensures r.None? <==> forall k :: 0 <= k < |residents| ==> residents[k].id != d.residentId
  {
    Find(residents, (x: Resident) => x.id == d.residentId)
  }

  /** `employees.find(e => e.id === d.employeeId)`: the employee who registered the delivery, if listed. */
  function EmployeeOf(employees: seq<Employee>, d: Delivery): (e: Option<Employee>)
    ensures e.Some? ==> e.value in employees && e.value.id == d.employeeId
    ensures e.None? <==> forall k :: 0 <= k < |employees| ==> employees[k].id != d.employeeId
  {
    Find(employees, (x: Employee) => x.id == d.employeeId)
  }
}
