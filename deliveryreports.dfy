/**
 * The delivery report: the whole delivery list narrowed by a text search
 * (applied on demand), a status, an employee, a resident and a date range;
 * counts of the narrowed list; its export as `;`-separated CSV; and the
 * checkbox selection the application shell deletes from.
 */
module DeliveryReports {
  import opened Wrappers
  import opened Text
  import opened Seqs
  import opened Selection
  import opened Entities

  /** The `status` value a delivery carries (`'pending'` or `'picked-up'`). */
  function StatusValue(s: Status): string
  {
    match s
    case Pending => "pending"
    case PickedUp => "picked-up"
  }

  /**
   * The criteria the report applies: the applied search text, the chosen
   * status, employee and resident option values (`''` for any), and the
   * first and last instants of the date range, already widened to the start
   * and the end of the chosen days.
   */
  datatype ReportFilters = ReportFilters(
    query: string,
    status: string,
    employee: string,
    resident: string,
    start: Option<int>,
    end: Option<int>)

  /** The criteria after `clearFilters`. */
  const NoFilters: ReportFilters := ReportFilters("", "", "", "", None, None)

  /**
   * The text search: an empty query keeps everything; otherwise the
   * lower-cased query must occur in the lower-cased code, resident name or
   * employee name (a missing resident or employee matches nothing).
   */
  predicate SearchMatch(query: string, d: Delivery, resident: Option<Resident>, employee: Option<Employee>)
  {
    Lower(query) == ""
    || Includes(Lower(d.code), Lower(query))
    || (resident.Some? && Includes(Lower(resident.value.name), Lower(query)))
    || (employee.Some? && Includes(Lower(employee.value.name), Lower(query)))
  }

  /** `filter === '' || id === parseInt(filter)`. */
  predicate IdMatch(filter: string, id: nat)
  {
    filter == "" || ParseInt(filter) == Some(id)
  }

  /** One delivery against all the criteria; `timeOf` reads an ISO date as milliseconds. */
  predicate Matches(f: ReportFilters, residents: seq<Resident>, employees: seq<Employee>, timeOf: string -> int, d: Delivery)
  {
    && SearchMatch(f.query, d, ResidentOf(residents, d), EmployeeOf(employees, d))
    && (f.status == "" || StatusValue(d.status) == f.status)
    && IdMatch(f.employee, d.employeeId)
    && IdMatch(f.resident, d.residentId)
    && (f.start.None? || timeOf(d.receivedDate) >= f.start.value)
    && (f.end.None? || timeOf(d.receivedDate) <= f.end.value)
  }

  /** `filteredDeliveries`: the deliveries that meet every criterion. */
  function FilteredDeliveries(deliveries: seq<Delivery>, residents: seq<Resident>, employees: seq<Employee>,
                              f: ReportFilters, timeOf: string -> int): (r: seq<Delivery>)
    ensures forall i :: 0 <= i < |r| ==> r[i] in deliveries && Matches(f, residents, employees, timeOf, r[i])
    ensures forall k :: 0 <= k < |deliveries| && Matches(f, residents, employees, timeOf, deliveries[k]) ==> deliveries[k] in r
  {
    Filter(deliveries, (d: Delivery) => Matches(f, residents, employees, timeOf, d))
  }

  /** The report keeps the order of the delivery list. */
  lemma FilteredKeepsOrder(deliveries: seq<Delivery>, residents: seq<Resident>, employees: seq<Employee>,
                           f: ReportFilters, timeOf: string -> int)
    ensures IsSubsequence(FilteredDeliveries(deliveries, residents, employees, f, timeOf), deliveries)
  {
    FilterIsSubsequence(deliveries, (d: Delivery) => Matches(f, residents, employees, timeOf, d));
  }

  /** With the criteria cleared the report is the whole list. */
  lemma ClearedShowsAll(deliveries: seq<Delivery>, residents: seq<Resident>, employees: seq<Employee>, timeOf: string -> int)
    ensures FilteredDeliveries(deliveries, residents, employees, NoFilters, timeOf) == deliveries
  {
    FilterAll(deliveries, (d: Delivery) => Matches(NoFilters, residents, employees, timeOf, d));
  }

  /**
   * The option values of the employee and resident lists are `String(id)`;
   * choosing one keeps exactly the records with that id.
   */
  lemma OptionValueMatchesId(option: nat, id: nat)
    ensures IdMatch(NatToString(option), id) <==> id == option
  {
    ParseIntNumeral(NatToString(option));
  }

  /** Choosing a status keeps only deliveries in that status. */
  lemma StatusFilterKeepsStatus(deliveries: seq<Delivery>, residents: seq<Resident>, employees: seq<Employee>,
                                f: ReportFilters, timeOf: string -> int, s: Status, i: nat)
    requires f.status == StatusValue(s)
    requires i < |FilteredDeliveries(deliveries, residents, employees, f, timeOf)|
    ensures FilteredDeliveries(deliveries, residents, employees, f, timeOf)[i].status == s
  {
  }

  // ------------------------------------------------------------ the counts

  datatype ReportStats = ReportStats(total: nat, pending: nat, pickedUp: nat)

  /** `stats` of the narrowed list: every delivery is counted as pending or as picked up, never both. */
  function StatsOf(filtered: seq<Delivery>): (st: ReportStats)
    ensures st.total == |filtered|
    ensures st.pending == |Filter(filtered, (d: Delivery) => d.status == Pending)|
    ensures st.pickedUp == |Filter(filtered, (d: Delivery) => d.status == PickedUp)|
    ensures st.pending + st.pickedUp == st.total
  {
    FilterComplement(filtered, (d: Delivery) => d.status == Pending, (d: Delivery) => d.status == PickedUp);
    ReportStats(|filtered|,
                |Filter(filtered, (d: Delivery) => d.status == Pending)|,
                |Filter(filtered, (d: Delivery) => d.status == PickedUp)|)
  }

  // ------------------------------------------------------------ the CSV export

  /** The header line's columns. */
  const CsvHeaders: seq<string> :=
    ["Código", "Morador", "Apto/Bloco", "Funcionário", "Status", "Data Entrega", "Data Retirada", "Retirado Por"]

  /** `x || 'N/A'` on a name that may be missing or empty. */
  function OrNA(s: Option<string>): (r: string)
    ensures r != ""
    ensures s.Some? && s.value != "" ==> r == s.value
  {
    NonEmpty(s).GetOr("N/A")
  }

  function ResidentName(r: Option<Resident>): Option<string>
  {
    match r
    case None => None
    case Some(x) => Some(x.name)
  }

  /**
   * The eight columns of `formatDeliveryToCSVRow`; `localeText` is
   * `new Date(..).toLocaleString('pt-BR')`.
   */
  function CsvFields(d: Delivery, residents: seq<Resident>, employees: seq<Employee>, localeText: string -> string): (fields: seq<string>)
    ensures |fields| == 8
    ensures fields[0] == d.code
    ensures fields[1] == OrNA(ResidentName(ResidentOf(residents, d)))
    ensures ResidentOf(residents, d).None? ==> fields[1] == "N/A" && fields[2] == "N/A / N/A"
    ensures ResidentOf(residents, d).Some? ==>
              var res := ResidentOf(residents, d).value;
              fields[2] == OrNA(Some(res.apt)) + " / " + OrNA(Some(res.block))
    ensures EmployeeOf(employees, d).None? ==> fields[3] == "N/A"
    ensures EmployeeOf(employees, d).Some? ==> fields[3] == OrNA(Some(EmployeeOf(employees, d).value.name))
    ensures fields[4] == (if d.status == Pending then "Pendente" else "Retirada")
    ensures fields[5] == localeText(d.receivedDate)
    ensures fields[6] == (if d.pickupDate.Some? && d.pickupDate.value != "" then localeText(d.pickupDate.value) else "")
    ensures fields[7] == d.pickupPerson.GetOr("")
  {
    var resident := ResidentOf(residents, d);
    var employee := EmployeeOf(employees, d);
    var apt := match resident case None => None case Some(x) => Some(x.apt);
    var block := match resident case None => None case Some(x) => Some(x.block);
    var name := match employee case None => None case Some(x) => Some(x.name);
    [ d.code,
      OrNA(ResidentName(resident)),
      OrNA(apt) + " / " + OrNA(block),
      OrNA(name),
      if d.status == Pending then "Pendente" else "Retirada",
      localeText(d.receivedDate),
      if d.pickupDate.Some? && d.pickupDate.value != "" then localeText(d.pickupDate.value) else "",
      d.pickupPerson.GetOr("") ]
  }

  /** `formatDeliveryToCSVRow`: the columns joined by `;`, without quoting. */
  function CsvRow(d: Delivery, residents: seq<Resident>, employees: seq<Employee>, localeText: string -> string): string
  {
    Join(CsvFields(d, residents, employees, localeText), ";")
  }

  /** A row splits back into its eight columns as long as no column holds a `;` (nothing is escaped). */
  lemma CsvRowColumns(d: Delivery, residents: seq<Resident>, employees: seq<Employee>, localeText: string -> string)
    requires forall i :: 0 <= i < 8 ==> ';' !in CsvFields(d, residents, employees, localeText)[i]
    ensures Split(CsvRow(d, residents, employees, localeText), ';') == CsvFields(d, residents, employees, localeText)
    ensures |Split(CsvRow(d, residents, employees, localeText), ';')| == 8
  {
    SplitJoin(CsvFields(d, residents, employees, localeText), ';');
  }

  /** `exportToCSV`'s content: the header line, then one row per listed delivery, joined by line breaks. */
  function CsvDocument(filtered: seq<Delivery>, residents: seq<Resident>, employees: seq<Employee>, localeText: string -> string): string
  {
    Join([Join(CsvHeaders, ";")] + Map(filtered, (d: Delivery) => CsvRow(d, residents, employees, localeText)), "\n")
  }

  /**
   * When no column holds a line break, the document's lines are the header
   * followed by the rows of the listed deliveries, in list order.
   */
  lemma CsvDocumentLines(filtered: seq<Delivery>, residents: seq<Resident>, employees: seq<Employee>, localeText: string -> string)
    requires forall k, i :: 0 <= k < |filtered| && 0 <= i < 8 ==> '\n' !in CsvFields(filtered[k], residents, employees, localeText)[i]
    ensures |Split(CsvDocument(filtered, residents, employees, localeText), '\n')| == |filtered| + 1
    ensures forall k :: 0 <= k < |filtered| ==>
              Split(CsvDocument(filtered, residents, employees, localeText), '\n')[k + 1] == CsvRow(filtered[k], residents, employees, localeText)
  {
    var rows := Map(filtered, (d: Delivery) => CsvRow(d, residents, employees, localeText));
    HeaderHasNoLineBreak();
    forall k | 0 <= k < |filtered| ensures '\n' !in rows[k] {
      JoinAvoids(CsvFields(filtered[k], residents, employees, localeText), ";", '\n');
    }
    LinesSplit(Join(CsvHeaders, ";"), rows);
  }

  lemma HeaderHasNoLineBreak()
    ensures '\n' !in Join(CsvHeaders, ";")
  {
    JoinAvoids(CsvHeaders, ";", '\n');
  }

  /** Lines free of line breaks, joined by line breaks, split back into those lines. */
  lemma LinesSplit(header: string, rows: seq<string>)
    requires '\n' !in header
    requires forall k :: 0 <= k < |rows| ==> '\n' !in rows[k]
    ensures Split(Join([header] + rows, "\n"), '\n') == [header] + rows
  {
    LinesFreeOfBreaks(header, rows);
    SplitJoin([header] + rows, '\n');
  }

  /** No line of the document holds a line break. */
  lemma LinesFreeOfBreaks(header: string, rows: seq<string>)
    requires '\n' !in header
    requires forall k :: 0 <= k < |rows| ==> '\n' !in rows[k]
    ensures forall i :: 0 <= i < |[header] + rows| ==> '\n' !in ([header] + rows)[i]
  {
    forall i | 0 <= i < |[header] + rows| ensures '\n' !in ([header] + rows)[i] {
      if i > 0 {
        assert ([header] + rows)[i] == rows[i - 1];
      }
    }
  }

  /**
   * `exportSingleDeliveryToCSV`: nothing when the id is not listed;
   * otherwise the file `entrega_<code>.csv` holding the header line and
   * that delivery's row.
   */
  function SingleDeliveryCsv(filtered: seq<Delivery>, id: nat, residents: seq<Resident>, employees: seq<Employee>,
                             localeText: string -> string): (file: Option<(string, string)>)
    ensures file.None? <==> forall k :: 0 <= k < |filtered| ==> filtered[k].id != id
    ensures file.Some? ==> exists k :: 0 <= k < |filtered| && filtered[k].id == id
                             && file.value.0 == "entrega_" + filtered[k].code + ".csv"
                             && file.value.1 == Join(CsvHeaders, ";") + "\n" + CsvRow(filtered[k], residents, employees, localeText)
  {
    match FindFirst(filtered, (d: Delivery) => d.id == id)
    case None => None
    case Some(k) =>
      var d := filtered[k];
      assert Join([Join(CsvHeaders, ";"), CsvRow(d, residents, employees, localeText)], "\n")
             == Join(CsvHeaders, ";") + "\n" + CsvRow(d, residents, employees, localeText);
      Some(("entrega_" + d.code + ".csv", Join([Join(CsvHeaders, ";"), CsvRow(d, residents, employees, localeText)], "\n")))
  }

  // ------------------------------------------------------------ the screen

  /**
   * The report's state: the text being typed, the criteria in force and the
   * selection, which the application shell owns and shares with this screen.
   */
  class ReportScreen {
    const deliveries: seq<Delivery>
    const residents: seq<Resident>
    const employees: seq<Employee>
    var searchQuery: string
    var filters: ReportFilters
    var selectedIds: set<nat>

    constructor (deliveries: seq<Delivery>, residents: seq<Resident>, employees: seq<Employee>, selectedIds: set<nat>)
      ensures this.deliveries == deliveries && this.residents == residents && this.employees == employees
      ensures this.selectedIds == selectedIds && searchQuery == "" && filters == NoFilters
    {
      this.deliveries := deliveries;
      this.residents := residents;
      this.employees := employees;
      this.selectedIds := selectedIds;
      searchQuery := "";
      filters := NoFilters;
    }

    function Filtered(timeOf: string -> int): seq<Delivery>
      reads this
    {
      FilteredDeliveries(deliveries, residents, employees, filters, timeOf)
    }

    /** Typing in the search box changes nothing else: the search applies only on demand. */
    method SetSearchQuery(q: string)
      modifies this
      ensures searchQuery == q && filters == old(filters) && selectedIds == old(selectedIds)
    {
      searchQuery := q;
    }

    /** `handleSearch`: the typed text becomes the applied query. */
    method HandleSearch()
      modifies this
      ensures filters == old(filters).(query := old(searchQuery))
      ensures searchQuery == old(searchQuery) && selectedIds == old(selectedIds)
    {
      filters := filters.(query := searchQuery);
    }

    /** `handleKeyDown`: Enter applies the search, any other key does nothing. */
    method HandleKeyDown(key: string)
      modifies this
      ensures key == "Enter" ==> filters == old(filters).(query := old(searchQuery))
      ensures key != "Enter" ==> filters == old(filters)
      ensures searchQuery == old(searchQuery) && selectedIds == old(selectedIds)
    {
      if key == "Enter" {
        HandleSearch();
      }
    }

    /** Picking a status, an employee, a resident or a date bound. */
    method SetCriteria(status: string, employee: string, resident: string, start: Option<int>, end: Option<int>)
      modifies this
      ensures filters == ReportFilters(old(filters).query, status, employee, resident, start, end)
      ensures searchQuery == old(searchQuery) && selectedIds == old(selectedIds)
    {
      filters := ReportFilters(filters.query, status, employee, resident, start, end);
    }

    /** `clearFilters`: afterwards the report lists every delivery. */
    method ClearFilters(timeOf: string -> int)
      modifies this
      ensures searchQuery == "" && filters == NoFilters && selectedIds == old(selectedIds)
      ensures Filtered(timeOf) == deliveries
    {
      searchQuery := "";
      filters := NoFilters;
      ClearedShowsAll(deliveries, residents, employees, timeOf);
    }

    /** `handleSelectDelivery`: only the given id changes. */
    method SelectDelivery(id: nat, checked: bool)
      modifies this
      ensures selectedIds == Toggle(old(selectedIds), id, checked)
      ensures searchQuery == old(searchQuery) && filters == old(filters)
    {
      selectedIds := Toggle(selectedIds, id, checked);
    }

    /** `handleSelectAll`: exactly the listed ids, or none. */
    method SelectAllListed(checked: bool, timeOf: string -> int)
      modifies this
      ensures selectedIds == SelectAll(Map(old(Filtered(timeOf)), (d: Delivery) => d.id), checked)
      ensures searchQuery == old(searchQuery) && filters == old(filters)
    {
      selectedIds := SelectAll(Map(Filtered(timeOf), (d: Delivery) => d.id), checked);
    }

    /** `isAllSelected`: false on an empty report, otherwise every listed id is selected. */
    predicate AllSelected(timeOf: string -> int)
      reads this
    {
      IsAllSelected(Map(Filtered(timeOf), (d: Delivery) => d.id), selectedIds)
    }
  }

  /** The header flag against the listed deliveries themselves. */
  lemma AllSelectedMeans(listed: seq<Delivery>, sel: set<nat>)
    ensures IsAllSelected(Map(listed, (d: Delivery) => d.id), sel)
            <==> |listed| > 0 && forall k :: 0 <= k < |listed| ==> listed[k].id in sel
  {
  }
}
