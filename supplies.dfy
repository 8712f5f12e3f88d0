/** The supplies page: the medicine and equipment tabs, their tables (loaded, sorted by
    quantity and searched) and their add and edit forms. */
module Supplies {
  import opened Common
  import opened Sorting
  import opened Table

  // ---- showTable ----

  /** Which table is hidden (`d-none`) and the `style.display` of the two add buttons. */
  class SuppliesView {
    var medicineHidden: bool
    var equipmentHidden: bool
    var addMedicineDisplay: string
    var addEquipmentDisplay: string

    constructor ()
      ensures !medicineHidden && equipmentHidden && addMedicineDisplay == "inline-block" && addEquipmentDisplay == "none"
    {
      medicineHidden := false;
      equipmentHidden := true;
      addMedicineDisplay := "inline-block";
      addEquipmentDisplay := "none";
    }

    /** Exactly one tab is visible, and only its add button shows. */
    predicate OneTabShown()
      reads this
    {
      medicineHidden != equipmentHidden &&
      addMedicineDisplay == (if medicineHidden then "none" else "inline-block") &&
      addEquipmentDisplay == (if equipmentHidden then "none" else "inline-block")
    }

    /** showTable(type): "medicine" and "equipment" show their own table and add button and
        hide the other's; any other value changes nothing. */
    method ShowTable(kind: string)
      modifies this
      ensures kind == "medicine" ==> !medicineHidden && equipmentHidden && OneTabShown()
      ensures kind == "equipment" ==> medicineHidden && !equipmentHidden && OneTabShown()
      ensures kind != "medicine" && kind != "equipment" ==>
        medicineHidden == old(medicineHidden) && equipmentHidden == old(equipmentHidden) &&
        addMedicineDisplay == old(addMedicineDisplay) && addEquipmentDisplay == old(addEquipmentDisplay)
    {
      if kind == "medicine" {
        medicineHidden := false;
        equipmentHidden := true;
        addMedicineDisplay := "inline-block";
        addEquipmentDisplay := "none";
      } else if kind == "equipment" {
        medicineHidden := true;
        equipmentHidden := false;
        addMedicineDisplay := "none";
        addEquipmentDisplay := "inline-block";
      }
    }
  }

  // ---- The tables ----

  datatype Medicine = Medicine(
    medicineId: int, name: Option<string>, usageDescription: Option<string>, quantity: int,
    expirationDate: Option<string>, batchNo: Option<string>, location: Option<string>, status: Option<string>)

  datatype Equipment = Equipment(
    equipmentId: int, description: Option<string>, location: Option<string>, quantity: int,
    condition: Option<string>, status: Option<string>)

  /** One medicine's row; the quantity is the fourth cell. */
  function MedicineRow(m: Medicine): Row
  {
    Row([IntToString(m.medicineId), TemplateText(m.name), TemplateText(m.usageDescription),
         IntToString(m.quantity), TemplateText(m.expirationDate), TemplateText(m.batchNo),
         TemplateText(m.location), TemplateText(m.status), "Edit"], "")
  }

  /** One equipment item's row; the quantity is the fourth cell. */
  function EquipmentRow(e: Equipment): Row
  {
    Row([IntToString(e.equipmentId), TemplateText(e.description), TemplateText(e.location),
         IntToString(e.quantity), TemplateText(e.condition), TemplateText(e.status), "Edit"], "")
  }

  const Loading := "Loading..."
  const FailedToLoad := "Failed to load data."
  const ErrorLoading := "Error loading data."

  /** What getMedicine / getEquipment leave in the table and the notice they show. A body that
      does not parse, or is not an array to map over, throws into the error branch. */
  function LoadResult<T>(response: Response<seq<T>>, render: T -> Row, noun: string): (r: (seq<Row>, Option<Notice>))
    ensures response.Response? && Ok(response.status) && response.body.Parsed? ==>
      r.1 == None && |r.0| == |response.body.value| &&
      forall i :: 0 <= i < |r.0| ==> r.0[i] == render(response.body.value[i])
    ensures response.Response? && !Ok(response.status) ==>
      r == ([Placeholder(FailedToLoad)], Some(Failure("Failed to fetch " + noun + " data.", DefaultSeconds)))
    ensures response.NetworkFailure? ==>
      r == ([Placeholder(ErrorLoading)], Some(Failure("An error occurred: " + response.reason, DefaultSeconds)))
    ensures response.Response? && Ok(response.status) && response.body.Unparsable? ==>
      r == ([Placeholder(ErrorLoading)], Some(Failure("An error occurred: " + response.body.reason, DefaultSeconds)))
  {
    match response
    case NetworkFailure(reason) => ([Placeholder(ErrorLoading)], Some(Failure("An error occurred: " + reason, DefaultSeconds)))
    case Response(status, body) =>
      if !Ok(status) then ([Placeholder(FailedToLoad)], Some(Failure("Failed to fetch " + noun + " data.", DefaultSeconds)))
      else
        match body
        case Unparsable(reason) => ([Placeholder(ErrorLoading)], Some(Failure("An error occurred: " + reason, DefaultSeconds)))
        case Parsed(items) => (seq(|items|, i requires 0 <= i < |items| => render(items[i])), None)
  }

  /** getMedicine: the table first shows the loading placeholder (`loading` is the table at
      that moment), then the outcome of the request. */
  method GetMedicine(body: TableBody, response: Response<seq<Medicine>>)
    returns (loading: seq<Row>, notice: Option<Notice>)
    modifies body
    ensures loading == [Placeholder(Loading)]
    ensures body.rows == LoadResult(response, MedicineRow, "medicine").0
    ensures notice == LoadResult(response, MedicineRow, "medicine").1
  {
    body.Replace([Placeholder(Loading)]);
    loading := body.rows;
    var r := LoadResult(response, MedicineRow, "medicine");
    body.Replace(r.0);
    notice := r.1;
  }

  /** getEquipment: the same sequence for the equipment table. */
  method GetEquipment(body: TableBody, response: Response<seq<Equipment>>)
    returns (loading: seq<Row>, notice: Option<Notice>)
    modifies body
    ensures loading == [Placeholder(Loading)]
    ensures body.rows == LoadResult(response, EquipmentRow, "equipment").0
    ensures notice == LoadResult(response, EquipmentRow, "equipment").1
  {
    body.Replace([Placeholder(Loading)]);
    loading := body.rows;
    var r := LoadResult(response, EquipmentRow, "equipment");
    body.Replace(r.0);
    notice := r.1;
  }

  /** An empty array gives an empty table, not a placeholder. */
  lemma EmptyListEmptiesTable(status: nat)
    requires Ok(status)
    ensures LoadResult(Response(status, Parsed([])), MedicineRow, "medicine") == ([], None)
  {
  }

  // ---- sortTable ----

  /** `parseInt(row.cells[3].textContent.trim(), 10)`, for a row that has that cell and whose
      text parses. */
  predicate HasQuantity(r: Row)
  {
    |r.cells| > 3 && ParseInt(Trim(r.cells[3])).Some?
  }

  function Quantity(r: Row): int
  {
    if HasQuantity(r) then ParseInt(Trim(r.cells[3])).value else 0
  }

  function QuantityKey(r: Row): Key
  {
    NumKey(Quantity(r))
  }

  /** sortTable(tbody, order): by quantity, ascending for "Ascending", descending otherwise,
      then every row re-appended. A row without a numeric fourth cell makes the comparator
      throw or return NaN, so every row must have one once there are two rows to compare; a
      lone row (such as a placeholder) is never compared and stays as it is. */
  method SortTable(body: TableBody, order: string)
    requires |body.rows| <= 1 || forall r :: r in body.rows ==> HasQuantity(r)
    modifies body
    ensures body.rows == Sort(old(body.rows), QuantityKey, order == "Ascending")
    ensures |old(body.rows)| <= 1 ==> body.rows == old(body.rows)
  {
    body.SortBy(QuantityKey, order == "Ascending");
  }

  /** The sorted table is a permutation of the rows, ordered by quantity in the requested
      direction, with rows of equal quantity in their old order. */
  lemma SortByQuantity(rows: seq<Row>, order: string, q: int)
    ensures multiset(Sort(rows, QuantityKey, order == "Ascending")) == multiset(rows)
    ensures var s := Sort(rows, QuantityKey, order == "Ascending");
      forall i, j :: 0 <= i < j < |s| ==>
        if order == "Ascending" then Quantity(s[i]) <= Quantity(s[j]) else Quantity(s[i]) >= Quantity(s[j])
    ensures WithKey(Sort(rows, QuantityKey, order == "Ascending"), QuantityKey, NumKey(q)) == WithKey(rows, QuantityKey, NumKey(q))
  {
    var asc := order == "Ascending";
    SortPermutes(rows, QuantityKey, asc);
    SortSorts(rows, QuantityKey, asc);
    SortStable(rows, QuantityKey, NumKey(q), asc);
    var s := Sort(rows, QuantityKey, asc);
    forall i, j | 0 <= i < j < |s|
      ensures if asc then Quantity(s[i]) <= Quantity(s[j]) else Quantity(s[i]) >= Quantity(s[j])
    {
      assert !Precedes(QuantityKey(s[j]), QuantityKey(s[i]), asc);
    }
  }

  lemma TrimDigits(s: string)
    requires |s| > 0 && !IsSpace(s[0]) && !IsSpace(s[|s| - 1])
    ensures Trim(s) == s
  {
  }

  /** A rendered row reads back its own quantity, so sorting the rendered medicine table orders
      the medicines by quantity. */
  lemma RenderedQuantity(m: Medicine)
    ensures HasQuantity(MedicineRow(m)) && Quantity(MedicineRow(m)) == m.quantity
  {
    var t := IntToString(m.quantity);
    assert MedicineRow(m).cells[3] == t;
    IntTextTrimmed(m.quantity);
    ParseIntOfIntToString(m.quantity);
  }

  /** A rendered integer has no white space to trim. */
  lemma IntTextTrimmed(i: int)
    ensures Trim(IntToString(i)) == IntToString(i)
  {
    var t := IntToString(i);
    var n: nat := if i < 0 then -i else i;
    NatToStringDigits(n);
    assert t[0] == '-' || IsDigit(t[0]);
    assert IsDigit(t[|t| - 1]);
    TrimDigits(t);
  }

  // ---- The add and edit forms ----

  datatype Kind = MedicineKind | EquipmentKind
  datatype Verb = Post | Put

  /** The body of a rejected submission. */
  datatype SaveJson = SaveJson(message: Option<string>)

  /** How a submission ends: saved (form reset, table refetched), with the notice shown if
      any, or not saved with an error notice. */
  datatype SubmitOutcome = Saved(announcement: Option<Notice>) | NotSaved(error: Notice)

  function Noun(kind: Kind): string
  {
    match kind
    case MedicineKind => "Medicine"
    case EquipmentKind => "Equipment"
  }

  /** The four submit handlers: POST adds, PUT edits. Only PUT announces the save; a 422 shows
      the server's message (empty text when it has none); a network failure or a body that
      does not parse shows "An error occurred: <reason>"; any other status is thrown as "Network response was not ok.". */
  function SubmitResult(kind: Kind, verb: Verb, response: Response<SaveJson>): (o: SubmitOutcome)
    ensures o.Saved? <==> response.Response? && Ok(response.status) && response.body.Parsed?
    ensures o.Saved? ==> o.announcement == (if verb == Put then Some(Success(Noun(kind) + " details saved successfully.", 5)) else None)
    ensures o.NotSaved? ==> o.error.Failure? && o.error.seconds == 5
    ensures response.Response? && response.status == 422 && response.body.Parsed? ==>
      o == NotSaved(Failure(DomText(response.body.value.message), 5))
    ensures response.Response? && !Ok(response.status) && response.status != 422 ==>
      o == NotSaved(Failure("An error occurred: Network response was not ok.", 5))
    ensures response.NetworkFailure? ==> o == NotSaved(Failure("An error occurred: " + response.reason, 5))
    ensures response.Response? && (Ok(response.status) || response.status == 422) && response.body.Unparsable? ==>
      o == NotSaved(Failure("An error occurred: " + response.body.reason, 5))
  {
    match response
    case NetworkFailure(reason) => NotSaved(Failure("An error occurred: " + reason, 5))
    case Response(status, body) =>
      if Ok(status) || status == 422 then
        match body
        case Unparsable(reason) => NotSaved(Failure("An error occurred: " + reason, 5))
        case Parsed(json) =>
          if Ok(status) then
            Saved(if verb == Put then Some(Success(Noun(kind) + " details saved successfully.", 5)) else None)
          else NotSaved(Failure(DomText(json.message), 5))
      else NotSaved(Failure("An error occurred: Network response was not ok.", 5))
  }

  /** The label a handler's `finally` writes back: "Add" for adding a medicine, "Save" for
      the other three. */
  function FinalLabel(kind: Kind, verb: Verb): string
  {
    if kind == MedicineKind && verb == Post then "Add" else "Save"
  }

  /** A submit handler with its button: spinner while saving, re-enabled at the end whatever
      the outcome. */
  method Submit(button: Button, kind: Kind, verb: Verb, response: Response<SaveJson>) returns (o: SubmitOutcome)
    modifies button
    ensures o == SubmitResult(kind, verb, response)
    ensures !button.disabled && button.content == Caption(FinalLabel(kind, verb))
  {
    button.ShowBusy("Saving...");
    o := SubmitResult(kind, verb, response);
    button.Restore(FinalLabel(kind, verb));
  }
}
