/** The citizen profile page: adding a diagnosis, loading the citizen, and the transaction and
    diagnostic tables drawn from the citizen's transaction histories. */
module Profiling {
  import opened Common
  import opened Table
  import opened Dates

  // ---- addDiagnostic ----

  /** The body of the diagnostics endpoint's answer. */
  datatype DiagnosticJson = DiagnosticJson(success: Scalar, message: Option<string>)

  /** How addDiagnostic ends: no request, or a request for (diagnosis, citizen id) with the
      notice its answer brings and whether the modal closes. */
  datatype DiagnosticOutcome =
    | Refused(notice: Notice)
    | Posted(diagnosis: string, citizenId: Option<string>, notice: Notice, closeModal: bool)

  const DiagnosisRequired := "Diagnosis is required."
  const DiagnosticAdded := "Diagnostic record added successfully!"
  const DiagnosticFailed := "Failed to add diagnostic."

  /** addDiagnostic(diagnosis, citizenId): an empty diagnosis is refused before any request; an
      ok answer is a success only when its `success` is truthy. */
  function AddDiagnostic(diagnosis: string, citizenId: Option<string>, response: Response<DiagnosticJson>): (o: DiagnosticOutcome)
    ensures o.Refused? <==> diagnosis == ""
    ensures o.Refused? ==> o.notice == Failure(DiagnosisRequired, DefaultSeconds)
    ensures o.Posted? ==> o.diagnosis == diagnosis && o.citizenId == citizenId
    ensures o.Posted? ==> (o.closeModal <==> o.notice == Success(DiagnosticAdded, DefaultSeconds))
    ensures o.Posted? && o.closeModal <==>
      diagnosis != "" && response.Response? && Ok(response.status) && response.body.Parsed? && Truthy(response.body.value.success)
    ensures diagnosis != "" && response.Response? && Ok(response.status) && response.body.Parsed? && !Truthy(response.body.value.success) ==>
      o.notice == Failure(OrElse(response.body.value.message, DiagnosticFailed), DefaultSeconds)
    ensures diagnosis != "" && response.Response? && !Ok(response.status) ==>
      o.notice == Failure("HTTP Error: " + IntToString(response.status), DefaultSeconds)
    ensures diagnosis != "" && response.NetworkFailure? ==>
      o.notice == Failure("An error occurred: " + response.reason, DefaultSeconds)
    ensures diagnosis != "" && response.Response? && Ok(response.status) && response.body.Unparsable? ==>
      o.notice == Failure("An error occurred: " + response.body.reason, DefaultSeconds)
  {
    if diagnosis == "" then Refused(Failure(DiagnosisRequired, DefaultSeconds))
    else
      match response
      case NetworkFailure(reason) => Posted(diagnosis, citizenId, Failure("An error occurred: " + reason, DefaultSeconds), false)
      case Response(status, body) =>
        if !Ok(status) then Posted(diagnosis, citizenId, Failure("HTTP Error: " + IntToString(status), DefaultSeconds), false)
        else
          match body
          case Unparsable(reason) => Posted(diagnosis, citizenId, Failure("An error occurred: " + reason, DefaultSeconds), false)
          case Parsed(json) =>
            if Truthy(json.success) then Posted(diagnosis, citizenId, Success(DiagnosticAdded, DefaultSeconds), true)
            else Posted(diagnosis, citizenId, Failure(OrElse(json.message, DiagnosticFailed), DefaultSeconds), false)
  }

  // ---- fetchCitizenDetails ----

  /** The fields of a fetched citizen that the not-found check reads. */
  datatype CitizenDetails = CitizenDetails(citizenId: Scalar, firstname: Option<string>, lastname: Option<string>)

  datatype DetailsOutcome = Populate(citizen: CitizenDetails) | Report(notice: Notice)

  /** fetchCitizenDetails: a null body or a falsy `citizen_id` is "Citizen not found" and
      nothing is filled in. */
  function CitizenDetailsResult(response: Response<Option<CitizenDetails>>): (o: DetailsOutcome)
    ensures o.Populate? <==>
      response.Response? && Ok(response.status) && response.body.Parsed? &&
      response.body.value.Some? && Truthy(response.body.value.value.citizenId)
    ensures o.Populate? ==> Truthy(o.citizen.citizenId)
    ensures response.Response? && Ok(response.status) && response.body.Parsed? && !o.Populate? ==>
      o == Report(Failure("Citizen not found", DefaultSeconds))
    ensures response.Response? && !Ok(response.status) ==>
      o == Report(Failure("HTTP-Error: " + IntToString(response.status), DefaultSeconds))
    ensures response.NetworkFailure? ==>
      o == Report(Failure("An error occurred: " + response.reason, DefaultSeconds))
    ensures response.Response? && Ok(response.status) && response.body.Unparsable? ==>
      o == Report(Failure("An error occurred: " + response.body.reason, DefaultSeconds))
  {
    match response
    case NetworkFailure(reason) => Report(Failure("An error occurred: " + reason, DefaultSeconds))
    case Response(status, body) =>
      if !Ok(status) then Report(Failure("HTTP-Error: " + IntToString(status), DefaultSeconds))
      else
        match body
        case Unparsable(reason) => Report(Failure("An error occurred: " + reason, DefaultSeconds))
        case Parsed(citizen) =>
          if citizen.None? || !Truthy(citizen.value.citizenId) then Report(Failure("Citizen not found", DefaultSeconds))
          else Populate(citizen.value)
  }

  // ---- Transaction histories ----

  /** One diagnosis of a transaction; `shownDate` is its date as the page formats it. */
  datatype Diagnostic = Diagnostic(diagnosis: Option<string>, shownDate: string)

  /** One transaction history: the date availed (`None` for a date that does not parse), that
      date as the page shows it, the transaction text and its diagnostics. */
  datatype TransactionHistory = TransactionHistory(
    dateAvailed: Option<Date>, shownDate: string, transaction: Option<string>, diagnostics: Option<seq<Diagnostic>>)

  /** `transactionDate.getMonth() + 1 === parseInt(month)`; an invalid date's month is NaN, and
      `parseInt` has no radix, so a "0x" month text is read in base 16. */
  predicate InMonth(h: TransactionHistory, month: string)
  {
    h.dateAvailed.Some? && ParseIntAuto(month) == Some(h.dateAvailed.value.month)
  }

  /** `histories.filter(InMonth)`. */
  function MonthFiltered(hs: seq<TransactionHistory>, month: string): (r: seq<TransactionHistory>)
    ensures forall h :: h in r <==> h in hs && InMonth(h, month)
    ensures |r| <= |hs|
    decreases |hs|
  {
    if hs == [] then []
    else (if InMonth(hs[0], month) then [hs[0]] else []) + MonthFiltered(hs[1..], month)
  }

  /** The filter keeps the histories' order. */
  lemma {:induction false} MonthFilteredAppend(a: seq<TransactionHistory>, b: seq<TransactionHistory>, month: string)
    ensures MonthFiltered(a + b, month) == MonthFiltered(a, month) + MonthFiltered(b, month)
    decreases |a|
  {
    if a == [] {
      assert a + b == b;
    } else {
      assert (a + b)[1..] == a[1..] + b;
      MonthFilteredAppend(a[1..], b, month);
    }
  }

  /** A month text that is not a number selects nothing. */
  lemma NonNumericMonthSelectsNothing(hs: seq<TransactionHistory>, month: string)
    requires ParseIntAuto(month).None?
    ensures MonthFiltered(hs, month) == []
  {
    if MonthFiltered(hs, month) != [] {
      assert MonthFiltered(hs, month)[0] in MonthFiltered(hs, month);
    }
  }

  /** Without a radix, "0x3" and "0X3" are both read in base 16 and select March, and so
      does " 3"; "0x" alone is NaN and selects no month. */
  lemma HexMonthText(h: TransactionHistory)
    ensures InMonth(h, "0x3") <==> h.dateAvailed.Some? && h.dateAvailed.value.month == 3
    ensures InMonth(h, "0X3") <==> h.dateAvailed.Some? && h.dateAvailed.value.month == 3
    ensures InMonth(h, " 3") <==> h.dateAvailed.Some? && h.dateAvailed.value.month == 3
    ensures !InMonth(h, "0x")
  {
    assert Unsigned("0x3") == "0x3" && Unsigned("0x3")[2..] == "3";
    assert LeadingHexDigits("3") == "3";
    assert Unsigned("0X3") == "0X3" && Unsigned("0X3")[2..] == "3";
    assert Unsigned(" 3") == "3" && !HexPrefixed(" 3");
    assert LeadingDigits("3") == "3";
    assert Unsigned("0x") == "0x" && Unsigned("0x")[2..] == [];
  }

  const NoServices := "No services availed"

  /** The services cell of createTransactionRow: the transaction when non-empty. */
  function ServicesCell(transaction: Option<string>): string
  {
    if Present(transaction) then transaction.value else NoServices
  }

  /** createTransactionRow: the date, the services and the "Add" button. */
  function TransactionRow(h: TransactionHistory): Row
  {
    Row([h.shownDate, ServicesCell(h.transaction), "Add"], "")
  }

  const NoTransactions := "No transactions found for this month"

  /** The transaction table after a month filter. */
  function FilteredTable(hs: seq<TransactionHistory>, month: string): seq<Row>
  {
    var f := MonthFiltered(hs, month);
    if f == [] then [Placeholder(NoTransactions)]
    else seq(|f|, i requires 0 <= i < |f| => TransactionRow(f[i]))
  }

  /** An empty result is exactly one placeholder row; otherwise one row per kept history. */
  lemma FilteredTableShape(hs: seq<TransactionHistory>, month: string)
    ensures MonthFiltered(hs, month) == [] <==> FilteredTable(hs, month) == [Placeholder(NoTransactions)]
    ensures MonthFiltered(hs, month) != [] ==>
      |FilteredTable(hs, month)| == |MonthFiltered(hs, month)| &&
      forall i :: 0 <= i < |MonthFiltered(hs, month)| ==>
        FilteredTable(hs, month)[i].cells[1] == ServicesCell(MonthFiltered(hs, month)[i].transaction)
  {
    var f := MonthFiltered(hs, month);
    if f != [] {
      var t := FilteredTable(hs, month);
      assert t[0] == TransactionRow(f[0]);
      assert t[0] != Placeholder(NoTransactions);
      forall i | 0 <= i < |f|
        ensures t[i].cells[1] == ServicesCell(f[i].transaction)
      {
        assert t[i] == TransactionRow(f[i]);
      }
    }
  }

  // ---- viewDiagnosticDetails ----

  const NoDiagnosticDetails := "No diagnostic details available"
  const NoDiagnosis := "No diagnosis provided"
  const NoDiagnosticsFor := "No diagnostics available for transaction: "

  function DiagnosticRow(d: Diagnostic): Row
  {
    Row([OrElse(d.diagnosis, NoDiagnosis), d.shownDate], "")
  }

  /** The rows one history contributes: one per diagnostic, or a single placeholder when it
      has none. */
  function HistoryRows(h: TransactionHistory): (r: seq<Row>)
    ensures |r| == if h.diagnostics.Some? && |h.diagnostics.value| > 0 then |h.diagnostics.value| else 1
  {
    if h.diagnostics.Some? && |h.diagnostics.value| > 0 then
      var ds := h.diagnostics.value;
      seq(|ds|, i requires 0 <= i < |ds| => DiagnosticRow(ds[i]))
    else [Row([NoDiagnosticsFor + TemplateText(h.transaction)], "")]
  }

  /** The rows of the histories, history after history. */
  function DiagnosticRows(hs: seq<TransactionHistory>): seq<Row>
    decreases |hs|
  {
    if hs == [] then [] else DiagnosticRows(hs[..|hs| - 1]) + HistoryRows(hs[|hs| - 1])
  }

  /** Each history counts for its diagnostics, and for one row when it has none. */
  function RowCount(hs: seq<TransactionHistory>): nat
    decreases |hs|
  {
    if hs == [] then 0
    else
      var h := hs[0];
      (if h.diagnostics.Some? && |h.diagnostics.value| > 1 then |h.diagnostics.value| else 1) + RowCount(hs[1..])
  }

  lemma {:induction false} RowCountAppend(a: seq<TransactionHistory>, h: TransactionHistory)
    ensures RowCount(a + [h]) == RowCount(a) + |HistoryRows(h)|
    decreases |a|
  {
    if a == [] {
      assert a + [h] == [h];
    } else {
      assert (a + [h])[1..] == a[1..] + [h];
      RowCountAppend(a[1..], h);
    }
  }

  /** The diagnostic table has the sum over the histories of max(1, number of diagnostics)
      rows. */
  lemma {:induction false} DiagnosticRowCount(hs: seq<TransactionHistory>)
    ensures |DiagnosticRows(hs)| == RowCount(hs)
    decreases |hs|
  {
    if hs != [] {
      var init := hs[..|hs| - 1];
      DiagnosticRowCount(init);
      RowCountAppend(init, hs[|hs| - 1]);
      assert init + [hs[|hs| - 1]] == hs;
    }
  }

  /** The transaction and diagnostic tables of the page and the histories kept in
      `window.transactionHistories` (`None` until they are fetched). */
  class HistoryPage {
    var histories: Option<seq<TransactionHistory>>
    var transactionRows: seq<Row>
    var diagnosticRows: seq<Row>
    var diagnosticModalShown: bool

    constructor (histories: Option<seq<TransactionHistory>>)
      ensures this.histories == histories && transactionRows == [] && diagnosticRows == [] && !diagnosticModalShown
    {
      this.histories := histories;
      transactionRows := [];
      diagnosticRows := [];
      diagnosticModalShown := false;
    }

    /** filterTransactionHistoryByMonth(month): before the histories are fetched the filter
        throws and nothing changes; otherwise the table is cleared and the kept histories'
        rows are appended one by one, or the placeholder when none is kept. */
    method FilterByMonth(month: string) returns (threw: bool)
      modifies this
      ensures threw <==> old(histories).None?
      ensures histories == old(histories) && diagnosticRows == old(diagnosticRows) && diagnosticModalShown == old(diagnosticModalShown)
      ensures !threw ==> transactionRows == FilteredTable(histories.value, month)
      ensures threw ==> transactionRows == old(transactionRows)
    {
      if histories.None? {
        return true;
      }
      threw := false;
      var filtered := MonthFiltered(histories.value, month);
      transactionRows := [];
      if |filtered| == 0 {
        transactionRows := [Placeholder(NoTransactions)];
      } else {
        var i := 0;
        while i < |filtered|
          invariant 0 <= i <= |filtered|
          invariant histories == old(histories) && diagnosticRows == old(diagnosticRows) && diagnosticModalShown == old(diagnosticModalShown)
          invariant |transactionRows| == i && forall k :: 0 <= k < i ==> transactionRows[k] == TransactionRow(filtered[k])
        {
          transactionRows := transactionRows + [TransactionRow(filtered[i])];
          i := i + 1;
        }
      }
    }

    /** viewDiagnosticDetails: with no histories (or none fetched) only the placeholder and no
        modal; otherwise each history's rows in turn and the modal opens. */
    method ViewDiagnosticDetails()
      modifies this
      ensures histories == old(histories) && transactionRows == old(transactionRows)
      ensures var hs := if histories.Some? then histories.value else [];
        (hs == [] ==> diagnosticRows == [Placeholder(NoDiagnosticDetails)] && diagnosticModalShown == old(diagnosticModalShown)) &&
        (hs != [] ==> diagnosticRows == DiagnosticRows(hs) && diagnosticModalShown)
    {
      var hs := if histories.Some? then histories.value else [];
      diagnosticRows := [];
      if |hs| == 0 {
        diagnosticRows := [Placeholder(NoDiagnosticDetails)];
        return;
      }
      var i := 0;
      while i < |hs|
        invariant 0 <= i <= |hs|
        invariant histories == old(histories) && transactionRows == old(transactionRows)
        invariant diagnosticRows == DiagnosticRows(hs[..i])
      {
        var h := hs[i];
        assert hs[..i + 1][..i] == hs[..i];
        if h.diagnostics.Some? && |h.diagnostics.value| > 0 {
          var ds := h.diagnostics.value;
          var j := 0;
          while j < |ds|
            invariant 0 <= j <= |ds|
            invariant histories == old(histories) && transactionRows == old(transactionRows)
            invariant diagnosticRows == DiagnosticRows(hs[..i]) + HistoryRows(h)[..j]
          {
            diagnosticRows := diagnosticRows + [DiagnosticRow(ds[j])];
            assert HistoryRows(h)[..j + 1] == HistoryRows(h)[..j] + [DiagnosticRow(ds[j])];
            j := j + 1;
          }
          assert HistoryRows(h)[..j] == HistoryRows(h);
        } else {
          diagnosticRows := diagnosticRows + [Row([NoDiagnosticsFor + TemplateText(h.transaction)], "")];
        }
        i := i + 1;
      }
      assert hs[..i] == hs;
      diagnosticModalShown := true;
    }
  }
}
