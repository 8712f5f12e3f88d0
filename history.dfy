/** The monthly history page: a month menu built from the keys of the history object, and a
    table of the records of the selected month. */
module History {
  import opened Common
  import opened Table
  import opened Dates

  /** One record of a month's list. */
  datatype HistoryRecord = HistoryRecord(
    lastname: Option<string>, firstname: Option<string>, gender: Option<string>,
    dateOfBirth: Birthdate, servicesAvailed: Option<string>, address: Option<string>)

  /** The history object: keys such as "January 2024" with their records, in key order. */
  type HistoryData = seq<(string, seq<HistoryRecord>)>

  /** `data[key]`; `None` is `undefined`. */
  function Get(data: HistoryData, key: string): Option<seq<HistoryRecord>>
    decreases |data|
  {
    if data == [] then None else if data[0].0 == key then Some(data[0].1) else Get(data[1..], key)
  }

  function DataKeys(data: HistoryData): seq<string>
  {
    seq(|data|, i requires 0 <= i < |data| => data[i].0)
  }

  // ---- Years from the keys ----

  /** The text after the first space, if there is one. */
  function AfterSpace(s: string): Option<string>
    decreases |s|
  {
    if s == [] then None else if s[0] == ' ' then Some(s[1..]) else AfterSpace(s[1..])
  }

  /** The text before the first space (all of it when there is none). */
  function BeforeSpace(s: string): string
    decreases |s|
  {
    if s == [] || s[0] == ' ' then [] else [s[0]] + BeforeSpace(s[1..])
  }

  /** `key.split(" ")[1]`: the second space-separated field, `undefined` when the key has no
      space. */
  function SecondField(key: string): Option<string>
  {
    match AfterSpace(key)
    case None => None
    case Some(rest) => Some(BeforeSpace(rest))
  }

  lemma {:induction false} AfterSpaceOfPrefix(a: string, b: string)
    requires ' ' !in a
    ensures AfterSpace(a + " " + b) == Some(b)
    decreases |a|
  {
    if a == [] {
      assert a + " " + b == [' '] + b;
    } else {
      assert (a + " " + b)[1..] == a[1..] + " " + b;
      AfterSpaceOfPrefix(a[1..], b);
    }
  }

  lemma {:induction false} BeforeSpaceOfWord(s: string)
    requires ' ' !in s
    ensures BeforeSpace(s) == s
    decreases |s|
  {
    if s != [] {
      BeforeSpaceOfWord(s[1..]);
    }
  }

  /** Reading the year back from a month key: the second field of "<Month> <Year>" is the
      year, when neither contains a space. */
  lemma YearOfMonthKey(month: string, year: string)
    requires ' ' !in month && ' ' !in year
    ensures SecondField(month + " " + year) == Some(year)
  {
    AfterSpaceOfPrefix(month, year);
    BeforeSpaceOfWord(year);
  }

  /** `[...new Set(s)]`: each value once, in the order of first occurrence. */
  function Dedup(s: seq<Option<string>>): (r: seq<Option<string>>)
    ensures forall x :: x in r <==> x in s
    ensures forall i, j :: 0 <= i < j < |r| ==> r[i] != r[j]
    decreases |s|
  {
    if s == [] then []
    else
      var d := Dedup(s[..|s| - 1]);
      if s[|s| - 1] in d then d else d + [s[|s| - 1]]
  }

  /** The index of the first occurrence of `x`. */
  function FirstIndex<T(==)>(s: seq<T>, x: T): (i: nat)
    requires x in s
    ensures i < |s| && s[i] == x && x !in s[..i]
    decreases |s|
  {
    if s[0] == x then 0 else FirstIndex(s[1..], x) + 1
  }

  /** The first occurrence is the only index with `x` there and none before. */
  lemma {:induction false} FirstIndexUnique<T>(s: seq<T>, x: T, i: nat)
    requires i < |s| && s[i] == x && x !in s[..i]
    ensures FirstIndex(s, x) == i
    decreases i
  {
    if i > 0 {
      assert s[..i][0] == s[0];
      assert s[1..][..i - 1] == s[..i][1..];
      FirstIndexUnique(s[1..], x, i - 1);
    }
  }

  lemma FirstIndexPrefix<T>(s: seq<T>, x: T, n: nat)
    requires n <= |s| && x in s[..n]
    ensures FirstIndex(s, x) == FirstIndex(s[..n], x)
  {
    var i := FirstIndex(s[..n], x);
    assert s[..i] == s[..n][..i];
    FirstIndexUnique(s, x, i);
  }

  /** The years come out in the order their keys first appear. */
  lemma {:induction false} DedupFirstOccurrenceOrder(s: seq<Option<string>>)
    ensures forall i, j :: 0 <= i < j < |Dedup(s)| ==> FirstIndex(s, Dedup(s)[i]) < FirstIndex(s, Dedup(s)[j])
    decreases |s|
  {
    if s != [] {
      var n := |s| - 1;
      var init := s[..n];
      var x := s[n];
      var d := Dedup(init);
      DedupFirstOccurrenceOrder(init);
      var r := Dedup(s);
      assert r[..|d|] == d;
      forall i, j | 0 <= i < j < |r|
        ensures FirstIndex(s, r[i]) < FirstIndex(s, r[j])
      {
        assert r[i] == d[i] && d[i] in init;
        FirstIndexPrefix(s, r[i], n);
        if j < |d| {
          assert r[j] == d[j] && d[j] in init;
          FirstIndexPrefix(s, r[j], n);
          assert FirstIndex(init, d[i]) < FirstIndex(init, d[j]);
        } else {
          assert r[j] == x && x !in init;
          FirstIndexUnique(s, x, n);
        }
      }
    }
  }

  /** The distinct years of the keys, `undefined` for a key without a space. */
  function DistinctYears(data: HistoryData): seq<Option<string>>
  {
    Dedup(seq(|data|, i requires 0 <= i < |data| => SecondField(data[i].0)))
  }

  // ---- The month menu ----

  const MonthNames: seq<string> := [
    "January", "February", "March", "April", "May", "June",
    "July", "August", "September", "October", "November", "December"
  ]

  const NoCitizensSuffix := " - No citizens found"

  /** One menu entry: its `data-month` key, its text, and whether it is muted. */
  datatype MonthOption = MonthOption(key: string, text: string, muted: bool)

  /** A month with no list, or an empty one, has no data. */
  predicate NoData(data: HistoryData, key: string)
  {
    Get(data, key).None? || Get(data, key).value == []
  }

  /** The entry for one month name and one year. */
  function OptionFor(data: HistoryData, month: string, year: Option<string>): (o: MonthOption)
    ensures o.key == month + " " + TemplateText(year)
    ensures o.muted <==> NoData(data, o.key)
    ensures o.text == o.key + (if o.muted then NoCitizensSuffix else "")
  {
    var key := month + " " + TemplateText(year);
    if NoData(data, key) then MonthOption(key, key + NoCitizensSuffix, true) else MonthOption(key, key, false)
  }

  /** The entries of one month, one per year. */
  function MonthRow(data: HistoryData, years: seq<Option<string>>, m: nat): seq<MonthOption>
    requires m < 12
  {
    seq(|years|, j requires 0 <= j < |years| => OptionFor(data, MonthNames[m], years[j]))
  }

  /** The entries of the first `m` months, month after month. */
  function OptionsUpTo(data: HistoryData, years: seq<Option<string>>, m: nat): seq<MonthOption>
    requires m <= 12
    decreases m
  {
    if m == 0 then [] else OptionsUpTo(data, years, m - 1) + MonthRow(data, years, m - 1)
  }

  /** The menu holds 12 entries per year. */
  lemma {:induction false} OptionsCount(data: HistoryData, years: seq<Option<string>>, m: nat)
    requires m <= 12
    ensures |OptionsUpTo(data, years, m)| == m * |years|
    decreases m
  {
    if m > 0 {
      OptionsCount(data, years, m - 1);
      assert m * |years| == (m - 1) * |years| + |years|;
    }
  }

  /** Entry `j` of month `a` sits right after the entries of the months before it. */
  lemma {:induction false} OptionsAtOffset(data: HistoryData, years: seq<Option<string>>, m: nat, a: nat, j: nat)
    requires m <= 12 && a < m && j < |years|
    ensures |OptionsUpTo(data, years, a)| + j < |OptionsUpTo(data, years, m)|
    ensures OptionsUpTo(data, years, m)[|OptionsUpTo(data, years, a)| + j] == OptionFor(data, MonthNames[a], years[j])
    decreases m
  {
    var prev := OptionsUpTo(data, years, m - 1);
    var row := MonthRow(data, years, m - 1);
    assert OptionsUpTo(data, years, m) == prev + row;
    if a < m - 1 {
      OptionsAtOffset(data, years, m - 1, a, j);
    } else {
      assert row[j] == OptionFor(data, MonthNames[a], years[j]);
    }
  }

  /** The dropdown list next to `#monthDropdown`. */
  class MonthMenu {
    var options: seq<MonthOption>

    constructor ()
      ensures options == []
    {
      options := [];
    }

    /** renderMonthDropdown(data): clear the list, then for each month name and each distinct
        year append that month's entry. */
    method Render(data: HistoryData)
      modifies this
      ensures options == OptionsUpTo(data, DistinctYears(data), 12)
    {
      options := [];
      var years := DistinctYears(data);
      var m := 0;
      while m < 12
        invariant 0 <= m <= 12
        invariant options == OptionsUpTo(data, years, m)
      {
        var j := 0;
        while j < |years|
          invariant 0 <= j <= |years|
          invariant options == OptionsUpTo(data, years, m) + MonthRow(data, years, m)[..j]
        {
          options := options + [OptionFor(data, MonthNames[m], years[j])];
          assert MonthRow(data, years, m)[..j + 1] == MonthRow(data, years, m)[..j] + [OptionFor(data, MonthNames[m], years[j])];
          j := j + 1;
        }
        assert MonthRow(data, years, m)[..j] == MonthRow(data, years, m);
        assert OptionsUpTo(data, years, m + 1) == OptionsUpTo(data, years, m) + MonthRow(data, years, m);
        m := m + 1;
      }
    }
  }

  // ---- The history table ----

  const NoRecordsForSelected := "No records found for the selected month."
  const NoServices := "No services availed"

  /** The six cells of one record's row. */
  function RecordRow(c: HistoryRecord, today: Date): Row
  {
    Row([TemplateText(c.lastname), TemplateText(c.firstname), TemplateText(c.gender),
         AgeText(CalculateAge(c.dateOfBirth, today)), OrElse(c.servicesAvailed, NoServices),
         TemplateText(c.address)], "")
  }

  /** What renderHistoryTable puts in the table. */
  function HistoryTable(data: HistoryData, selectedMonth: string, today: Date): seq<Row>
    requires selectedMonth == "" || Get(data, selectedMonth).Some?
  {
    var records := if selectedMonth != "" then Get(data, selectedMonth).value else [];
    if records == [] then [Placeholder(NoRecordsForSelected)]
    else seq(|records|, i requires 0 <= i < |records| => RecordRow(records[i], today))
  }

  /** No selected month or an empty month gives the placeholder alone; otherwise one row per
      record of the month, in order. */
  lemma HistoryTableShape(data: HistoryData, selectedMonth: string, today: Date)
    requires selectedMonth == "" || Get(data, selectedMonth).Some?
    ensures (selectedMonth == "" || Get(data, selectedMonth).value == []) <==>
      HistoryTable(data, selectedMonth, today) == [Placeholder(NoRecordsForSelected)]
    ensures selectedMonth != "" ==>
      var records := Get(data, selectedMonth).value;
      records != [] ==>
        |HistoryTable(data, selectedMonth, today)| == |records| &&
        forall i :: 0 <= i < |records| ==>
          var cells := HistoryTable(data, selectedMonth, today)[i].cells;
          |cells| == 6 && cells[0] == TemplateText(records[i].lastname) &&
          cells[4] == (if Present(records[i].servicesAvailed) then records[i].servicesAvailed.value else NoServices)
  {
    if selectedMonth != "" {
      var records := Get(data, selectedMonth).value;
      if records != [] {
        var t := HistoryTable(data, selectedMonth, today);
        forall i | 0 <= i < |records|
          ensures |t[i].cells| == 6 && t[i].cells[0] == TemplateText(records[i].lastname)
          ensures t[i].cells[4] == OrElse(records[i].servicesAvailed, NoServices)
        {
          assert t[i] == RecordRow(records[i], today);
        }
        assert t[0] != Placeholder(NoRecordsForSelected);
      }
    }
  }

  /** renderHistoryTable(data, selectedMonth): the rows, appended one record at a time.
      Reading the length of an absent month throws, so a selected month must be a key. */
  method RenderHistoryTable(body: TableBody, data: HistoryData, selectedMonth: string, today: Date)
    requires selectedMonth == "" || Get(data, selectedMonth).Some?
    modifies body
    ensures body.rows == HistoryTable(data, selectedMonth, today)
  {
    var records := if selectedMonth != "" then Get(data, selectedMonth).value else [];
    var rows: seq<Row> := [];
    if |records| == 0 {
      rows := [Placeholder(NoRecordsForSelected)];
    } else {
      var i := 0;
      while i < |records|
        invariant 0 <= i <= |records|
        invariant |rows| == i && forall k :: 0 <= k < i ==> rows[k] == RecordRow(records[k], today)
      {
        rows := rows + [RecordRow(records[i], today)];
        i := i + 1;
      }
      RecordRowsAreTable(data, selectedMonth, today, rows);
    }
    body.Replace(rows);
  }

  /** Rows built one per record of a non-empty month are that month's table. */
  lemma RecordRowsAreTable(data: HistoryData, selectedMonth: string, today: Date, rows: seq<Row>)
    requires selectedMonth != "" && Get(data, selectedMonth).Some?
    requires var records := Get(data, selectedMonth).value;
      records != [] && |rows| == |records| &&
      forall k :: 0 <= k < |records| ==> rows[k] == RecordRow(records[k], today)
    ensures rows == HistoryTable(data, selectedMonth, today)
  {
  }

  // ---- getHistoryByMonth ----

  /** What the fetch ends in: render this data, or show this notice. */
  datatype HistoryOutcome = Render(data: HistoryData) | Report(notice: Notice)

  const NoRecordsForMonth := "No records found for this month."

  /** getHistoryByMonth's branches: a null or key-less body is reported and nothing is drawn. */
  function HistoryResult(response: Response<Option<HistoryData>>): (o: HistoryOutcome)
    ensures o.Render? <==> (response.Response? && Ok(response.status) && response.body.Parsed? &&
      response.body.value.Some? && response.body.value.value != [])
    ensures response.Response? && Ok(response.status) && response.body.Parsed? && !o.Render? ==>
      o == Report(Failure(NoRecordsForMonth, DefaultSeconds))
    ensures response.Response? && !Ok(response.status) ==>
      o == Report(Failure("HTTP-Error: " + IntToString(response.status), DefaultSeconds))
    ensures response.NetworkFailure? ==>
      o == Report(Failure("An error occurred: " + response.reason, DefaultSeconds))
    ensures response.Response? && Ok(response.status) && response.body.Unparsable? ==>
      o == Report(Failure("An error occurred: " + response.body.reason, DefaultSeconds))
  {
    match response
    case NetworkFailure(reason) => Report(Failure("An error occurred: " + reason, DefaultSeconds))
    case Response(status, body) =>
      if !Ok(status) then Report(Failure("HTTP-Error: " + IntToString(status), DefaultSeconds))
      else
        match body
        case Unparsable(reason) => Report(Failure("An error occurred: " + reason, DefaultSeconds))
        case Parsed(data) =>
          if data.Some? && |data.value| > 0 then Render(data.value) else Report(Failure(NoRecordsForMonth, DefaultSeconds))
  }

  /** getHistoryByMonth(monthYear): the menu and the table are redrawn only when the body has
      data; otherwise the notice is the only effect. */
  method GetHistoryByMonth(menu: MonthMenu, body: TableBody, response: Response<Option<HistoryData>>, monthYear: string, today: Date)
    returns (notice: Option<Notice>)
    requires HistoryResult(response).Render? ==> monthYear == "" || Get(HistoryResult(response).data, monthYear).Some?
    modifies menu, body
    ensures HistoryResult(response).Render? ==>
      notice == None &&
      menu.options == OptionsUpTo(HistoryResult(response).data, DistinctYears(HistoryResult(response).data), 12) &&
      body.rows == HistoryTable(HistoryResult(response).data, monthYear, today)
    ensures HistoryResult(response).Report? ==>
      notice == Some(HistoryResult(response).notice) && menu.options == old(menu.options) && body.rows == old(body.rows)
  {
    var outcome := HistoryResult(response);
    if outcome.Render? {
      menu.Render(outcome.data);
      RenderHistoryTable(body, outcome.data, monthYear, today);
      notice := None;
    } else {
      notice := Some(outcome.notice);
    }
  }
}
