/** The citizen page: authenticated requests, the citizen table, the selected-services list
    and the save form. */
module Citizen {
  import opened Common
  import opened Sorting
  import opened Table
  import opened Dates

  // ---- fetchWithAuth ----

  /** A plain object of header names to values, in insertion order. */
  type Headers = seq<(string, string)>

  /** The value under `name`, if the object has that key. */
  function Lookup(h: Headers, name: string): Option<string>
    decreases |h|
  {
    if h == [] then None else if h[0].0 == name then Some(h[0].1) else Lookup(h[1..], name)
  }

  function Keys(h: Headers): seq<string>
  {
    seq(|h|, i requires 0 <= i < |h| => h[i].0)
  }

  /** Every key occurs once, as in any JavaScript object. */
  ghost predicate UniqueKeys(h: Headers)
  {
    forall i, j :: 0 <= i < j < |h| ==> h[i].0 != h[j].0
  }

  /** `obj[name] = value`: an existing key keeps its place and takes the new value, a new key
      goes last. */
  function Assign(h: Headers, name: string, value: string): (r: Headers)
    ensures |r| == |h| || r == h + [(name, value)]
    decreases |h|
  {
    if h == [] then [(name, value)]
    else if h[0].0 == name then [(name, value)] + h[1..]
    else [h[0]] + Assign(h[1..], name, value)
  }

  /** `{...h, ...extra}`: the keys of `extra` assigned in their order. */
  function Spread(h: Headers, extra: Headers): Headers
    decreases |extra|
  {
    if extra == [] then h else Spread(Assign(h, extra[0].0, extra[0].1), extra[1..])
  }

  /** The two headers every authenticated request starts from. A missing token prints as
      "null" in the template, so the header is then "Bearer null". */
  function DefaultHeaders(token: Option<string>): Headers
  {
    [("Accept", "application/json"), ("Authorization", "Bearer " + (if token.Some? then token.value else "null"))]
  }

  /** The options object a caller hands to fetchWithAuth; missing `headers` is the empty object. */
  datatype RequestOptions = RequestOptions(httpMethod: Option<string>, body: Option<string>, headers: Headers)

  /** The call fetchWithAuth makes: the URL, and the options with the merged headers. */
  datatype Request = Request(url: string, options: RequestOptions)

  /** fetchWithAuth(url, options): every other option is passed through; the headers are the
      defaults overridden by the caller's. */
  function FetchWithAuth(url: string, options: RequestOptions, token: Option<string>): (r: Request)
    ensures r.url == url && r.options.httpMethod == options.httpMethod && r.options.body == options.body
    ensures r.options.headers == Spread(DefaultHeaders(token), options.headers)
  {
    Request(url, options.(headers := Spread(DefaultHeaders(token), options.headers)))
  }

  lemma {:induction false} AssignLookup(h: Headers, name: string, value: string, k: string)
    ensures Lookup(Assign(h, name, value), k) == if k == name then Some(value) else Lookup(h, k)
    decreases |h|
  {
    if h != [] && h[0].0 != name {
      AssignLookup(h[1..], name, value, k);
    }
  }

  /** After the spread a key holds the extra object's value when it has the key, and its
      earlier value otherwise. */
  lemma {:induction false} SpreadLookup(h: Headers, extra: Headers, k: string)
    requires UniqueKeys(extra)
    ensures Lookup(Spread(h, extra), k) == if Lookup(extra, k).Some? then Lookup(extra, k) else Lookup(h, k)
    decreases |extra|
  {
    if extra != [] {
      var h' := Assign(h, extra[0].0, extra[0].1);
      assert UniqueKeys(extra[1..]);
      SpreadLookup(h', extra[1..], k);
      AssignLookup(h, extra[0].0, extra[0].1, k);
      if k == extra[0].0 {
        LookupAbsent(extra[1..], k);
      }
    }
  }

  lemma {:induction false} LookupAbsent(h: Headers, k: string)
    requires forall i :: 0 <= i < |h| ==> h[i].0 != k
    ensures Lookup(h, k).None?
    decreases |h|
  {
    if h != [] {
      LookupAbsent(h[1..], k);
    }
  }

  /** The merge never loses `Accept` or `Authorization`, and a caller's header of the same
      name wins: every header of the request is the caller's when the caller names it, the
      default otherwise. */
  lemma AuthHeaders(url: string, options: RequestOptions, token: Option<string>, k: string)
    requires UniqueKeys(options.headers)
    ensures var sent := FetchWithAuth(url, options, token).options.headers;
      Lookup(sent, k) == if Lookup(options.headers, k).Some? then Lookup(options.headers, k) else Lookup(DefaultHeaders(token), k)
    ensures var sent := FetchWithAuth(url, options, token).options.headers;
      Lookup(sent, "Accept").Some? && Lookup(sent, "Authorization").Some?
    ensures var sent := FetchWithAuth(url, options, token).options.headers;
      Lookup(options.headers, "Authorization").None? ==>
        Lookup(sent, "Authorization") == Some("Bearer " + (if token.Some? then token.value else "null"))
  {
    SpreadLookup(DefaultHeaders(token), options.headers, k);
    SpreadLookup(DefaultHeaders(token), options.headers, "Accept");
    SpreadLookup(DefaultHeaders(token), options.headers, "Authorization");
  }

  /** Assigning adds the assigned name to the keys and no other. */
  lemma {:induction false} AssignKeys(h: Headers, name: string, value: string)
    ensures forall c :: c in Keys(Assign(h, name, value)) <==> c in Keys(h) || c == name
    decreases |h|
  {
    if h == [] {
      assert Keys([(name, value)]) == [name];
    } else {
      assert Keys(h) == [h[0].0] + Keys(h[1..]);
      if h[0].0 == name {
        assert Keys([(name, value)] + h[1..]) == Keys(h);
      } else {
        AssignKeys(h[1..], name, value);
        var t := Assign(h[1..], name, value);
        assert Keys([h[0]] + t) == [h[0].0] + Keys(t);
      }
    }
  }

  lemma {:induction false} AssignKeepsUnique(h: Headers, name: string, value: string)
    requires UniqueKeys(h)
    ensures UniqueKeys(Assign(h, name, value))
    decreases |h|
  {
    if h != [] && h[0].0 != name {
      assert UniqueKeys(h[1..]);
      AssignKeepsUnique(h[1..], name, value);
      AssignKeys(h[1..], name, value);
      var t := Assign(h[1..], name, value);
      forall m | 0 <= m < |h[1..]|
        ensures Keys(h[1..])[m] != h[0].0
      {
        assert h[1..][m] == h[m + 1];
      }
      assert h[0].0 !in Keys(h[1..]);
      forall i | 0 <= i < |t|
        ensures t[i].0 != h[0].0
      {
        assert Keys(t)[i] == t[i].0;
        assert t[i].0 in Keys(h[1..]) || t[i].0 == name;
      }
    } else if h != [] {
      var r := Assign(h, name, value);
      assert forall i :: 0 <= i < |h| ==> r[i].0 == h[i].0;
    }
  }

  /** The merged headers are still a proper object: no name twice. */
  lemma {:induction false} SpreadKeepsUnique(h: Headers, extra: Headers)
    requires UniqueKeys(h)
    ensures UniqueKeys(Spread(h, extra))
    decreases |extra|
  {
    if extra != [] {
      AssignKeepsUnique(h, extra[0].0, extra[0].1);
      SpreadKeepsUnique(Assign(h, extra[0].0, extra[0].1), extra[1..]);
    }
  }

  // ---- displayCitizens ----

  /** One citizen as the list endpoint returns it. */
  datatype CitizenRecord = CitizenRecord(
    citizenId: int, lastname: Option<string>, firstname: Option<string>, gender: Option<string>,
    dateOfBirth: Birthdate, servicesAvailed: Option<seq<string>>, address: Option<string>)

  const NoCitizens := "No citizens found."
  const NoServices := "No services availed"

  /** The comparator `b.citizen_id - a.citizen_id` as a key sorted descending. */
  function IdKey(c: CitizenRecord): Key
  {
    NumKey(c.citizenId)
  }

  /** The services cell: the service names joined by ", ", or the default for none. */
  function ServicesCell(services: Option<seq<string>>): string
  {
    if services.Some? && |services.value| > 0 then Join(services.value, ", ") else NoServices
  }

  /** The eight cells of one citizen's row. */
  function CitizenRow(c: CitizenRecord, today: Date): Row
  {
    Row([TemplateText(c.lastname), TemplateText(c.firstname), TemplateText(c.gender),
         AgeText(CalculateAge(c.dateOfBirth, today)), ServicesCell(c.servicesAvailed),
         TemplateText(c.address), "View", "Edit"], "")
  }

  /** What displayCitizens puts in the table: the rows of the citizens by descending id, or
      the single placeholder when the body is not a non-empty array (`None` is a body that is
      not an array). */
  function CitizenTable(citizens: Option<seq<CitizenRecord>>, today: Date): seq<Row>
  {
    if citizens.Some? && |citizens.value| > 0 then
      var sorted := Sort(citizens.value, IdKey, false);
      seq(|sorted|, i requires 0 <= i < |sorted| => CitizenRow(sorted[i], today))
    else [Placeholder(NoCitizens)]
  }

  /** The listing: a placeholder alone for no citizens; otherwise one row per citizen, each the
      row of some citizen of the input, with ids never increasing down the table. */
  lemma CitizenTableShape(citizens: Option<seq<CitizenRecord>>, today: Date)
    ensures citizens.None? || citizens.value == [] ==> CitizenTable(citizens, today) == [Placeholder(NoCitizens)]
    ensures citizens.Some? && citizens.value != [] ==>
      var sorted := Sort(citizens.value, IdKey, false);
      |CitizenTable(citizens, today)| == |citizens.value| &&
      multiset(sorted) == multiset(citizens.value) &&
      (forall i :: 0 <= i < |sorted| ==> CitizenTable(citizens, today)[i] == CitizenRow(sorted[i], today)) &&
      (forall i, j :: 0 <= i < j < |sorted| ==> sorted[i].citizenId >= sorted[j].citizenId)
  {
    if citizens.Some? && citizens.value != [] {
      var sorted := Sort(citizens.value, IdKey, false);
      SortPermutes(citizens.value, IdKey, false);
      SortSorts(citizens.value, IdKey, false);
      assert |sorted| == |multiset(sorted)| == |citizens.value|;
      forall i, j | 0 <= i < j < |sorted|
        ensures sorted[i].citizenId >= sorted[j].citizenId
      {
        assert !Precedes(IdKey(sorted[j]), IdKey(sorted[i]), false);
      }
    }
  }

  /** displayCitizens(citizens): sort, then build the rows one citizen at a time. */
  method DisplayCitizens(body: TableBody, citizens: Option<seq<CitizenRecord>>, today: Date)
    modifies body
    ensures body.rows == CitizenTable(citizens, today)
  {
    if citizens.Some? && |citizens.value| > 0 {
      var sorted := Sort(citizens.value, IdKey, false);
      var rows: seq<Row> := [];
      var i := 0;
      while i < |sorted|
        invariant 0 <= i <= |sorted|
        invariant |rows| == i && forall k :: 0 <= k < i ==> rows[k] == CitizenRow(sorted[k], today)
      {
        rows := rows + [CitizenRow(sorted[i], today)];
        i := i + 1;
      }
      body.Replace(rows);
    } else {
      body.Replace([Placeholder(NoCitizens)]);
    }
  }

  // ---- Selected services ----

  /** `ids.filter(x => x !== id)`. */
  function Without(ids: seq<int>, id: int): (r: seq<int>)
    ensures |r| <= |ids|
    ensures forall x :: x in r <==> x in ids && x != id
    decreases |ids|
  {
    if ids == [] then [] else (if ids[0] == id then [] else [ids[0]]) + Without(ids[1..], id)
  }

  lemma {:induction false} WithoutAppend(a: seq<int>, b: seq<int>, id: int)
    ensures Without(a + b, id) == Without(a, id) + Without(b, id)
    decreases |a|
  {
    if a == [] {
      assert a + b == b;
    } else {
      var head := if a[0] == id then [] else [a[0]];
      assert (a + b)[1..] == a[1..] + b;
      assert Without(a + b, id) == head + Without(a[1..] + b, id);
      WithoutAppend(a[1..], b, id);
      assert Without(a, id) == head + Without(a[1..], id);
    }
  }

  /** Removing an id undoes adding it, and removes every earlier copy with it. */
  lemma WithoutUndoesPush(ids: seq<int>, id: int)
    ensures Without(ids + [id], id) == Without(ids, id)
  {
    WithoutAppend(ids, [id], id);
  }

  /** `innerHTML.replace(badge, "")`: the first badge with that name goes. */
  function RemoveFirstName(badges: seq<string>, name: string): (r: seq<string>)
    ensures name in badges ==> |r| == |badges| - 1 && multiset(r) == multiset(badges) - multiset{name}
    ensures name !in badges ==> r == badges
    decreases |badges|
  {
    if badges == [] then []
    else if badges[0] == name then assert badges == [badges[0]] + badges[1..]; badges[1..]
    else
      var rest := RemoveFirstName(badges[1..], name);
      assert badges == [badges[0]] + badges[1..];
      assert name in badges <==> name in badges[1..];
      [badges[0]] + rest
  }

  /** A service as the services menu lists it. */
  datatype Service = Service(id: int, name: string)

  /** The module-level `selectedServiceIds` and the badges in `#selected_services`. */
  class ServiceSelection {
    var selectedIds: seq<int>
    var badges: seq<string>

    constructor ()
      ensures selectedIds == [] && badges == []
    {
      selectedIds := [];
      badges := [];
    }

    /** toggleServiceSelection(service, isSelected). `isSelected` is the flag fixed when the
        menu was built, not the current membership. */
    method Toggle(service: Service, isSelected: bool)
      modifies this
      ensures isSelected ==> selectedIds == Without(old(selectedIds), service.id) && badges == RemoveFirstName(old(badges), service.name)
      ensures !isSelected ==> selectedIds == old(selectedIds) + [service.id] && badges == old(badges) + [service.name]
    {
      if isSelected {
        selectedIds := Without(selectedIds, service.id);
        badges := RemoveFirstName(badges, service.name);
      } else {
        selectedIds := selectedIds + [service.id];
        badges := badges + [service.name];
      }
    }
  }

  // ---- Saving a citizen ----

  const SelectRequired := "Please select at least one service."
  const SavedMessage := "Citizen details saved successfully."
  const SaveErrorPrefix := "Error occurred while saving citizen data: "

  /** `JSON.stringify(ids)` for an array of integers. */
  function IdsJson(ids: seq<int>): string
  {
    "[" + Join(seq(|ids|, i requires 0 <= i < |ids| => IntToString(ids[i])), ",") + "]"
  }

  /** The body of a failed save response. */
  datatype SaveJson = SaveJson(message: Option<string>)

  /** What a submission of the citizen form ends in: no request with a notice, or a request
      with the notice its answer brings and whether the list is reloaded. */
  datatype SaveOutcome =
    | NotSent(notice: Notice)
    | Sent(request: Request, notice: Notice, reload: bool)

  /** The submit handler as written: the body is `JSON.stringify(data)` with `data` never
      declared, so building the request options throws before fetchWithAuth is called. */
  function SubmitAsWritten(selected: seq<int>): SaveOutcome
  {
    if |selected| == 0 then NotSent(Failure(SelectRequired, 5))
    else NotSent(Failure(SaveErrorPrefix + "data is not defined", 10))
  }

  /** As written, no citizen is ever saved: every submission ends without a request. */
  lemma SaveNeverSentAsWritten(selected: seq<int>)
    ensures SubmitAsWritten(selected).NotSent?
    ensures selected != [] ==> SubmitAsWritten(selected).notice == Failure(SaveErrorPrefix + "data is not defined", 10)
  {
  }

  /** PUT for an existing citizen (a non-empty hidden id), POST for a new one. */
  function SaveMethod(citizenId: string): string
  {
    if citizenId != "" then "PUT" else "POST"
  }

  /** The submit handler with the collected form object as the body (the evidently intended
      `JSON.stringify(formObject)`); `form` is the form's fields in order. */
  function Submit(selected: seq<int>, citizenId: string, form: Headers, token: Option<string>, response: Response<SaveJson>): (o: SaveOutcome)
    ensures |selected| == 0 <==> o.NotSent?
    ensures o.NotSent? ==> o.notice == Failure(SelectRequired, 5)
    ensures o.Sent? ==>
      o.request.url == "/api/citizen/" + citizenId &&
      o.request.options.httpMethod == Some(if citizenId != "" then "PUT" else "POST") &&
      o.request.options.body == Some(ObjectJson(Assign(form, "services_availed", IdsJson(selected))))
    ensures o.Sent? ==> (o.reload <==> o.notice == Success(SavedMessage, 5))
  {
    if |selected| == 0 then NotSent(Failure(SelectRequired, 5))
    else
      var body := ObjectJson(Assign(form, "services_availed", IdsJson(selected)));
      var request := FetchWithAuth("/api/citizen/" + citizenId,
        RequestOptions(Some(SaveMethod(citizenId)), Some(body), [("Content-Type", "application/json")]), token);
      match response
      case NetworkFailure(reason) => Sent(request, Failure(SaveErrorPrefix + reason, 10), false)
      case Response(status, parsed) =>
        match parsed
        case Unparsable(reason) => Sent(request, Failure(SaveErrorPrefix + reason, 10), false)
        case Parsed(json) =>
          if Ok(status) then Sent(request, Success(SavedMessage, 5), true)
          else Sent(request, Failure("Error: " + TemplateText(json.message), 10), false)
  }

  /** `JSON.stringify` of a flat object of strings (quoting left abstract as the bare text). */
  function ObjectJson(fields: Headers): string
    decreases |fields|
  {
    if fields == [] then "{}"
    else "{" + Members(fields) + "}"
  }

  function Members(fields: Headers): string
    decreases |fields|
  {
    if fields == [] then ""
    else
      var m := "\"" + fields[0].0 + "\":\"" + fields[0].1 + "\"";
      if |fields| == 1 then m else m + "," + Members(fields[1..])
  }

  /** The corrected handler agrees with the written one when nothing is selected, and is the
      one that sends a request, with the Content-Type the caller asked for, when something is. */
  lemma SubmitCorrected(selected: seq<int>, citizenId: string, form: Headers, token: Option<string>, response: Response<SaveJson>)
    ensures selected == [] ==> Submit(selected, citizenId, form, token, response) == SubmitAsWritten(selected)
    ensures selected != [] ==>
      var o := Submit(selected, citizenId, form, token, response);
      o.Sent? && Lookup(o.request.options.headers, "Content-Type") == Some("application/json") &&
      Lookup(o.request.options.headers, "Accept") == Some("application/json")
  {
    if selected != [] {
      var extra: Headers := [("Content-Type", "application/json")];
      SpreadLookup(DefaultHeaders(token), extra, "Content-Type");
      SpreadLookup(DefaultHeaders(token), extra, "Accept");
    }
  }

  /** The submit handler with its button: a spinner while saving, "Save" again at the end. */
  method SubmitForm(button: Button, selection: ServiceSelection, citizenId: string, form: Headers,
                    token: Option<string>, response: Response<SaveJson>)
    returns (o: SaveOutcome)
    modifies button
    ensures o == Submit(selection.selectedIds, citizenId, form, token, response)
    ensures !button.disabled && button.content == Caption("Save")
  {
    button.ShowBusy("Saving...");
    o := Submit(selection.selectedIds, citizenId, form, token, response);
    button.Restore("Save");
  }

  // ---- sortTable ----

  /** `row.cells[0].textContent.trim()`. */
  function LastNameKey(r: Row): Key
  {
    TextKey(if |r.cells| > 0 then Trim(r.cells[0]) else "")
  }

  /** sortTable(order): by last name, ascending only for "Ascending". Reading the first cell of
      a row without cells throws, so every row must have one once there are two rows to
      compare; a lone row is never compared and stays as it is. */
  method SortTable(body: TableBody, order: string)
    requires |body.rows| <= 1 || forall r :: r in body.rows ==> |r.cells| > 0
    modifies body
    ensures body.rows == Sort(old(body.rows), LastNameKey, order == "Ascending")
    ensures |old(body.rows)| <= 1 ==> body.rows == old(body.rows)
  {
    body.SortBy(LastNameKey, order == "Ascending");
  }

  /** The sorted table keeps every row, and each row's last name does not order before the
      previous row's in the requested direction. */
  lemma SortTableOrders(rows: seq<Row>, order: string)
    ensures multiset(Sort(rows, LastNameKey, order == "Ascending")) == multiset(rows)
    ensures var s := Sort(rows, LastNameKey, order == "Ascending");
      forall i, j :: 0 <= i < j < |s| ==>
        if order == "Ascending" then !TextLess(LastNameKey(s[j]).s, LastNameKey(s[i]).s)
        else !TextLess(LastNameKey(s[i]).s, LastNameKey(s[j]).s)
  {
    SortPermutes(rows, LastNameKey, order == "Ascending");
    SortSorts(rows, LastNameKey, order == "Ascending");
  }
}
