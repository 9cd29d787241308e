/** The response formatters (`format_*`). Each returns the triple
    (readable output, context, raw result). Rendering a table with
    `tableToMarkdown` is outside the model: the readable output records the
    title and headers it is called with, and the rows are the context's. */
module Formatters {
  import opened PyValues
  import Text

  datatype Readable =
    | Message(text: string)                                    // a literal string instead of a table
    | Table(title: string, headers: Option<seq<string>>)      // tableToMarkdown(title, rows, headers)

  datatype Output = Output(readable: Readable, context: map<string, Value>, raw: Value)

  /** `format_date`, which depends on the local time zone: a parameter of the model.
      It may raise, as it does on a missing timestamp. */
  type DateFormatter = Value -> Result<Value>

  const NoData := "No data to show."
  const NothingToShow := "Nothing to show"

  /** One entry of a context row, computed from the formatted object. */
  datatype Column =
    | Copy(name: string, src: string)        // 'name': obj.get(src)
    | Date(name: string, src: string)        // 'name': format_date(obj.get(src))
    | Link(name: string, src: string)        // 'name': obj.get(src).get('link')
    | LinkOrNone(name: string, src: string)  // 'name': obj.get(src).get('link') if obj.get(src) else None
    | LinkIfSet(name: string, src: string)   // if obj.get(src): row['name'] = obj.get(src).get('link')

  /** The entry a column contributes: `None` when it adds no key; an error when
      `.get('link')` is called on something that is not a dict. */
  function CellOf(obj: Item, c: Column, date: DateFormatter): Result<Option<Value>> {
    match c
    case Copy(_, src) => Ok(Some(Get(obj, src)))
    case Date(_, src) =>
      var d :- date(Get(obj, src));
      Ok(Some(d))
    case Link(_, src) =>
      var l :- AttrGet(Get(obj, src), "link");
      Ok(Some(l))
    case LinkOrNone(_, src) =>
      if Truthy(Get(obj, src)) then
        var l :- AttrGet(Get(obj, src), "link");
        Ok(Some(l))
      else Ok(Some(Null))
    case LinkIfSet(_, src) =>
      if Truthy(Get(obj, src)) then
        var l :- AttrGet(Get(obj, src), "link");
        Ok(Some(l))
      else Ok(None)
  }

  /** The context row built from an object, column by column. */
  function ProjectRow(obj: Item, cols: seq<Column>, date: DateFormatter): Result<Item> {
    if cols == [] then Ok(map[])
    else
      var cell :- CellOf(obj, cols[0], date);
      var rest :- ProjectRow(obj, cols[1..], date);
      Ok(if cell.Some? then map[cols[0].name := cell.value] + rest else rest)
  }

  predicate DistinctNames(cols: seq<Column>) {
    forall i, j :: 0 <= i < j < |cols| ==> cols[i].name != cols[j].name
  }

  /** A row is built exactly when every column can be computed. */
  lemma {:induction false} ProjectRowOk(obj: Item, cols: seq<Column>, date: DateFormatter)
    ensures ProjectRow(obj, cols, date).Ok? <==> forall i :: 0 <= i < |cols| ==> CellOf(obj, cols[i], date).Ok?
  {
    if cols != [] {
      ProjectRowOk(obj, cols[1..], date);
      assert forall i :: 1 <= i < |cols| ==> cols[i] == cols[1..][i - 1];
    }
  }

  /** The row's keys are the names of the columns that contribute an entry, each
      holding what its column computed. */
  lemma {:induction false} ProjectRowFields(obj: Item, cols: seq<Column>, date: DateFormatter)
    requires DistinctNames(cols)
    requires ProjectRow(obj, cols, date).Ok?
    ensures forall i :: 0 <= i < |cols| ==> CellOf(obj, cols[i], date).Ok?
    ensures forall k :: k in ProjectRow(obj, cols, date).value <==>
      exists i :: 0 <= i < |cols| && cols[i].name == k && CellOf(obj, cols[i], date).value.Some?
    ensures forall i :: 0 <= i < |cols| && CellOf(obj, cols[i], date).value.Some? ==>
      ProjectRow(obj, cols, date).value[cols[i].name] == CellOf(obj, cols[i], date).value.value
  {
    ProjectRowOk(obj, cols, date);
    if cols != [] {
      var tail := cols[1..];
      assert DistinctNames(tail) by {
        forall i, j | 0 <= i < j < |tail|
          ensures tail[i].name != tail[j].name
        {
          assert tail[i] == cols[i + 1] && tail[j] == cols[j + 1];
        }
      }
      ProjectRowFields(obj, tail, date);
      assert forall i :: 1 <= i < |cols| ==> cols[i] == tail[i - 1];
      var row := ProjectRow(obj, cols, date).value;
      var rest := ProjectRow(obj, tail, date).value;
      forall k
        ensures k in row <==> exists i :: 0 <= i < |cols| && cols[i].name == k && CellOf(obj, cols[i], date).value.Some?
      {
        if k in rest {
          var i :| 0 <= i < |tail| && tail[i].name == k && CellOf(obj, tail[i], date).value.Some?;
          assert cols[i + 1] == tail[i];
        }
        if exists i :: 0 <= i < |cols| && cols[i].name == k && CellOf(obj, cols[i], date).value.Some? {
          var i :| 0 <= i < |cols| && cols[i].name == k && CellOf(obj, cols[i], date).value.Some?;
          if i > 0 {
            assert tail[i - 1] == cols[i];
          }
        }
      }
      forall i | 0 <= i < |cols| && CellOf(obj, cols[i], date).value.Some?
        ensures row[cols[i].name] == CellOf(obj, cols[i], date).value.value
      {
        if i > 0 {
          assert tail[i - 1] == cols[i];
          assert cols[i].name != cols[0].name;
        } else {
          forall j | 0 <= j < |tail|
            ensures tail[j].name != cols[0].name
          {
            assert tail[j] == cols[j + 1];
          }
        }
      }
    }
  }

  /** The row built for one listed element: the first column's `item.get(...)`
      raises AttributeError on anything but a dict. */
  function RowOf(v: Value, cols: seq<Column>, date: DateFormatter): Result<Value> {
    if v.Object? then
      var row :- ProjectRow(v.fields, cols, date);
      Ok(Object(row))
    else Err(AttributeError)
  }

  /** The rows the loop `for item in entries: printable_result.append({...})` builds
      over a list's elements, one element at a time. */
  function Rows(elems: seq<Value>, cols: seq<Column>, date: DateFormatter): Result<seq<Value>> {
    if elems == [] then Ok([])
    else
      var front :- Rows(elems[..|elems| - 1], cols, date);
      var row :- RowOf(elems[|elems| - 1], cols, date);
      Ok(front + [row])
  }

  /** The same loop over any value: a string yields one-character strings and a
      dict its keys, none of which has `get`; other values are not iterable. */
  function RowsOf(entries: Value, cols: seq<Column>, date: DateFormatter): (r: Result<seq<Value>>)
    ensures entries.List? ==> r == Rows(entries.elems, cols, date)
    ensures !entries.List? && r.Ok? ==> r.value == []
    ensures !entries.List? && Truthy(entries) ==> r.Err?
    ensures !(entries.List? || entries.Str? || entries.Object?) ==> r == Err(TypeError)
    ensures (entries.Str? || entries.Object?) && r.Err? ==> r.error == AttributeError
  {
    match entries
    case List(xs) => Rows(xs, cols, date)
    case Str(s) => if s == [] then Ok([]) else Err(AttributeError)
    case Object(m) => if m == map[] then Ok([]) else Err(AttributeError)
    case _ => Err(TypeError)
  }

  /** One row per element, in input order; the list is built exactly when every
      element is a dict whose row can be built. */
  lemma {:induction false} RowsSpec(elems: seq<Value>, cols: seq<Column>, date: DateFormatter)
    ensures Rows(elems, cols, date).Ok? <==>
      forall i :: 0 <= i < |elems| ==> elems[i].Object? && ProjectRow(elems[i].fields, cols, date).Ok?
    ensures Rows(elems, cols, date).Ok? ==>
      |Rows(elems, cols, date).value| == |elems| &&
      forall i :: 0 <= i < |elems| ==> Rows(elems, cols, date).value[i] == Object(ProjectRow(elems[i].fields, cols, date).value)
  {
    if elems != [] {
      var front := elems[..|elems| - 1];
      RowsSpec(front, cols, date);
      assert forall i :: 0 <= i < |front| ==> front[i] == elems[i];
    }
  }

  /** Once a prefix of the elements fails, the whole list fails the same way. */
  lemma {:induction false} RowsPrefixErr(elems: seq<Value>, n: nat, cols: seq<Column>, date: DateFormatter)
    requires n <= |elems|
    requires Rows(elems[..n], cols, date).Err?
    ensures Rows(elems, cols, date) == Rows(elems[..n], cols, date)
    decreases |elems| - n
  {
    if n < |elems| {
      assert elems[..n + 1][..n] == elems[..n];
      RowsPrefixErr(elems, n + 1, cols, date);
    } else {
      assert elems[..n] == elems;
    }
  }

  /** The loop stops at the first element whose row fails, with that element's
      exception, whatever the elements after it are. */
  lemma RowsFirstErr(elems: seq<Value>, n: nat, cols: seq<Column>, date: DateFormatter)
    requires n < |elems|
    requires forall i :: 0 <= i < n ==> RowOf(elems[i], cols, date).Ok?
    requires RowOf(elems[n], cols, date).Err?
    ensures Rows(elems, cols, date) == Err(RowOf(elems[n], cols, date).error)
  {
    var front := elems[..n];
    RowsSpec(front, cols, date);
    assert forall i :: 0 <= i < n ==> front[i] == elems[i];
    assert elems[..n + 1][..n] == front;
    RowsPrefixErr(elems, n + 1, cols, date);
  }

  /** The imperative row-building loop of the list formatters. */
  method BuildRows(elems: seq<Value>, cols: seq<Column>, date: DateFormatter) returns (r: Result<seq<Value>>)
    ensures r == Rows(elems, cols, date)
  {
    var printable: seq<Value> := [];
    for i := 0 to |elems|
      invariant Rows(elems[..i], cols, date) == Ok(printable)
    {
      assert elems[..i + 1][..i] == elems[..i];
      if !elems[i].Object? {
        RowsPrefixErr(elems, i + 1, cols, date);
        return Err(AttributeError);
      }
      var row := ProjectRow(elems[i].fields, cols, date);
      if row.Err? {
        RowsPrefixErr(elems, i + 1, cols, date);
        return Err(row.error);
      }
      printable := printable + [Object(row.value)];
    }
    assert elems[..|elems|] == elems;
    return Ok(printable);
  }

  /** The list formatters. */
  datatype ListKind =
    | PolicyList            // format_list_policies
    | MethodList            // format_list_policy_methods
    | FileTypeList          // format_list_policy_file_type
    | HostnameList          // format_policy_hostnames_command
    | BlockingSettingList(endpoint: string)  // format_policy_blocking_settings_list_command
    | UrlList               // format_list_policy_urls_command
    | CookieList            // format_list_cookies
    | WhitelistIpList       // format_policy_whitelist_ips_command

  /** Whether the formatter first returns on an empty response and then rebinds
      `result` to the response's `items`, which it returns as the raw result. */
  predicate RebindsToItems(k: ListKind) {
    !(k.HostnameList? || k.BlockingSettingList? || k.UrlList?)
  }

  function ListEmptyText(k: ListKind): string {
    if RebindsToItems(k) then NoData else NothingToShow
  }

  /** `references` in the blocking-settings formatters: the item field holding each
      endpoint's reference link (`references.get(endpoint)`). */
  function ReferenceField(endpoint: string): Option<string> {
    if endpoint == "evasions" then Some("evasionReference")
    else if endpoint == "violations" then Some("violationReference")
    else if endpoint == "web-services-securities" then Some("webServicesSecurityReference")
    else if endpoint == "http-protocols" then Some("httpProtocolReference")
    else None
  }

  /** `if reference_link: row['reference'] = reference_link.get('link')`; an endpoint
      with no mapped field reads `item.get(None)`, which is `None`. */
  function ReferenceColumn(endpoint: string): seq<Column> {
    match ReferenceField(endpoint)
    case Some(f) => [LinkIfSet("reference", f)]
    case None => []
  }

  const BlockingSettingsFields: seq<Column> := [
    Copy("description", "description"), Copy("learn", "learn"), Copy("alarm", "alarm"),
    Copy("block", "block"), Copy("id", "id"), Copy("kind", "kind"), Copy("enabled", "enabled"),
    Copy("self-link", "selfLink")]

  const UrlColumns: seq<Column> := [
    Copy("id", "id"), Copy("name", "name"), Copy("description", "description"),
    Copy("protocol", "protocol"), Copy("type", "type"), Copy("method", "method"),
    Copy("is-allowed", "isAllowed"), Copy("clickjacking-protection", "clickjackingProtection"),
    Copy("perform-staging", "performStaging"), Copy("mandatory-body", "mandatoryBody"),
    Copy("self-link", "selfLink"), Date("last-update", "lastUpdateMicros")]

  const UrlHeaders: seq<string> := [
    "id", "name", "description", "protocol", "type", "method", "is-allowed",
    "clickjacking-protection", "perform-staging", "mandatory-body", "self-link", "last-update"]

  const HostnameColumns: seq<Column> := [
    Copy("name", "name"), Copy("id", "id"), Copy("created-by", "createdBy"),
    Copy("self-link", "selfLink"), Copy("include-subdomains", "includeSubdomains"),
    Date("last-update", "lastUpdateMicros")]

  const HostnameHeaders: seq<string> := [
    "id", "name", "created-by", "include-subdomains", "kind", "self-link", "last-update"]

  const BlockingSettingsHeaders: seq<string> := [
    "id", "description", "enabled", "learn", "alarm", "block", "kind", "reference",
    "self-link", "section-reference", "last-update"]

  const WhitelistIpColumns: seq<Column> := [
    Copy("id", "id"), Copy("self-link", "selfLink"), Copy("ip-address", "ipAddress"),
    Copy("ip-mask", "ipMask"), Copy("description", "description"),
    Copy("block-requests", "blockRequests"), Copy("ignore-anomalies", "ignoreAnomalies"),
    Copy("never-log-requests", "neverLogRequests"), Copy("never-learn-requests", "neverLearnRequests"),
    Copy("trusted-by-policy-builder", "trustedByPolicyBuilder"), Date("last-update", "lastUpdateMicros")]

  const WhitelistIpHeaders: seq<string> := [
    "id", "ip-address", "ip-mask", "description", "block-requests", "ignore-anomalies",
    "never-log-requests", "never-learn-requests", "trusted-by-policy-builder", "self-link", "last-update"]

  function ListColumns(k: ListKind): seq<Column> {
    match k
    case PolicyList => [
      Copy("name", "name"), Copy("id", "id"), Copy("type", "type"),
      Copy("creator-name", "creatorName"), Copy("created-time", "createdDatetime"),
      Copy("enforcement-mode", "enforcementMode"), Copy("active", "active")]
    case MethodList => [
      Copy("name", "name"), Copy("act-as-method", "actAsMethod"), Copy("id", "id"),
      Copy("self-link", "selfLink"), Copy("kind", "kind"), Date("last-updated", "lastUpdateMicros")]
    case FileTypeList => [
      Copy("name", "name"), Copy("id", "id"), Copy("self-link", "selfLink"),
      Copy("query-string-length", "queryStringLength"), Copy("check-request-length", "checkRequestLength"),
      Copy("kind", "kind"), Copy("allowed", "allowed"), Date("last-updated", "lastUpdateMicros")]
    case HostnameList => HostnameColumns
    case BlockingSettingList(endpoint) =>
      BlockingSettingsFields + SectionAndUpdate() + ReferenceColumn(endpoint)
    case UrlList => UrlColumns
    case CookieList => [
      Copy("name", "name"), Copy("id", "id"), Copy("self-link", "selfLink"),
      Copy("enforcement-type", "enforcementType"), Copy("perform-staging", "performStaging"),
      Copy("kind", "kind"), Copy("is-base-64", "isBase64"), Copy("created-by", "createdBy")]
    case WhitelistIpList => WhitelistIpColumns
  }

  function ListKey(k: ListKind): string {
    match k
    case PolicyList => "f5.ListPolicies(val.uid && val.uid == obj.uid)"
    case MethodList => "f5.PolicyMethods(val.uid && val.uid == obj.uid)"
    case FileTypeList => "f5.FileTypes(val.uid && val.uid == obj.uid)"
    case HostnameList => "f5.Hostname(val.uid && val.uid == obj.uid)"
    case BlockingSettingList(_) => "f5.BlockingSettings(val.uid && val.uid == obj.uid)"
    case UrlList => "f5.Url(val.uid && val.uid == obj.uid)"
    case CookieList => "f5.Cookies(val.uid && val.uid == obj.uid)"
    case WhitelistIpList => "f5.WhitelistIP(val.uid && val.uid == obj.uid)"
  }

  function ListTitle(k: ListKind): string {
    match k
    case PolicyList => "f5 data for listing policies:"
    case MethodList => "f5 data for listing all policy methods:"
    case FileTypeList => "Listing all f5 file type:"
    case HostnameList => "f5 information about hosts"
    case BlockingSettingList(endpoint) => Text.Capitalize(endpoint) + " for selected policy"
    case UrlList => "URL for selected policy"
    case CookieList => "f5 data for policy cookies:"
    case WhitelistIpList => "f5 data for resource whitelisted IPs:"
  }

  function ListHeaders(k: ListKind): seq<string> {
    match k
    case PolicyList => ["name", "id", "type", "enforcement-mode", "creator-name", "active", "created-time"]
    case MethodList => ["name", "act-as-method", "id", "self-link", "kind", "last-updated"]
    case FileTypeList => [
      "name", "id", "self-link", "query-string-length", "check-request-length", "kind", "allowed", "last-updated"]
    case HostnameList => HostnameHeaders
    case BlockingSettingList(_) => BlockingSettingsHeaders
    case UrlList => UrlHeaders
    case CookieList => [
      "name", "id", "self-link", "enforcement-type", "perform-staging", "kind", "is-base-64", "created-by"]
    case WhitelistIpList => WhitelistIpHeaders
  }

  /** What a list formatter returns for a listing response. */
  function ListOutput(k: ListKind, result: Item, date: DateFormatter): Result<Output> {
    if RebindsToItems(k) && result == map[] then Ok(Output(Message(NoData), map[], Object(result)))
    else
      var entries := Get(result, "items");
      var raw := if RebindsToItems(k) then entries else Object(result);
      if !Truthy(entries) then Ok(Output(Message(ListEmptyText(k)), map[], raw))
      else
        var rows :- RowsOf(entries, ListColumns(k), date);
        Ok(Output(Table(ListTitle(k), Some(ListHeaders(k))), map[ListKey(k) := List(rows)], raw))
  }

  /** An empty response or a falsy `items` gives the formatter's "no data" text and an
      empty context; three formatters say "Nothing to show", the others "No data to show.".
      The raw result is the response, or its `items` for the formatters that rebind it. */
  lemma ListOutputEmpty(k: ListKind, result: Item, date: DateFormatter)
    requires result == map[] || !Truthy(Get(result, "items"))
    ensures ListOutput(k, result, date).Ok?
    ensures ListOutput(k, result, date).value.readable == Message(ListEmptyText(k))
    ensures ListOutput(k, result, date).value.context == map[]
    ensures ListEmptyText(k) == NothingToShow <==> k.HostnameList? || k.BlockingSettingList? || k.UrlList?
    ensures ListOutput(k, result, date).value.raw ==
      (if RebindsToItems(k) && result != map[] then Get(result, "items") else Object(result))
  {
  }

  /** Otherwise the context holds one key, whose value lists one row per item, in order;
      the raw result is the `items` list or the response, as for the empty case. */
  lemma ListOutputRows(k: ListKind, result: Item, date: DateFormatter, elems: seq<Value>)
    requires Get(result, "items") == List(elems) && elems != []
    requires forall i :: 0 <= i < |elems| ==> RowOf(elems[i], ListColumns(k), date).Ok?
    ensures ListOutput(k, result, date).Ok?
    ensures ListOutput(k, result, date).value.context.Keys == {ListKey(k)}
    ensures var rows := ListOutput(k, result, date).value.context[ListKey(k)];
      rows.List? && |rows.elems| == |elems| &&
      forall i :: 0 <= i < |elems| ==> rows.elems[i] == RowOf(elems[i], ListColumns(k), date).value
    ensures ListOutput(k, result, date).value.raw == (if RebindsToItems(k) then List(elems) else Object(result))
  {
    RowsSpec(elems, ListColumns(k), date);
  }

  /** A listing whose elements are not all dicts with buildable rows raises the
      exception of the first element that fails, as the loop reaches it. */
  lemma ListOutputFirstErr(k: ListKind, result: Item, date: DateFormatter, elems: seq<Value>, n: nat)
    requires Get(result, "items") == List(elems)
    requires n < |elems|
    requires forall i :: 0 <= i < n ==> RowOf(elems[i], ListColumns(k), date).Ok?
    requires RowOf(elems[n], ListColumns(k), date).Err?
    ensures ListOutput(k, result, date) == Err(RowOf(elems[n], ListColumns(k), date).error)
  {
    RowsFirstErr(elems, n, ListColumns(k), date);
  }

  /** A blocking-settings row carries `reference` exactly when the item has a truthy
      value in the field the endpoint maps to, and `section-reference` always. */
  lemma BlockingSettingsReference(endpoint: string, item: Item, date: DateFormatter)
    requires ProjectRow(item, ListColumns(BlockingSettingList(endpoint)), date).Ok?
    ensures var row := ProjectRow(item, ListColumns(BlockingSettingList(endpoint)), date).value;
      && ("reference" in row <==> ReferenceField(endpoint).Some? && Truthy(Get(item, ReferenceField(endpoint).value)))
      && "section-reference" in row
      && (Truthy(Get(item, "sectionReference")) ==>
            Ok(row["section-reference"]) == AttrGet(Get(item, "sectionReference"), "link"))
      && (!Truthy(Get(item, "sectionReference")) ==> row["section-reference"] == Null)
  {
    var fields := BlockingSettingsFields;
    var middle := SectionAndUpdate();
    var refs := ReferenceColumn(endpoint);
    assert ListColumns(BlockingSettingList(endpoint)) == fields + middle + refs;
    ProjectRowAppend(item, fields + middle, refs, date);
    ProjectRowAppend(item, fields, middle, date);
    ProjectRowKeys(item, fields, date);
    FieldNamesAreLiteral();
    SectionAndUpdateRow(item, date);
    ReferenceRow(endpoint, item, date);
  }

  /** The two columns the blocking-settings list adds after the literal fields. */
  function SectionAndUpdate(): seq<Column> {
    [LinkOrNone("section-reference", "sectionReference"), Date("last-update", "lastUpdateMicros")]
  }

  lemma FieldNamesAreLiteral()
    ensures "reference" !in Names(BlockingSettingsFields)
    ensures "section-reference" !in Names(BlockingSettingsFields)
  {
    var fields := BlockingSettingsFields;
    assert forall i :: 0 <= i < |fields| ==> fields[i].name != "reference" && fields[i].name != "section-reference";
    NotInNames(fields, "reference");
    NotInNames(fields, "section-reference");
  }

  lemma {:induction false} NotInNames(cols: seq<Column>, n: string)
    requires forall i :: 0 <= i < |cols| ==> cols[i].name != n
    ensures n !in Names(cols)
  {
    if cols != [] {
      assert forall i :: 0 <= i < |cols[1..]| ==> cols[1..][i] == cols[i + 1];
      NotInNames(cols[1..], n);
    }
  }

  lemma SectionAndUpdateRow(item: Item, date: DateFormatter)
    requires ProjectRow(item, SectionAndUpdate(), date).Ok?
    ensures var row := ProjectRow(item, SectionAndUpdate(), date).value;
      && row.Keys == {"section-reference", "last-update"}
      && (Truthy(Get(item, "sectionReference")) ==>
            Ok(row["section-reference"]) == AttrGet(Get(item, "sectionReference"), "link"))
      && (!Truthy(Get(item, "sectionReference")) ==> row["section-reference"] == Null)
  {
    var cols := SectionAndUpdate();
    var last := [Date("last-update", "lastUpdateMicros")];
    assert cols[1..] == last;
    assert last[1..] == [];
    assert ProjectRow(item, last, date).Ok?;
    assert date(Get(item, "lastUpdateMicros")).Ok?;
    var m := map["last-update" := date(Get(item, "lastUpdateMicros")).value];
    assert m + map[] == m;
    assert ProjectRow(item, last, date) == Ok(m);
  }

  lemma ReferenceRow(endpoint: string, item: Item, date: DateFormatter)
    requires ProjectRow(item, ReferenceColumn(endpoint), date).Ok?
    ensures var row := ProjectRow(item, ReferenceColumn(endpoint), date).value;
      && ("reference" in row <==> ReferenceField(endpoint).Some? && Truthy(Get(item, ReferenceField(endpoint).value)))
      && row.Keys <= {"reference"}
  {
    if ReferenceField(endpoint).Some? {
      assert ReferenceColumn(endpoint)[1..] == [];
    }
  }

  /** The names of the columns. */
  function Names(cols: seq<Column>): set<string> {
    if cols == [] then {} else {cols[0].name} + Names(cols[1..])
  }

  /** A row only has keys named by its columns. */
  lemma {:induction false} ProjectRowKeys(obj: Item, cols: seq<Column>, date: DateFormatter)
    requires ProjectRow(obj, cols, date).Ok?
    ensures ProjectRow(obj, cols, date).value.Keys <= Names(cols)
  {
    if cols != [] {
      ProjectRowKeys(obj, cols[1..], date);
    }
  }

  /** Building a row from two runs of columns is building each and letting the later
      run's entries win. */
  lemma {:induction false} ProjectRowAppend(obj: Item, a: seq<Column>, b: seq<Column>, date: DateFormatter)
    ensures ProjectRow(obj, a + b, date).Ok? <==> ProjectRow(obj, a, date).Ok? && ProjectRow(obj, b, date).Ok?
    ensures ProjectRow(obj, a + b, date).Ok? ==>
      ProjectRow(obj, a + b, date).value == ProjectRow(obj, a, date).value + ProjectRow(obj, b, date).value
  {
    if a == [] {
      assert a + b == b;
    } else {
      assert (a + b)[0] == a[0];
      assert (a + b)[1..] == a[1..] + b;
      ProjectRowAppend(obj, a[1..], b, date);
    }
  }

  /** The row-building formatter run on a listing response. */
  method FormatList(k: ListKind, result: Item, date: DateFormatter) returns (out: Result<Output>)
    ensures out == ListOutput(k, result, date)
  {
    if RebindsToItems(k) && result == map[] {
      return Ok(Output(Message(NoData), map[], Object(result)));
    }
    var entries := Get(result, "items");
    var raw := if RebindsToItems(k) then entries else Object(result);
    if !Truthy(entries) {
      return Ok(Output(Message(ListEmptyText(k)), map[], raw));
    }
    var cols := ListColumns(k);
    if !entries.List? {
      assert RowsOf(entries, cols, date) == Err(if entries.Str? || entries.Object? then AttributeError else TypeError);
      return Err(if entries.Str? || entries.Object? then AttributeError else TypeError);
    }
    assert RowsOf(entries, cols, date) == Rows(entries.elems, cols, date);
    var rows :- BuildRows(entries.elems, cols, date);
    return Ok(Output(Table(ListTitle(k), Some(ListHeaders(k))), map[ListKey(k) := List(rows)], raw));
  }

  /** The formatters of a single object. */
  datatype SingleKind =
    | ApplyTask                              // format_apply_policy
    | ExportTask                             // format_export_policy
    | DeletedPolicy                          // format_delete_policy
    | MethodEntry                            // format_policy_methods_command
    | FileTypeEntry                          // format_file_type_command
    | HostnameEntry                          // format_policy_hostname_command
    | BlockingSettingEntry(endpoint: string) // format_policy_blocking_settings_single_command
    | UrlEntry                               // format_policy_url_command
    | CookieEntry(action: string)            // format_cookies_command
    | WhitelistIpEntry(action: string)       // format_policy_whitelist_ip_command

  /** The text returned for an empty response, or `None` for the two formatters
      that have no such check. */
  function SingleEmptyText(k: SingleKind): Option<string> {
    match k
    case HostnameEntry => Some(NothingToShow)
    case BlockingSettingEntry(_) => None
    case UrlEntry => None
    case _ => Some(NoData)
  }

  function SingleColumns(k: SingleKind): seq<Column> {
    match k
    case ApplyTask => [
      Link("policy-reference", "policyReference"), Copy("status", "status"), Copy("id", "id"),
      Copy("start-time", "startTime"), Copy("kind", "kind")]
    case ExportTask => [
      Copy("status", "status"), Copy("id", "id"), Copy("start-time", "startTime"),
      Copy("kind", "kind"), Copy("format", "format"), Copy("filename", "filename")]
    case DeletedPolicy => [Copy("name", "name"), Copy("id", "id"), Copy("self-link", "selfLink")]
    case MethodEntry => [
      Copy("name", "name"), Copy("id", "id"), Copy("act-as-method", "actAsMethod"),
      Copy("self-link", "selfLink"), Copy("kind", "kind")]
    case FileTypeEntry => [
      Copy("name", "name"), Copy("id", "id"), Copy("self-link", "selfLink"),
      Copy("query-string-length", "queryStringLength"), Copy("check-request-length", "checkRequestLength"),
      Copy("response-check", "responseCheck"), Copy("check-url-length", "checkUrlLength"),
      Copy("post-data-length", "postDataLength"), Copy("url-length", "urlLength"),
      Copy("perform-staging", "performStaging"), Copy("allowed", "allowed"),
      Date("last-updated", "lastUpdateMicros")]
    case HostnameEntry => HostnameColumns
    case BlockingSettingEntry(endpoint) =>
      BlockingSettingsFields +
      [Date("last-update", "lastUpdateMicros"), LinkIfSet("section-reference", "sectionReference")] +
      ReferenceColumn(endpoint)
    case UrlEntry => UrlColumns
    case CookieEntry(_) => [
      Copy("name", "name"), Copy("id", "id"), Copy("self-link", "selfLink"),
      Copy("enforcement-type", "enforcementType"), Copy("perform-staging", "performStaging"),
      Copy("type", "type"), Copy("is-base-64", "isBase64"), Copy("created-by", "createdBy")]
    case WhitelistIpEntry(_) => WhitelistIpColumns
  }

  function SingleKey(k: SingleKind): string {
    match k
    case ApplyTask => "f5.ApplyPolicy(val.uid && val.uid == obj.uid)"
    case ExportTask => "f5.ExportPolicy(val.uid && val.uid == obj.uid)"
    case DeletedPolicy => "f5.delete-policy(val.uid && val.uid == obj.uid)"
    case MethodEntry => "f5.PolicyMethods(val.uid && val.uid == obj.uid)"
    case FileTypeEntry => "f5.FileType(val.uid && val.uid == obj.uid)"
    case HostnameEntry => "f5.Hostname(val.uid && val.uid == obj.uid)"
    case BlockingSettingEntry(_) => "f5.BlockingSettings(val.uid && val.uid == obj.uid)"
    case UrlEntry => "f5.Url(val.uid && val.uid == obj.uid)"
    case CookieEntry(_) => "f5.Cookies(val.uid && val.uid == obj.uid)"
    case WhitelistIpEntry(_) => "f5.WhitelistIP(val.uid && val.uid == obj.uid)"
  }

  function SingleTitle(k: SingleKind): string {
    match k
    case ApplyTask => "f5 data for applying policy:"
    case ExportTask => "f5 data for exporting policy:"
    case DeletedPolicy => "f5 data for deleting policy:"
    case MethodEntry => "f5 data for policy methods:"
    case FileTypeEntry => "f5 data for file types:"
    case HostnameEntry => "f5 information about hosts"
    case BlockingSettingEntry(endpoint) => "Modified " + endpoint
    case UrlEntry => "URL for selected policy"
    case CookieEntry(action) => "f5 data for " + action + " policy cookies:"
    case WhitelistIpEntry(action) => "f5 data for " + action + " resource whitelisted IP:"
  }

  function SingleHeaders(k: SingleKind): Option<seq<string>> {
    match k
    case ApplyTask => None
    case ExportTask => None
    case DeletedPolicy => Some(["name", "id", "self-link"])
    case MethodEntry => Some(["name", "act-as-method", "id", "self-link", "kind"])
    case FileTypeEntry => Some([
      "name", "id", "self-link", "query-string-length", "check-request-length", "response-check",
      "check-url-length", "url-length", "post-data-length", "perform-staging", "allowed", "last-updated"])
    case HostnameEntry => Some(HostnameHeaders)
    case BlockingSettingEntry(_) => Some(BlockingSettingsHeaders)
    case UrlEntry => Some(UrlHeaders)
    case CookieEntry(_) => Some([
      "name", "id", "self-link", "enforcement-type", "perform-staging", "type", "is-base-64", "created-by"])
    case WhitelistIpEntry(_) => Some(WhitelistIpHeaders)
  }

  /** The export formatter's `outputs['policy-reference'] = policy_reference.get('link')`,
      which lands beside the namespaced key rather than inside its row. */
  function ExportExtra(k: SingleKind, result: Item): Result<map<string, Value>> {
    if k == ExportTask && Truthy(Get(result, "policyReference")) then
      var l :- AttrGet(Get(result, "policyReference"), "link");
      Ok(map["policy-reference" := l])
    else Ok(map[])
  }

  /** What a single-object formatter returns for a response. */
  function SingleOutput(k: SingleKind, result: Item, date: DateFormatter): Result<Output> {
    if SingleEmptyText(k).Some? && result == map[] then
      Ok(Output(Message(SingleEmptyText(k).value), map[], Object(result)))
    else
      var row :- ProjectRow(result, SingleColumns(k), date);
      var extra :- ExportExtra(k, result);
      Ok(Output(Table(SingleTitle(k), SingleHeaders(k)), map[SingleKey(k) := Object(row)] + extra, Object(result)))
  }

  /** A single-object formatter puts its row under one namespaced key, except that the
      export formatter adds a second, top-level `policy-reference` key whenever the
      response has a policy reference; an empty response gives an empty context unless
      the formatter has no emptiness check. The raw result is the response. */
  lemma SingleOutputShape(k: SingleKind, result: Item, date: DateFormatter)
    requires SingleOutput(k, result, date).Ok?
    ensures SingleOutput(k, result, date).value.raw == Object(result)
    ensures SingleOutput(k, result, date).value.context == map[] <==> SingleEmptyText(k).Some? && result == map[]
    ensures !(SingleEmptyText(k).Some? && result == map[]) ==>
      SingleOutput(k, result, date).value.context.Keys ==
        if k == ExportTask && Truthy(Get(result, "policyReference")) then {SingleKey(k), "policy-reference"}
        else {SingleKey(k)}
  {
    if !(SingleEmptyText(k).Some? && result == map[]) {
      var out := SingleOutput(k, result, date).value;
      assert SingleKey(k) in out.context;
    }
  }
}
