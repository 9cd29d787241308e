/** The `f5_*_command` operations of the F5 client: which policy and sub-resource
    each resolves, the request it then sends, and the formatter its response goes
    through; the dispatch of a command name through the commands table; and
    `test_module`'s classification of the server's answer. */
module Commands {
  import opened PyValues
  import opened Dicts
  import opened Http
  import opened Resolvers
  import opened Formatters
  import opened CommandTable
  import opened Invocations
  import Text

  /** Every operation but the three on whole policies first resolves the policy's md5. */
  predicate NeedsPolicy(inv: Invocation) {
    !(inv.ListPolicies? || inv.ApplyPolicy? || inv.ExportPolicy?)
  }

  /** The sub-resource id an operation resolves, and how. */
  datatype IdLookup =
    | ById(action: string, key: string)                 // get_id(md5, key, action)
    | ByDescription(category: string, key: string)      // get_blocking_settings_id(md5, category, key)
    | ByIp(key: string)                                 // get_ip_id(md5, key)

  function LookupOf(inv: Invocation): Option<IdLookup> {
    match inv
    case UpdateMethod(_, name, _) => Some(ById("methods", name))
    case DeleteMethod(_, name) => Some(ById("methods", name))
    case UpdateFileType(_, name, _) => Some(ById("filetypes", name))
    case DeleteFileType(_, name) => Some(ById("filetypes", name))
    case UpdateCookie(_, name, _) => Some(ById("policy-cookies", name))
    case DeleteCookie(_, name) => Some(ById("cookies", name))
    case UpdateHostname(_, name, _) => Some(ById("host-names", name))
    case DeleteHostname(_, name) => Some(ById("host-names", name))
    case UpdateBlockingSetting(_, endpoint, description, _, _, _, _) => Some(ByDescription(endpoint, description))
    case UpdateUrl(_, name, _, _, _, _, _) => Some(ById("urls", name))
    case DeleteUrl(_, name) => Some(ById("urls", name))
    case UpdateWhitelistIp(_, ip, _) => Some(ByIp(ip))
    case DeleteWhitelistIp(_, ip) => Some(ByIp(ip))
    case _ => None
  }

  /** The resolver call, on the listing the transport returns. */
  function ResolvedId(http: Transport, md5: string, l: IdLookup): Result<Value> {
    match l
    case ById(action, key) => IdOf(http, md5, key, action)
    case ByDescription(category, key) => BlockingSettingsIdOf(http, md5, category, key)
    case ByIp(key) => IpIdOf(http, md5, key)
  }

  function VerbOf(inv: Invocation): Verb {
    match inv
    case ApplyPolicy(_) => POST
    case ExportPolicy(_, _, _) => POST
    case DeletePolicy(_) => DELETE
    case AddMethod(_, _, _) => POST
    case UpdateMethod(_, _, _) => PATCH
    case DeleteMethod(_, _) => DELETE
    case AddFileType(_, _, _) => POST
    case UpdateFileType(_, _, _) => PATCH
    case DeleteFileType(_, _) => DELETE
    case AddCookie(_, _, _) => POST
    case UpdateCookie(_, _, _) => PATCH
    case DeleteCookie(_, _) => DELETE
    case AddHostname(_, _, _) => POST
    case UpdateHostname(_, _, _) => PATCH
    case DeleteHostname(_, _) => DELETE
    case UpdateBlockingSetting(_, _, _, _, _, _, _) => PATCH
    case AddUrl(_, _, _, _, _, _, _) => POST
    case UpdateUrl(_, _, _, _, _, _, _) => PATCH
    case DeleteUrl(_, _) => DELETE
    case AddWhitelistIp(_, _, _, _) => POST
    case UpdateWhitelistIp(_, _, _) => PATCH
    case DeleteWhitelistIp(_, _) => DELETE
    case _ => GET
  }

  /** `asm/policies/{md5}/{collection}` */
  function CollectionPath(md5: string, collection: string): seq<Value> {
    PolicyPath(md5) + [Str(collection)]
  }

  /** The URL suffix, given the resolved md5 and sub-resource id. */
  function PathOf(inv: Invocation, md5: string, id: Value): seq<Value> {
    match inv
    case ListPolicies(_, _, _) => [Str("asm"), Str("policies")]
    case ApplyPolicy(_) => [Str("asm"), Str("tasks"), Str("apply-policy")]
    case ExportPolicy(_, _, _) => [Str("asm"), Str("tasks"), Str("export-policy")]
    case DeletePolicy(_) => PolicyPath(md5)
    case ListMethods(_) => CollectionPath(md5, "methods")
    case AddMethod(_, _, _) => CollectionPath(md5, "methods")
    case UpdateMethod(_, _, _) => SubResourcePath(md5, "methods", id)
    case DeleteMethod(_, _) => SubResourcePath(md5, "methods", id)
    case ListFileTypes(_) => CollectionPath(md5, "filetypes")
    case AddFileType(_, _, _) => CollectionPath(md5, "filetypes")
    case UpdateFileType(_, _, _) => SubResourcePath(md5, "filetypes", id)
    case DeleteFileType(_, _) => SubResourcePath(md5, "filetypes", id)
    case ListCookies(_) => CollectionPath(md5, "cookies")
    case AddCookie(_, _, _) => CollectionPath(md5, "cookies")
    case UpdateCookie(_, _, _) => SubResourcePath(md5, "cookies", id)
    case DeleteCookie(_, _) => SubResourcePath(md5, "cookies", id)
    case ListHostnames(_) => CollectionPath(md5, "host-names")
    case AddHostname(_, _, _) => CollectionPath(md5, "host-names")
    case UpdateHostname(_, _, _) => SubResourcePath(md5, "host-names", id)
    case DeleteHostname(_, _) => SubResourcePath(md5, "host-names", id)
    case ListBlockingSettings(_, endpoint) => CollectionPath(md5, "blocking-settings") + [Str(endpoint)]
    case UpdateBlockingSetting(_, endpoint, _, _, _, _, _) =>
      CollectionPath(md5, "blocking-settings") + [Str(endpoint), id]
    case ListUrls(_) => CollectionPath(md5, "urls")
    case AddUrl(_, _, _, _, _, _, _) => CollectionPath(md5, "urls")
    case UpdateUrl(_, _, _, _, _, _, _) => SubResourcePath(md5, "urls", id)
    case DeleteUrl(_, _) => SubResourcePath(md5, "urls", id)
    case ListWhitelistIps(_) => CollectionPath(md5, "whitelist-ips")
    case AddWhitelistIp(_, _, _, _) => CollectionPath(md5, "whitelist-ips") + [Str("")]
    case UpdateWhitelistIp(_, _, _) => SubResourcePath(md5, "whitelist-ips", id)
    case DeleteWhitelistIp(_, _) => SubResourcePath(md5, "whitelist-ips", id)
  }

  function ParamsOf(inv: Invocation): Body {
    match inv
    case ListPolicies(selfLink, kind, items) =>
      [("selfLink", selfLink), ("kind", kind),
       ("items", if items == Null then List([]) else items)]
    case _ => []
  }

  /** `json_body_start` of the operations that send only its non-`None` entries. */
  function StartBody(inv: Invocation): Option<Body> {
    match inv
    case UpdateBlockingSetting(_, _, _, enabled, learn, alarm, block) =>
      Some([("enabled", enabled), ("learn", learn), ("alarm", alarm), ("block", block)])
    case UpdateUrl(_, _, performStaging, description, mandatoryBody, clickjackingProtection, urlIsReferrer) =>
      Some([("performStaging", performStaging), ("description", description), ("mandatoryBody", mandatoryBody),
            ("clickjackingProtection", clickjackingProtection), ("urlIsReferrer", urlIsReferrer)])
    case AddWhitelistIp(_, ip, mask, f) =>
      Some([("ipAddress", Str(ip)), ("ipMask", mask)] + IpFlagsBody(f))
    case UpdateWhitelistIp(_, _, f) => Some(IpFlagsBody(f))
    case _ => None
  }

  /** The flag entries of the whitelisted-IP bodies, in declaration order. */
  function IpFlagsBody(f: IpFlags): Body {
    [("ignoreIpReputation", f.ignoreIntelligence), ("blockRequests", f.blockRequests),
     ("ignoreAnomalies", f.ignoreBruteDetection), ("description", f.description),
     ("neverLearnRequests", f.ignoreLearning), ("neverLogRequests", f.neverLog),
     ("trustedByPolicyBuilder", f.trustedByBuilder)]
  }

  function FileTypeBody(name: string, s: FileTypeSettings): Body {
    [("name", Str(name)), ("queryStringLength", s.queryStringLength),
     ("checkPostDataLength", s.checkPostDataLength), ("responseCheck", s.responseCheck),
     ("checkRequestLength", s.checkRequestLength), ("postDataLength", s.postDataLength),
     ("performStaging", s.performStaging)]
  }

  function PolicyReference(link: Value): Value {
    Object(map["link" := link])
  }

  /** The `json_data` of the operations that send their body as built; `None` for
      the three requests that pass no `json_data`. */
  function LiteralJson(inv: Invocation): Option<Body> {
    match inv
    case ListPolicies(_, _, _) => None
    case ApplyPolicy(link) => Some([("policyReference", PolicyReference(link))])
    case ExportPolicy(filename, minimal, link) =>
      Some([("filename", filename), ("minimal", minimal), ("policyReference", PolicyReference(link))])
    case AddMethod(_, name, act) => Some([("name", Str(name)), ("actAsMethod", Str(Text.Upper(act)))])
    case UpdateMethod(_, name, act) => Some([("name", Str(name)), ("actAsMethod", Str(Text.Upper(act)))])
    case AddFileType(_, name, s) => Some(FileTypeBody(name, s))
    case UpdateFileType(_, name, s) => Some(FileTypeBody(name, s))
    case AddCookie(_, name, staging) => Some([("name", Str(name)), ("performStaging", staging)])
    case UpdateCookie(_, name, staging) => Some([("name", Str(name)), ("performStaging", staging)])
    case AddHostname(_, name, sub) => Some([("name", Str(name)), ("includeSubdomains", sub)])
    case UpdateHostname(_, _, sub) => Some([("includeSubdomains", sub)])
    case DeleteHostname(_, _) => None
    case ListBlockingSettings(_, _) => None
    case AddUrl(_, name, httpMethod, protocol, urlType, description, isAllowed) =>
      Some([("name", Str(name)), ("protocol", protocol), ("description", description),
            ("method", httpMethod), ("type", urlType), ("isAllowed", isAllowed)])
    case _ => Some([])
  }

  function JsonOf(inv: Invocation): Option<Body> {
    if StartBody(inv).Some? then Some(NonNull(StartBody(inv).value)) else LiteralJson(inv)
  }

  /** The request an operation sends, after resolving the policy md5 and then the
      sub-resource id through listings; a resolver's exception stops it. */
  function RequestFor(http: Transport, inv: Invocation): Result<Request> {
    var md5 :- PolicyOf(http, inv);
    var id :- IdFor(http, md5, inv);
    Ok(Request(VerbOf(inv), PathOf(inv, md5, id), ParamsOf(inv), JsonOf(inv)))
  }

  /** Every `json_body_start` has distinct keys, as a dict literal does. */
  lemma StartBodyDistinct(inv: Invocation)
    requires StartBody(inv).Some?
    ensures DistinctKeys(StartBody(inv).value)
  {
    var b := StartBody(inv).value;
    if inv.AddWhitelistIp? {
      assert forall i :: 0 <= i < |b| ==> b[i].0 == ["ipAddress", "ipMask", "ignoreIpReputation", "blockRequests",
        "ignoreAnomalies", "description", "neverLearnRequests", "neverLogRequests", "trustedByPolicyBuilder"][i];
    }
  }

  function PolicyOf(http: Transport, inv: Invocation): Result<string> {
    if NeedsPolicy(inv) then PolicyMd5Of(http, inv.policyName) else Ok("")
  }

  function IdFor(http: Transport, md5: string, inv: Invocation): Result<Value> {
    if LookupOf(inv).Some? then ResolvedId(http, md5, LookupOf(inv).value) else Ok(Null)
  }

  /** The resolver an operation calls, if any. */
  method ResolveId(http: Transport, md5: string, inv: Invocation) returns (r: Result<Value>)
    ensures r == IdFor(http, md5, inv)
  {
    r := Ok(Null);
    if LookupOf(inv).Some? {
      match LookupOf(inv).value
      case ById(action, key) =>
        r := GetId(http, md5, key, action);
      case ByDescription(category, key) =>
        r := GetBlockingSettingsId(http, md5, category, key);
      case ByIp(key) =>
        r := GetIpId(http, md5, key);
    }
  }

  /** The body: the filter loop for the operations that have a `json_body_start`. */
  method BuildJson(inv: Invocation) returns (json: Option<Body>)
    ensures json == JsonOf(inv)
  {
    var start := StartBody(inv);
    if start.Some? {
      StartBodyDistinct(inv);
      var body := FilterNone(start.value);
      return Some(body);
    }
    return LiteralJson(inv);
  }

  /** The operation's steps as the client runs them: the policy lookup, the
      sub-resource lookup, the body, then the request. */
  method Prepare(http: Transport, inv: Invocation) returns (r: Result<Request>)
    ensures r == RequestFor(http, inv)
  {
    var md5 := "";
    if NeedsPolicy(inv) {
      md5 :- GetPolicyMd5(http, inv.policyName);
    }
    assert PolicyOf(http, inv) == Ok(md5);
    var id :- ResolveId(http, md5, inv);
    var json := BuildJson(inv);
    return Ok(Request(VerbOf(inv), PathOf(inv, md5, id), ParamsOf(inv), json));
  }

  /** The formatter each operation returns through. */
  datatype Formatter = ListFormatter(list: ListKind) | SingleFormatter(single: SingleKind)

  function FormatterOf(inv: Invocation): Formatter {
    match inv
    case ListPolicies(_, _, _) => ListFormatter(PolicyList)
    case ApplyPolicy(_) => SingleFormatter(ApplyTask)
    case ExportPolicy(_, _, _) => SingleFormatter(ExportTask)
    case DeletePolicy(_) => SingleFormatter(DeletedPolicy)
    case ListMethods(_) => ListFormatter(MethodList)
    case ListFileTypes(_) => ListFormatter(FileTypeList)
    case ListCookies(_) => ListFormatter(CookieList)
    case AddCookie(_, _, _) => SingleFormatter(CookieEntry("adding"))
    case UpdateCookie(_, _, _) => SingleFormatter(CookieEntry("updating"))
    case DeleteCookie(_, _) => SingleFormatter(CookieEntry("deleting"))
    case ListHostnames(_) => ListFormatter(HostnameList)
    case ListBlockingSettings(_, endpoint) => ListFormatter(BlockingSettingList(endpoint))
    case UpdateBlockingSetting(_, endpoint, _, _, _, _, _) => SingleFormatter(BlockingSettingEntry(endpoint))
    case ListUrls(_) => ListFormatter(UrlList)
    case ListWhitelistIps(_) => ListFormatter(WhitelistIpList)
    case AddWhitelistIp(_, _, _, _) => SingleFormatter(WhitelistIpEntry("created"))
    case UpdateWhitelistIp(_, _, _) => SingleFormatter(WhitelistIpEntry("updated"))
    case DeleteWhitelistIp(_, _) => SingleFormatter(WhitelistIpEntry("deleted"))
    case AddMethod(_, _, _) => SingleFormatter(MethodEntry)
    case UpdateMethod(_, _, _) => SingleFormatter(MethodEntry)
    case DeleteMethod(_, _) => SingleFormatter(MethodEntry)
    case AddFileType(_, _, _) => SingleFormatter(FileTypeEntry)
    case UpdateFileType(_, _, _) => SingleFormatter(FileTypeEntry)
    case DeleteFileType(_, _) => SingleFormatter(FileTypeEntry)
    case AddHostname(_, _, _) => SingleFormatter(HostnameEntry)
    case UpdateHostname(_, _, _) => SingleFormatter(HostnameEntry)
    case DeleteHostname(_, _) => SingleFormatter(HostnameEntry)
    case AddUrl(_, _, _, _, _, _, _) => SingleFormatter(UrlEntry)
    case UpdateUrl(_, _, _, _, _, _, _) => SingleFormatter(UrlEntry)
    case DeleteUrl(_, _) => SingleFormatter(UrlEntry)
  }

  function Format(f: Formatter, response: Item, date: DateFormatter): Result<Output> {
    match f
    case ListFormatter(k) => ListOutput(k, response, date)
    case SingleFormatter(k) => SingleOutput(k, response, date)
  }

  /** The triple an operation returns: its request, the server's answer, the formatter. */
  function Outcome(http: Transport, date: DateFormatter, inv: Invocation): Result<Output> {
    var req :- RequestFor(http, inv);
    Format(FormatterOf(inv), http(req), date)
  }

  method Execute(http: Transport, date: DateFormatter, inv: Invocation) returns (out: Result<Output>)
    ensures out == Outcome(http, date, inv)
  {
    var req :- Prepare(http, inv);
    var response := http(req);
    match FormatterOf(inv)
    case ListFormatter(k) =>
      out := FormatList(k, response, date);
    case SingleFormatter(k) =>
      out := SingleOutput(k, response, date);
  }

  /** An update or delete of a sub-resource resolves the policy md5, then the id in
      the listing of the collection it changes, and targets
      `asm/policies/{md5}/{collection}/{id}`; the cookie update alone lists
      `policy-cookies` but changes `cookies`. Either lookup's exception stops it. */
  lemma SubResourceTarget(http: Transport, inv: Invocation)
    requires LookupOf(inv).Some? && !inv.UpdateBlockingSetting?
    ensures RequestFor(http, inv).Ok? <==>
      PolicyMd5Of(http, inv.policyName).Ok? &&
      ResolvedId(http, PolicyMd5Of(http, inv.policyName).value, LookupOf(inv).value).Ok?
    ensures RequestFor(http, inv).Ok? ==>
      var md5 := PolicyMd5Of(http, inv.policyName).value;
      var l := LookupOf(inv).value;
      var id := ResolvedId(http, md5, l).value;
      var path := RequestFor(http, inv).value.path;
      && (l.ById? && !inv.UpdateCookie? ==> path == SubResourcePath(md5, l.action, id))
      && (inv.UpdateCookie? ==> l == ById("policy-cookies", inv.name) && path == SubResourcePath(md5, "cookies", id))
      && (l.ByIp? ==> l.key == inv.ipAddress && path == SubResourcePath(md5, "whitelist-ips", id))
  {
  }

  /** The blocking-settings update resolves the setting by its description in the
      endpoint's listing and PATCHes `asm/policies/{md5}/blocking-settings/{endpoint}/{id}`. */
  lemma BlockingSettingTarget(http: Transport, inv: Invocation)
    requires inv.UpdateBlockingSetting?
    requires RequestFor(http, inv).Ok?
    ensures PolicyMd5Of(http, inv.policyName).Ok?
    ensures var md5 := PolicyMd5Of(http, inv.policyName).value;
      var id := BlockingSettingsIdOf(http, md5, inv.endpoint, inv.description);
      && id.Ok?
      && RequestFor(http, inv).value.verb == PATCH
      && RequestFor(http, inv).value.path == PolicyPath(md5) + [Str("blocking-settings"), Str(inv.endpoint), id.value]
  {
  }

  /** When the resolver finds no match in the listing, the request targets the key
      itself in place of an id. */
  lemma MissTargetsKey(http: Transport, inv: Invocation, md5: string, items: seq<Item>)
    requires LookupOf(inv).Some? && LookupOf(inv).value.ById? && !inv.UpdateCookie?
    requires PolicyMd5Of(http, inv.policyName) == Ok(md5)
    requires var l := LookupOf(inv).value;
      ObjectsOf(Get(http(IdListing(md5, l.action)), "items")) == Ok(items)
    requires forall j :: 0 <= j < |items| ==> !Matches(items[j], "name", LookupOf(inv).value.key)
    ensures RequestFor(http, inv).Ok?
    ensures RequestFor(http, inv).value.path ==
      SubResourcePath(md5, LookupOf(inv).value.action, Str(LookupOf(inv).value.key))
  {
  }

  /** The operations with a `json_body_start` send exactly its entries whose value
      is not `None`, unchanged and in their order. */
  lemma PartialBody(http: Transport, inv: Invocation)
    requires StartBody(inv).Some?
    requires RequestFor(http, inv).Ok?
    ensures var start := StartBody(inv).value;
      var json := RequestFor(http, inv).value.json;
      && json == Some(NonNull(start))
      && (forall p :: p in json.value <==> p in start && p.1 != Null)
      && KeysOf(json.value) == (set p | p in start && p.1 != Null :: p.0)
      && (forall i :: 0 <= i < |start| && start[i].1 != Null ==> Lookup(json.value, start[i].0) == Some(start[i].1))
      && DistinctKeys(json.value)
  {
    var start := StartBody(inv).value;
    StartBodyDistinct(inv);
    NonNullMembers(start);
    NonNullKeys(start);
    NonNullDistinct(start);
  }

  /** The blocking-settings body carries `learn` unless it is `None`; with
      `BoundLearn`, it carries `True` when the argument is not passed. */
  lemma LearnDefault(http: Transport, inv: Invocation)
    requires inv.UpdateBlockingSetting?
    requires RequestFor(http, inv).Ok?
    ensures var json := RequestFor(http, inv).value.json.value;
      && (inv.learn != Null ==> Lookup(json, "learn") == Some(inv.learn))
      && (inv.learn == Null ==> "learn" !in KeysOf(json))
  {
    PartialBody(http, inv);
    var start := StartBody(inv).value;
    assert start[1] == ("learn", inv.learn);
    if inv.learn == Null {
      forall p | p in start && p.1 != Null
        ensures p.0 != "learn"
      {
      }
    }
  }

  /** The whitelisted-IP add body always starts with the address; when no other
      argument is given it is the address alone. */
  lemma WhitelistAddCarriesAddress(http: Transport, inv: Invocation)
    requires inv.AddWhitelistIp?
    requires RequestFor(http, inv).Ok?
    ensures var json := RequestFor(http, inv).value.json.value;
      && json != [] && json[0] == ("ipAddress", Str(inv.ipAddress))
      && Lookup(json, "ipAddress") == Some(Str(inv.ipAddress))
      && (inv.ipMask == Null && inv.flags == IpFlags(Null, Null, Null, Null, Null, Null, Null) ==>
            json == [("ipAddress", Str(inv.ipAddress))])
  {
    var start := StartBody(inv).value;
    var head := [("ipAddress", Str(inv.ipAddress))];
    assert start == head + start[1..];
    NonNullConcat(head, start[1..]);
    assert NonNull(head) == head by {
      assert head[..0] == [];
    }
    if inv.ipMask == Null && inv.flags == IpFlags(Null, Null, Null, Null, Null, Null, Null) {
      NonNullOfNones(start[1..]);
    }
  }

  /** The method add and update bodies carry `actAsMethod` upper-cased. */
  lemma MethodBodyUpperCased(http: Transport, inv: Invocation)
    requires inv.AddMethod? || inv.UpdateMethod?
    requires RequestFor(http, inv).Ok?
    ensures var json := RequestFor(http, inv).value.json.value;
      && Lookup(json, "name") == Some(Str(inv.name))
      && Lookup(json, "actAsMethod").Some?
      && var sent := Lookup(json, "actAsMethod").value;
      && sent.Str? && |sent.s| == |inv.actAsMethod|
      && (forall i :: 0 <= i < |sent.s| ==> !('a' <= sent.s[i] <= 'z'))
      && (forall i :: 0 <= i < |sent.s| && !('a' <= inv.actAsMethod[i] <= 'z') ==> sent.s[i] == inv.actAsMethod[i])
  {
  }

  /** The file-type add and update bodies are not filtered: all seven fields are
      sent, `None` included. */
  lemma FileTypeBodyUnfiltered(http: Transport, inv: Invocation)
    requires inv.AddFileType? || inv.UpdateFileType?
    requires RequestFor(http, inv).Ok?
    ensures var json := RequestFor(http, inv).value.json.value;
      |json| == 7 &&
      KeysOf(json) == {"name", "queryStringLength", "checkPostDataLength", "responseCheck",
                       "checkRequestLength", "postDataLength", "performStaging"}
  {
    assert RequestFor(http, inv).value.json == Some(FileTypeBody(inv.name, inv.settings));
    FileTypeBodyKeys(inv.name, inv.settings);
  }

  lemma FileTypeBodyKeys(name: string, s: FileTypeSettings)
    ensures KeysOf(FileTypeBody(name, s)) == {"name", "queryStringLength", "checkPostDataLength", "responseCheck",
                                              "checkRequestLength", "postDataLength", "performStaging"}
  {
    var b := FileTypeBody(name, s);
    assert forall i :: 0 <= i < 7 ==> b[i] in b;
  }

  /** What the entry point does with a command name and its keyword arguments:
      nothing for a name outside the table; otherwise the operation the name
      selects, called on the arguments, or the `TypeError` of a call whose
      arguments do not fit its parameters. */
  function Dispatch(http: Transport, date: DateFormatter, command: string, args: Args): (r: Option<Result<Output>>)
    ensures r.None? <==> command !in Commands
    ensures command in Commands && !Accepts(Commands[command], args) ==> r == Some(Err(TypeError))
  {
    if command !in Commands then None
    else match Bind(Commands[command], args)
      case Ok(inv) => Some(Outcome(http, date, inv))
      case Err(e) => Some(Err(e))
  }

  /** Each operation runs under its own command name on its own keyword arguments.
      Under another command name the same arguments run that command's operation
      when it has the same parameters, and fail with a `TypeError` when they hold a
      keyword it does not take. `test-module` runs no operation. */
  lemma DispatchSelects(http: Transport, date: DateFormatter, command: string, inv: Invocation)
    ensures Dispatch(http, date, CommandName(OperationOf(inv)), KwargsOf(inv)) == Some(Outcome(http, date, inv))
    ensures command in Commands && Params(Commands[command]) == Params(OperationOf(inv)) ==>
      && Fits(Commands[command], Positional(inv))
      && Dispatch(http, date, command, KwargsOf(inv)) == Some(Outcome(http, date, Build(Commands[command], Positional(inv))))
    ensures command in Commands && !(ParamNames(Params(OperationOf(inv))) <= ParamNames(Params(Commands[command]))) ==>
      Dispatch(http, date, command, KwargsOf(inv)) == Some(Err(TypeError))
    ensures Dispatch(http, date, "test-module", KwargsOf(inv)) == None
  {
    CommandsOneToOne();
    CommandNameRegistered(OperationOf(inv));
    KwargsBind(inv);
    BuildPositional(inv);
    ParamsDistinct(OperationOf(inv));
    KwargsLookup(Params(OperationOf(inv)), Positional(inv));
    if command in Commands && Params(Commands[command]) == Params(OperationOf(inv)) {
      SameParametersBind(Commands[command], inv);
    }
  }

  /** The file-type listing takes the same single `policy_name` as the method
      listing, so the method listing's arguments under the file-type command list
      the file types. */
  lemma ListingArgumentsInterchange(http: Transport, date: DateFormatter, policyName: string)
    ensures Dispatch(http, date, CommandName(ListFileTypesOp), KwargsOf(ListMethods(policyName)))
         == Some(Outcome(http, date, ListFileTypes(policyName)))
  {
    var command := CommandName(ListFileTypesOp);
    CommandNameRegistered(ListFileTypesOp);
    assert Params(Commands[command]) == Params(ListMethodsOp);
    DispatchSelects(http, date, command, ListMethods(policyName));
    assert Positional(ListMethods(policyName)) == [Str(policyName)];
  }

  /** `test_module`'s message for the status code and body of `GET sys/version`. */
  function TestModuleResult(status: int, text: string): (r: string)
    ensures r == "ok" <==> status == 200
    ensures status >= 400 ==> r == InvalidCredentials + Text.IntToDecimal(status) + ": " + text
    ensures status != 200 && status < 400 ==> r == "Error " + Text.IntToDecimal(status) + ": " + text
  {
    if status == 200 then "ok"
    else if 400 <= status < 500 then InvalidCredentials + Text.IntToDecimal(status) + ": " + text
    else if status >= 500 then InvalidCredentials + Text.IntToDecimal(status) + ": " + text
    else "Error " + Text.IntToDecimal(status) + ": " + text
  }

  const InvalidCredentials := "Invalid credentials given.\nError: "

  /** The two failure messages are told apart by their prefix: a response with status
      400 or above, and only such a response, is reported as invalid credentials. */
  lemma TestModuleClassification(status: int, text: string)
    ensures var r := TestModuleResult(status, text);
      status != 200 ==>
        (|r| >= |InvalidCredentials| && r[..|InvalidCredentials|] == InvalidCredentials <==> status >= 400)
  {
    var r := TestModuleResult(status, text);
    if status != 200 && status < 400 {
      assert r[0] == 'E' && InvalidCredentials[0] == 'I';
    } else if status >= 400 {
      assert r[..|InvalidCredentials|] == InvalidCredentials;
    }
  }
}
