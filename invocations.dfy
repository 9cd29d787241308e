/** The calls of the F5 client's operations, and how the entry point's
    `commands[command](**args)` binds a command's keyword arguments to the
    parameters of the operation the command name selects. */
module Invocations {
  import opened PyValues
  import opened CommandTable

  /** The settings shared by the file-type add and update operations. */
  datatype FileTypeSettings = FileTypeSettings(
    queryStringLength: Value, checkPostDataLength: Value, responseCheck: Value,
    checkRequestLength: Value, postDataLength: Value, performStaging: Value)

  /** The optional flags of the whitelisted-IP add and update operations, in the
      order the operations declare them. */
  datatype IpFlags = IpFlags(
    trustedByBuilder: Value, ignoreBruteDetection: Value, description: Value, blockRequests: Value,
    ignoreLearning: Value, neverLog: Value, ignoreIntelligence: Value)

  /** One call of a client operation with the values its parameters are bound to,
      defaults filled in. Names matched against listings, the method to upper-case
      and the blocking-settings endpoint are strings. */
  datatype Invocation =
    | ListPolicies(selfLink: Value, kind: Value, items: Value)
    | ApplyPolicy(policyReferenceLink: Value)
    | ExportPolicy(filename: Value, minimal: Value, policyReferenceLink: Value)
    | DeletePolicy(policyName: string)
    | ListMethods(policyName: string)
    | AddMethod(policyName: string, name: string, actAsMethod: string)
    | UpdateMethod(policyName: string, name: string, actAsMethod: string)
    | DeleteMethod(policyName: string, name: string)
    | ListFileTypes(policyName: string)
    | AddFileType(policyName: string, name: string, settings: FileTypeSettings)
    | UpdateFileType(policyName: string, name: string, settings: FileTypeSettings)
    | DeleteFileType(policyName: string, name: string)
    | ListCookies(policyName: string)
    | AddCookie(policyName: string, name: string, performStaging: Value)
    | UpdateCookie(policyName: string, name: string, performStaging: Value)
    | DeleteCookie(policyName: string, name: string)
    | ListHostnames(policyName: string)
    | AddHostname(policyName: string, name: string, includeSubdomains: Value)
    | UpdateHostname(policyName: string, name: string, includeSubdomains: Value)
    | DeleteHostname(policyName: string, name: string)
    | ListBlockingSettings(policyName: string, endpoint: string)
    | UpdateBlockingSetting(policyName: string, endpoint: string, description: string,
                            enabled: Value, learn: Value, alarm: Value, block: Value)
    | ListUrls(policyName: string)
    | AddUrl(policyName: string, name: string, httpMethod: Value, protocol: Value, urlType: Value,
             urlDescription: Value, isAllowed: Value)
    | UpdateUrl(policyName: string, name: string, performStaging: Value, newDescription: Value,
                mandatoryBody: Value, clickjackingProtection: Value, urlIsReferrer: Value)
    | DeleteUrl(policyName: string, name: string)
    | ListWhitelistIps(policyName: string)
    | AddWhitelistIp(policyName: string, ipAddress: string, ipMask: Value, flags: IpFlags)
    | UpdateWhitelistIp(policyName: string, ipAddress: string, flags: IpFlags)
    | DeleteWhitelistIp(policyName: string, ipAddress: string)

  function OperationOf(inv: Invocation): Operation {
    match inv
    case ListPolicies(_, _, _) => ListPoliciesOp
    case ApplyPolicy(_) => ApplyPolicyOp
    case ExportPolicy(_, _, _) => ExportPolicyOp
    case DeletePolicy(_) => DeletePolicyOp
    case ListMethods(_) => ListMethodsOp
    case AddMethod(_, _, _) => AddMethodOp
    case UpdateMethod(_, _, _) => UpdateMethodOp
    case DeleteMethod(_, _) => DeleteMethodOp
    case ListFileTypes(_) => ListFileTypesOp
    case AddFileType(_, _, _) => AddFileTypeOp
    case UpdateFileType(_, _, _) => UpdateFileTypeOp
    case DeleteFileType(_, _) => DeleteFileTypeOp
    case ListCookies(_) => ListCookiesOp
    case AddCookie(_, _, _) => AddCookieOp
    case UpdateCookie(_, _, _) => UpdateCookieOp
    case DeleteCookie(_, _) => DeleteCookieOp
    case ListHostnames(_) => ListHostnamesOp
    case AddHostname(_, _, _) => AddHostnameOp
    case UpdateHostname(_, _, _) => UpdateHostnameOp
    case DeleteHostname(_, _) => DeleteHostnameOp
    case ListBlockingSettings(_, _) => ListBlockingSettingsOp
    case UpdateBlockingSetting(_, _, _, _, _, _, _) => UpdateBlockingSettingOp
    case ListUrls(_) => ListUrlsOp
    case AddUrl(_, _, _, _, _, _, _) => AddUrlOp
    case UpdateUrl(_, _, _, _, _, _, _) => UpdateUrlOp
    case DeleteUrl(_, _) => DeleteUrlOp
    case ListWhitelistIps(_) => ListWhitelistIpsOp
    case AddWhitelistIp(_, _, _, _) => AddWhitelistIpOp
    case UpdateWhitelistIp(_, _, _) => UpdateWhitelistIpOp
    case DeleteWhitelistIp(_, _) => DeleteWhitelistIpOp
  }

  /** A keyword parameter: one the model keeps as a string, any other one without a
      default, or one with a default. */
  datatype Param = Named(name: string) | Required(name: string) | Optional(name: string, default: Value)

  const FileTypeParams := [
    Required("query_string_length"), Required("check_post_data_length"), Required("response_check"),
    Required("check_request_length"), Required("post_data_length"), Required("perform_staging")]

  const IpFlagParams := [
    Optional("trusted_by_builder", Null), Optional("ignore_brute_detection", Null),
    Optional("description", Null), Optional("block_requests", Null), Optional("ignore_learning", Null),
    Optional("never_log", Null), Optional("ignore_intelligence", Null)]

  /** Each operation's parameters after `self`, in declaration order. */
  function Params(op: Operation): seq<Param> {
    match op
    case ListPoliciesOp => [Optional("self_link", Str("")), Optional("kind", Str("")), Optional("items", Null)]
    case ApplyPolicyOp => [Required("policy_reference_link")]
    case ExportPolicyOp => [Required("filename"), Required("minimal"), Required("policy_reference_link")]
    case DeletePolicyOp => [Named("policy_name")]
    case ListMethodsOp => [Named("policy_name")]
    case AddMethodOp => [Named("policy_name"), Named("new_method_name"), Named("act_as_method")]
    case UpdateMethodOp => [Named("policy_name"), Named("method_name"), Named("act_as_method")]
    case DeleteMethodOp => [Named("policy_name"), Named("method_name")]
    case ListFileTypesOp => [Named("policy_name")]
    case AddFileTypeOp => [Named("policy_name"), Named("new_file_type")] + FileTypeParams
    case UpdateFileTypeOp => [Named("policy_name"), Named("file_type_name")] + FileTypeParams
    case DeleteFileTypeOp => [Named("policy_name"), Named("file_type_name")]
    case ListCookiesOp => [Named("policy_name")]
    case AddCookieOp => [Named("policy_name"), Named("new_cookie_name"), Required("perform_staging")]
    case UpdateCookieOp => [Named("policy_name"), Named("cookie_name"), Required("perform_staging")]
    case DeleteCookieOp => [Named("policy_name"), Named("cookie_name")]
    case ListHostnamesOp => [Named("policy_name")]
    case AddHostnameOp => [Named("policy_name"), Named("name"), Required("include_subdomains")]
    case UpdateHostnameOp => [Named("policy_name"), Named("name"), Required("include_subdomains")]
    case DeleteHostnameOp => [Named("policy_name"), Named("name")]
    case ListBlockingSettingsOp => [Named("policy_name"), Named("endpoint")]
    case UpdateBlockingSettingOp =>
      [Named("policy_name"), Named("endpoint"), Named("description"), Optional("enabled", Null),
       Optional("learn", Bool(true)), Optional("alarm", Null), Optional("block", Null)]
    case ListUrlsOp => [Named("policy_name")]
    case AddUrlOp =>
      [Named("policy_name"), Named("name"), Required("method"), Required("protocol"), Required("url_type"),
       Optional("description", Str("")), Optional("is_allowed", Bool(true))]
    case UpdateUrlOp =>
      [Named("policy_name"), Named("name"), Optional("perform_staging", Null), Optional("description", Null),
       Optional("mandatory_body", Null), Optional("clickjacking_protection", Null), Optional("url_isreferrer", Null)]
    case DeleteUrlOp => [Named("policy_name"), Named("name")]
    case ListWhitelistIpsOp => [Named("policy_name")]
    case AddWhitelistIpOp => [Named("policy_name"), Named("ip_address"), Optional("ip_mask", Null)] + IpFlagParams
    case UpdateWhitelistIpOp => [Named("policy_name"), Named("ip_address")] + IpFlagParams
    case DeleteWhitelistIpOp => [Named("policy_name"), Named("ip_address")]
  }

  function SettingsValues(s: FileTypeSettings): seq<Value> {
    [s.queryStringLength, s.checkPostDataLength, s.responseCheck, s.checkRequestLength, s.postDataLength,
     s.performStaging]
  }

  function FlagValues(f: IpFlags): seq<Value> {
    [f.trustedByBuilder, f.ignoreBruteDetection, f.description, f.blockRequests, f.ignoreLearning,
     f.neverLog, f.ignoreIntelligence]
  }

  /** The values an invocation binds its operation's parameters to, in declaration order. */
  function Positional(inv: Invocation): seq<Value> {
    match inv
    case ListPolicies(selfLink, kind, items) => [selfLink, kind, items]
    case ApplyPolicy(link) => [link]
    case ExportPolicy(filename, minimal, link) => [filename, minimal, link]
    case DeletePolicy(p) => [Str(p)]
    case ListMethods(p) => [Str(p)]
    case AddMethod(p, n, a) => [Str(p), Str(n), Str(a)]
    case UpdateMethod(p, n, a) => [Str(p), Str(n), Str(a)]
    case DeleteMethod(p, n) => [Str(p), Str(n)]
    case ListFileTypes(p) => [Str(p)]
    case AddFileType(p, n, s) => [Str(p), Str(n)] + SettingsValues(s)
    case UpdateFileType(p, n, s) => [Str(p), Str(n)] + SettingsValues(s)
    case DeleteFileType(p, n) => [Str(p), Str(n)]
    case ListCookies(p) => [Str(p)]
    case AddCookie(p, n, staging) => [Str(p), Str(n), staging]
    case UpdateCookie(p, n, staging) => [Str(p), Str(n), staging]
    case DeleteCookie(p, n) => [Str(p), Str(n)]
    case ListHostnames(p) => [Str(p)]
    case AddHostname(p, n, sub) => [Str(p), Str(n), sub]
    case UpdateHostname(p, n, sub) => [Str(p), Str(n), sub]
    case DeleteHostname(p, n) => [Str(p), Str(n)]
    case ListBlockingSettings(p, e) => [Str(p), Str(e)]
    case UpdateBlockingSetting(p, e, d, enabled, learn, alarm, block) =>
      [Str(p), Str(e), Str(d), enabled, learn, alarm, block]
    case ListUrls(p) => [Str(p)]
    case AddUrl(p, n, m, protocol, t, d, allowed) => [Str(p), Str(n), m, protocol, t, d, allowed]
    case UpdateUrl(p, n, staging, d, body, clickjacking, referrer) =>
      [Str(p), Str(n), staging, d, body, clickjacking, referrer]
    case DeleteUrl(p, n) => [Str(p), Str(n)]
    case ListWhitelistIps(p) => [Str(p)]
    case AddWhitelistIp(p, ip, mask, f) => [Str(p), Str(ip), mask] + FlagValues(f)
    case UpdateWhitelistIp(p, ip, f) => [Str(p), Str(ip)] + FlagValues(f)
    case DeleteWhitelistIp(p, ip) => [Str(p), Str(ip)]
  }

  /** Values for an operation's parameters: one per parameter, a string for each
      parameter the model keeps as a string. */
  predicate Fits(op: Operation, vals: seq<Value>) {
    |vals| == |Params(op)| && forall i :: 0 <= i < |vals| && Params(op)[i].Named? ==> vals[i].Str?
  }

  function Settings(vals: seq<Value>): FileTypeSettings
    requires |vals| == 6
  {
    FileTypeSettings(vals[0], vals[1], vals[2], vals[3], vals[4], vals[5])
  }

  function Flags(vals: seq<Value>): IpFlags
    requires |vals| == 7
  {
    IpFlags(vals[0], vals[1], vals[2], vals[3], vals[4], vals[5], vals[6])
  }

  /** The call of `op` on the given parameter values. */
  function Build(op: Operation, vals: seq<Value>): Invocation
    requires Fits(op, vals)
  {
    match op
    case ListPoliciesOp => ListPolicies(vals[0], vals[1], vals[2])
    case ApplyPolicyOp => ApplyPolicy(vals[0])
    case ExportPolicyOp => ExportPolicy(vals[0], vals[1], vals[2])
    case DeletePolicyOp => DeletePolicy(vals[0].s)
    case ListMethodsOp => ListMethods(vals[0].s)
    case AddMethodOp => AddMethod(vals[0].s, vals[1].s, vals[2].s)
    case UpdateMethodOp => UpdateMethod(vals[0].s, vals[1].s, vals[2].s)
    case DeleteMethodOp => DeleteMethod(vals[0].s, vals[1].s)
    case ListFileTypesOp => ListFileTypes(vals[0].s)
    case AddFileTypeOp => AddFileType(vals[0].s, vals[1].s, Settings(vals[2..]))
    case UpdateFileTypeOp => UpdateFileType(vals[0].s, vals[1].s, Settings(vals[2..]))
    case DeleteFileTypeOp => DeleteFileType(vals[0].s, vals[1].s)
    case ListCookiesOp => ListCookies(vals[0].s)
    case AddCookieOp => AddCookie(vals[0].s, vals[1].s, vals[2])
    case UpdateCookieOp => UpdateCookie(vals[0].s, vals[1].s, vals[2])
    case DeleteCookieOp => DeleteCookie(vals[0].s, vals[1].s)
    case ListHostnamesOp => ListHostnames(vals[0].s)
    case AddHostnameOp => AddHostname(vals[0].s, vals[1].s, vals[2])
    case UpdateHostnameOp => UpdateHostname(vals[0].s, vals[1].s, vals[2])
    case DeleteHostnameOp => DeleteHostname(vals[0].s, vals[1].s)
    case ListBlockingSettingsOp => ListBlockingSettings(vals[0].s, vals[1].s)
    case UpdateBlockingSettingOp =>
      UpdateBlockingSetting(vals[0].s, vals[1].s, vals[2].s, vals[3], vals[4], vals[5], vals[6])
    case ListUrlsOp => ListUrls(vals[0].s)
    case AddUrlOp => AddUrl(vals[0].s, vals[1].s, vals[2], vals[3], vals[4], vals[5], vals[6])
    case UpdateUrlOp => UpdateUrl(vals[0].s, vals[1].s, vals[2], vals[3], vals[4], vals[5], vals[6])
    case DeleteUrlOp => DeleteUrl(vals[0].s, vals[1].s)
    case ListWhitelistIpsOp => ListWhitelistIps(vals[0].s)
    case AddWhitelistIpOp => AddWhitelistIp(vals[0].s, vals[1].s, vals[2], Flags(vals[3..]))
    case UpdateWhitelistIpOp => UpdateWhitelistIp(vals[0].s, vals[1].s, Flags(vals[2..]))
    case DeleteWhitelistIpOp => DeleteWhitelistIp(vals[0].s, vals[1].s)
  }

  /** The resource each operation acts on; the proofs about all thirty operations
      go one resource at a time. */
  datatype Resource = Policies | Methods | FileTypes | Cookies | Hostnames | BlockingSettings | Urls | WhitelistIps

  function ResourceOf(op: Operation): Resource {
    match op
    case ListPoliciesOp => Policies
    case ApplyPolicyOp => Policies
    case ExportPolicyOp => Policies
    case DeletePolicyOp => Policies
    case ListMethodsOp => Methods
    case AddMethodOp => Methods
    case UpdateMethodOp => Methods
    case DeleteMethodOp => Methods
    case ListFileTypesOp => FileTypes
    case AddFileTypeOp => FileTypes
    case UpdateFileTypeOp => FileTypes
    case DeleteFileTypeOp => FileTypes
    case ListCookiesOp => Cookies
    case AddCookieOp => Cookies
    case UpdateCookieOp => Cookies
    case DeleteCookieOp => Cookies
    case ListHostnamesOp => Hostnames
    case AddHostnameOp => Hostnames
    case UpdateHostnameOp => Hostnames
    case DeleteHostnameOp => Hostnames
    case ListBlockingSettingsOp => BlockingSettings
    case UpdateBlockingSettingOp => BlockingSettings
    case ListUrlsOp => Urls
    case AddUrlOp => Urls
    case UpdateUrlOp => Urls
    case DeleteUrlOp => Urls
    case ListWhitelistIpsOp => WhitelistIps
    case AddWhitelistIpOp => WhitelistIps
    case UpdateWhitelistIpOp => WhitelistIps
    case DeleteWhitelistIpOp => WhitelistIps
  }

  /** An invocation is the call of its operation on its own parameter values. */
  lemma BuildPositional(inv: Invocation)
    ensures Fits(OperationOf(inv), Positional(inv))
    ensures Build(OperationOf(inv), Positional(inv)) == inv
  {
    match ResourceOf(OperationOf(inv))
    case Policies => BuildPositionalPolicies(inv);
    case Methods => BuildPositionalMethods(inv);
    case FileTypes => BuildPositionalFileTypes(inv);
    case Cookies => BuildPositionalCookies(inv);
    case Hostnames => BuildPositionalHostnames(inv);
    case BlockingSettings => BuildPositionalBlockingSettings(inv);
    case Urls => BuildPositionalUrls(inv);
    case WhitelistIps => BuildPositionalWhitelistIps(inv);
  }

  lemma BuildPositionalPolicies(inv: Invocation)
    requires ResourceOf(OperationOf(inv)) == Policies
    ensures Fits(OperationOf(inv), Positional(inv))
    ensures Build(OperationOf(inv), Positional(inv)) == inv
  {
  }

  lemma BuildPositionalMethods(inv: Invocation)
    requires ResourceOf(OperationOf(inv)) == Methods
    ensures Fits(OperationOf(inv), Positional(inv))
    ensures Build(OperationOf(inv), Positional(inv)) == inv
  {
  }

  lemma BuildPositionalFileTypes(inv: Invocation)
    requires ResourceOf(OperationOf(inv)) == FileTypes
    ensures Fits(OperationOf(inv), Positional(inv))
    ensures Build(OperationOf(inv), Positional(inv)) == inv
  {
    if inv.AddFileType? || inv.UpdateFileType? {
      assert Positional(inv)[2..] == SettingsValues(inv.settings);
    }
  }

  lemma BuildPositionalCookies(inv: Invocation)
    requires ResourceOf(OperationOf(inv)) == Cookies
    ensures Fits(OperationOf(inv), Positional(inv))
    ensures Build(OperationOf(inv), Positional(inv)) == inv
  {
  }

  lemma BuildPositionalHostnames(inv: Invocation)
    requires ResourceOf(OperationOf(inv)) == Hostnames
    ensures Fits(OperationOf(inv), Positional(inv))
    ensures Build(OperationOf(inv), Positional(inv)) == inv
  {
  }

  lemma BuildPositionalBlockingSettings(inv: Invocation)
    requires ResourceOf(OperationOf(inv)) == BlockingSettings
    ensures Fits(OperationOf(inv), Positional(inv))
    ensures Build(OperationOf(inv), Positional(inv)) == inv
  {
  }

  lemma BuildPositionalUrls(inv: Invocation)
    requires ResourceOf(OperationOf(inv)) == Urls
    ensures Fits(OperationOf(inv), Positional(inv))
    ensures Build(OperationOf(inv), Positional(inv)) == inv
  {
  }

  lemma BuildPositionalWhitelistIps(inv: Invocation)
    requires ResourceOf(OperationOf(inv)) == WhitelistIps
    ensures Fits(OperationOf(inv), Positional(inv))
    ensures Build(OperationOf(inv), Positional(inv)) == inv
  {
    if inv.AddWhitelistIp? {
      assert Positional(inv)[3..] == FlagValues(inv.flags);
    } else if inv.UpdateWhitelistIp? {
      assert Positional(inv)[2..] == FlagValues(inv.flags);
    }
  }

  predicate DistinctParams(ps: seq<Param>) {
    forall i, j :: 0 <= i < j < |ps| ==> ps[i].name != ps[j].name
  }

  lemma DistinctConcat(a: seq<Param>, b: seq<Param>)
    requires DistinctParams(a) && DistinctParams(b)
    requires forall i, j :: 0 <= i < |a| && 0 <= j < |b| ==> a[i].name != b[j].name
    ensures DistinctParams(a + b)
  {
  }

  /** No operation declares a parameter name twice. */
  lemma ParamsDistinct(op: Operation)
    ensures DistinctParams(Params(op))
  {
    match ResourceOf(op)
    case Policies => ParamsDistinctPolicies(op);
    case Methods => ParamsDistinctMethods(op);
    case FileTypes => ParamsDistinctFileTypes(op);
    case Cookies => ParamsDistinctCookies(op);
    case Hostnames => ParamsDistinctHostnames(op);
    case BlockingSettings => ParamsDistinctBlockingSettings(op);
    case Urls => ParamsDistinctUrls(op);
    case WhitelistIps => ParamsDistinctWhitelistIps(op);
  }

  lemma ParamsDistinctPolicies(op: Operation)
    requires ResourceOf(op) == Policies
    ensures DistinctParams(Params(op))
  {
  }

  lemma ParamsDistinctMethods(op: Operation)
    requires ResourceOf(op) == Methods
    ensures DistinctParams(Params(op))
  {
  }

  lemma ParamsDistinctFileTypes(op: Operation)
    requires ResourceOf(op) == FileTypes
    ensures DistinctParams(Params(op))
  {
    if op == AddFileTypeOp {
      AddFileTypeParamsDistinct();
    } else if op == UpdateFileTypeOp {
      UpdateFileTypeParamsDistinct();
    }
  }

  lemma ParamsDistinctCookies(op: Operation)
    requires ResourceOf(op) == Cookies
    ensures DistinctParams(Params(op))
  {
  }

  lemma ParamsDistinctHostnames(op: Operation)
    requires ResourceOf(op) == Hostnames
    ensures DistinctParams(Params(op))
  {
  }

  lemma ParamsDistinctBlockingSettings(op: Operation)
    requires ResourceOf(op) == BlockingSettings
    ensures DistinctParams(Params(op))
  {
  }

  lemma ParamsDistinctUrls(op: Operation)
    requires ResourceOf(op) == Urls
    ensures DistinctParams(Params(op))
  {
  }

  lemma ParamsDistinctWhitelistIps(op: Operation)
    requires ResourceOf(op) == WhitelistIps
    ensures DistinctParams(Params(op))
  {
    if op == AddWhitelistIpOp {
      AddWhitelistIpParamsDistinct();
    } else if op == UpdateWhitelistIpOp {
      UpdateWhitelistIpParamsDistinct();
    }
  }

  lemma AddFileTypeParamsDistinct()
    ensures DistinctParams(Params(AddFileTypeOp))
  {
    FileTypeParamsDistinct();
    var head := [Named("policy_name"), Named("new_file_type")];
    DistinctConcat(head, FileTypeParams);
    assert Params(AddFileTypeOp) == head + FileTypeParams;
  }

  lemma UpdateFileTypeParamsDistinct()
    ensures DistinctParams(Params(UpdateFileTypeOp))
  {
    FileTypeParamsDistinct();
    var head := [Named("policy_name"), Named("file_type_name")];
    DistinctConcat(head, FileTypeParams);
    assert Params(UpdateFileTypeOp) == head + FileTypeParams;
  }

  lemma AddWhitelistIpParamsDistinct()
    ensures DistinctParams(Params(AddWhitelistIpOp))
  {
    IpFlagParamsDistinct();
    var head := [Named("policy_name"), Named("ip_address"), Optional("ip_mask", Null)];
    DistinctConcat(head, IpFlagParams);
    assert Params(AddWhitelistIpOp) == head + IpFlagParams;
  }

  lemma UpdateWhitelistIpParamsDistinct()
    ensures DistinctParams(Params(UpdateWhitelistIpOp))
  {
    IpFlagParamsDistinct();
    var head := [Named("policy_name"), Named("ip_address")];
    DistinctConcat(head, IpFlagParams);
    assert Params(UpdateWhitelistIpOp) == head + IpFlagParams;
  }

  lemma FileTypeParamsDistinct()
    ensures DistinctParams(FileTypeParams)
  {
  }

  lemma IpFlagParamsDistinct()
    ensures DistinctParams(IpFlagParams)
  {
  }

  /** The keyword arguments of a command. */
  type Args = map<string, Value>

  function ParamNames(ps: seq<Param>): set<string> {
    set p | p in ps :: p.name
  }

  /** Python's binding of keyword arguments to the parameters `ps`: every keyword
      names a parameter, every parameter without a default is given, and the
      model's string parameters get strings. */
  predicate AcceptsParams(ps: seq<Param>, args: Args) {
    && args.Keys <= ParamNames(ps)
    && (forall p :: p in ps && !p.Optional? ==> p.name in args)
    && (forall p :: p in ps && p.Named? && p.name in args ==> args[p.name].Str?)
  }

  predicate Accepts(op: Operation, args: Args) {
    AcceptsParams(Params(op), args)
  }

  /** The value a parameter takes: its keyword argument, or else its default. */
  function BoundValue(p: Param, args: Args): Value {
    if p.name in args then args[p.name] else if p.Optional? then p.default else Null
  }

  function BoundValues(ps: seq<Param>, args: Args): (vals: seq<Value>)
    ensures |vals| == |ps|
  {
    seq(|ps|, i requires 0 <= i < |ps| => BoundValue(ps[i], args))
  }

  /** `operation(**args)`: the call with each parameter bound to its keyword
      argument or default, or a TypeError for an unexpected or missing argument. */
  function Bind(op: Operation, args: Args): (r: Result<Invocation>)
    ensures r.Ok? <==> Accepts(op, args)
    ensures r.Err? ==> r.error == TypeError
  {
    if Accepts(op, args) then
      var vals := BoundValues(Params(op), args);
      assert Fits(op, vals) by {
        forall i | 0 <= i < |vals| && Params(op)[i].Named?
          ensures vals[i].Str?
        {
          assert Params(op)[i] in Params(op);
        }
      }
      Ok(Build(op, vals))
    else Err(TypeError)
  }

  /** The keyword arguments naming every parameter of a call. */
  function Kwargs(ps: seq<Param>, vals: seq<Value>): Args
    requires |ps| == |vals|
  {
    if ps == [] then map[] else Kwargs(ps[1..], vals[1..])[ps[0].name := vals[0]]
  }

  function KwargsOf(inv: Invocation): Args {
    BuildPositional(inv);
    Kwargs(Params(OperationOf(inv)), Positional(inv))
  }

  /** With distinct names, the keyword arguments name exactly the parameters, each
      holding its value. */
  lemma {:induction false} KwargsLookup(ps: seq<Param>, vals: seq<Value>)
    requires |ps| == |vals| && DistinctParams(ps)
    ensures Kwargs(ps, vals).Keys == set p | p in ps :: p.name
    ensures forall i :: 0 <= i < |ps| ==> Kwargs(ps, vals)[ps[i].name] == vals[i]
  {
    if ps != [] {
      var tail := ps[1..];
      assert DistinctParams(tail) by {
        forall i, j | 0 <= i < j < |tail|
          ensures tail[i].name != tail[j].name
        {
          assert tail[i] == ps[i + 1] && tail[j] == ps[j + 1];
        }
      }
      KwargsLookup(tail, vals[1..]);
      assert forall p :: p in ps <==> p == ps[0] || p in tail;
      forall i | 1 <= i < |ps|
        ensures Kwargs(ps, vals)[ps[i].name] == vals[i]
      {
        assert ps[i] == tail[i - 1] && vals[i] == vals[1..][i - 1];
      }
    }
  }

  function IndexOf(ps: seq<Param>, p: Param): (i: nat)
    requires p in ps
    ensures i < |ps| && ps[i] == p
  {
    if ps[0] == p then 0 else 1 + IndexOf(ps[1..], p)
  }

  /** Keyword arguments naming every parameter once, string parameters with
      strings, are accepted and bind each parameter to its own value. */
  lemma KwargsAccepted(ps: seq<Param>, vals: seq<Value>)
    requires |ps| == |vals| && DistinctParams(ps)
    requires forall i :: 0 <= i < |ps| && ps[i].Named? ==> vals[i].Str?
    ensures AcceptsParams(ps, Kwargs(ps, vals))
    ensures BoundValues(ps, Kwargs(ps, vals)) == vals
  {
    KwargsLookup(ps, vals);
    var args := Kwargs(ps, vals);
    forall p | p in ps
      ensures p.name in args && (p.Named? ==> args[p.name].Str?)
    {
      var i := IndexOf(ps, p);
    }
  }

  /** The command name, not the arguments, picks the operation: the keyword
      arguments of one operation's call run any operation with the same
      parameters, on the same values. */
  lemma SameParametersBind(op: Operation, inv: Invocation)
    requires Params(op) == Params(OperationOf(inv))
    ensures Fits(op, Positional(inv))
    ensures Bind(op, KwargsOf(inv)) == Ok(Build(op, Positional(inv)))
  {
    BuildPositional(inv);
    ParamsDistinct(op);
    KwargsAccepted(Params(op), Positional(inv));
  }

  /** An accepted call binds its operation's parameters to their values. */
  lemma BoundCall(op: Operation, args: Args)
    requires Bind(op, args).Ok?
    ensures Fits(op, BoundValues(Params(op), args))
    ensures Bind(op, args).value == Build(op, BoundValues(Params(op), args))
  {
  }

  /** `learn` is bound to its keyword argument when one is passed, and to `True`
      otherwise. */
  lemma BoundLearn(args: Args)
    requires Bind(UpdateBlockingSettingOp, args).Ok?
    ensures Bind(UpdateBlockingSettingOp, args).value.UpdateBlockingSetting?
    ensures Bind(UpdateBlockingSettingOp, args).value.learn == if "learn" in args then args["learn"] else Bool(true)
  {
    BoundCall(UpdateBlockingSettingOp, args);
    LearnValue(args);
    LearnParameter(BoundValues(Params(UpdateBlockingSettingOp), args));
  }

  lemma LearnValue(args: Args)
    ensures |Params(UpdateBlockingSettingOp)| == 7
    ensures BoundValues(Params(UpdateBlockingSettingOp), args)[4] == if "learn" in args then args["learn"] else Bool(true)
  {
    assert Params(UpdateBlockingSettingOp)[4] == Optional("learn", Bool(true));
  }

  lemma LearnParameter(vals: seq<Value>)
    requires Fits(UpdateBlockingSettingOp, vals)
    ensures Build(UpdateBlockingSettingOp, vals).UpdateBlockingSetting?
    ensures Build(UpdateBlockingSettingOp, vals).learn == vals[4]
  {
  }

  /** Calling an invocation's own operation on its keyword arguments gives the
      invocation back: binding by keyword loses nothing. */
  lemma KwargsBind(inv: Invocation)
    ensures Bind(OperationOf(inv), KwargsOf(inv)) == Ok(inv)
  {
    SameParametersBind(OperationOf(inv), inv);
    BuildPositional(inv);
  }
}
