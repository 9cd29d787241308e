# F5 ASM integration and XDR connected-endpoints script, modelled in Dafny

This project models two adapters of the Cortex XSOAR content repository.

**F5 ASM integration (`f5_v2.py`).** The client talks to the F5 management API.
It acts on Application Security Manager policies and their sub-resources: methods, file types,
cookies, host names, blocking settings, URLs and whitelisted IPs. The model covers these parts:

- **The resolvers.** `get_policy_md5` turns a policy name into the policy's id. `get_id`,
  `get_blocking_settings_id` and `get_ip_id` turn a sub-resource's name, description or address
  into its id. Each one lists a collection, then scans it and keeps the last match.
- **The thirty `f5_*_command` operations.** For each one, the model gives the lookups it makes
  and the request it sends: verb, URL path, query parameters and JSON body. The update
  operations send only the non-`None` fields of their `json_body_start`.
- **The `format_*` functions.** Each returns a triple: the readable output, the context and the
  raw result.
- **The `commands` table** of the entry point.
- **`test_module`**, which classifies the HTTP status code of the server's answer.

**XDRConnectedEndpoints script.** It builds the argument map for `xdr-get-endpoints`. It then
counts the returned endpoints whose status is `CONNECTED`.

Modules:

| file | module | what it holds |
|---|---|---|
| py_values.dfy | `PyValues` | JSON values, Python exceptions as `Result`, `get`, truthiness, iteration, indexing |
| text.dfy | `Text` | `str.find`, `str.partition`, `upper`, `capitalize`, `str()` of integers (ASCII) |
| dicts.dfy | `Dicts` | insertion-ordered dicts, `d[k] = v`, and the loop that filters out `None` values |
| http.dfy | `Http` | requests and the transport parameter |
| resolvers.dfy | `Resolvers` | the four resolvers |
| formatters.dfy | `Formatters` | the list and single-object formatters, driven by column tables |
| command_table.dfy | `CommandTable` | the command-name table |
| invocations.dfy | `Invocations` | each operation's parameters and the binding of keyword arguments to them |
| commands.dfy | `Commands` | the operations' requests, execution, dispatch, `test_module` |
| xdr.dfy | `XdrConnectedEndpoints` | the script's argument map, count and outcome |

Several things are parameters of the model rather than part of it:

- The HTTP transport is a function `Request -> Item` from a request to the JSON object returned.
- `format_date` is a function that may raise.
- The script's `executeCommand` and `isError` are functions too.

Python exceptions are values, not preconditions. A `Result` is either `Ok(value)` or
`Err(TypeError | AttributeError | IndexError | KeyError)`.

Where code works step by step, the model is a method with a loop. These are the resolvers'
scans, the `None`-filtering loops, the formatters' row loops and the script's counter. Each
method is proved equal to a specification function, and the lemmas state the properties of that
function.

## Model

F5 is `Packs/F5/Integrations/f5_v2/f5_v2.py`; XDR is
`Packs/CortexXDR/Scripts/XDRConnectedEndpoints/XDRConnectedEndpoints.py`.

| member | source | states |
|---|---|---|
| PyValues.AttrGet | Packs/F5/Integrations/f5_v2/f5_v2.py:45 | `.get` succeeds exactly on a dict and then reads the key, `None` when absent; anything else raises AttributeError |
| PyValues.ObjectsOf | Packs/F5/Integrations/f5_v2/f5_v2.py:65-67 | iterating a value and calling `.get` on each element succeeds exactly for a list of dicts, an empty string or an empty dict; non-iterables raise TypeError, other iterables AttributeError; list elements keep their order |
| PyValues.Subscript | Packs/F5/Integrations/f5_v2/f5_v2.py:45 | `v[i]` indexes a list as `PyIndex` does and a string to a one-character string, with IndexError out of range; a dict raises KeyError; any other value TypeError |
| PyValues.PyIndex | Packs/F5/Integrations/f5_v2/f5_v2.py:45 | `xs[i]` succeeds exactly for `-len(xs) <= i < len(xs)`, reading from the end for negative `i`; otherwise IndexError |
| Text.Find | Packs/F5/Integrations/f5_v2/f5_v2.py:48 | the result is -1 or a position where the separator occurs, and it occurs at no earlier position |
| Text.Partition | Packs/F5/Integrations/f5_v2/f5_v2.py:48 | the three parts concatenate to the input; the middle part is empty exactly when the separator does not occur, and then the first part is the whole input and the last is empty; otherwise the middle part is the separator at its first occurrence |
| Text.Upper | Packs/F5/Integrations/f5_v2/f5_v2.py:212 | same length, no lower-case letter left, non-letters unchanged, each lower-case letter mapped to its upper-case form |
| Text.Capitalize | Packs/F5/Integrations/f5_v2/f5_v2.py:1087 | same length; the first character is upper-cased if it is a lower-case letter and kept otherwise; every later upper-case letter is lower-cased and every other character kept |
| Text.NatToDecimal | Packs/CortexXDR/Scripts/XDRConnectedEndpoints/XDRConnectedEndpoints.py:30 | `str(n)` is a non-empty string of digits without a leading zero |
| Text.DecimalRoundTrip | Packs/CortexXDR/Scripts/XDRConnectedEndpoints/XDRConnectedEndpoints.py:30 | reading back the decimal text of a count gives the count |
| Text.IntToDecimal | Packs/F5/Integrations/f5_v2/f5_v2.py:700-703 | `str(code)` starts with '-' exactly for a negative code; the rest is a non-empty string of digits whose decimal value is the code's absolute value |
| Dicts.PutKeys | Packs/F5/Integrations/f5_v2/f5_v2.py:437-439 | `d[k] = v` adds `k` to the key set and no other key |
| Dicts.PutLookup | Packs/F5/Integrations/f5_v2/f5_v2.py:437-439 | after `d[k] = v`, `d.get(k)` is `v` and every other key reads as before |
| Dicts.PutAppends | Packs/CortexXDR/Scripts/XDRConnectedEndpoints/XDRConnectedEndpoints.py:15-18 | assigning a new key appends it at the end |
| Dicts.PutDistinct | Packs/F5/Integrations/f5_v2/f5_v2.py:437-439 | assignment keeps keys distinct |
| Dicts.PutSame | Packs/F5/Integrations/f5_v2/f5_v2.py:437-439 | assigning a present key keeps length and key order |
| Dicts.NonNullMembers | Packs/F5/Integrations/f5_v2/f5_v2.py:433-439 | a pair is in the filtered body exactly when it is in `json_body_start` with a non-`None` value |
| Dicts.NonNullKeys | Packs/F5/Integrations/f5_v2/f5_v2.py:497-504 | the filtered body's key set is exactly the keys with non-`None` values, and each reads its original value |
| Dicts.LookupMember | Packs/F5/Integrations/f5_v2/f5_v2.py:497-504 | in a dict without repeated keys, `get` finds the member pair's value |
| Dicts.NonNullConcat | Packs/F5/Integrations/f5_v2/f5_v2.py:627-636 | filtering preserves declaration order: it distributes over concatenation |
| Dicts.NonNullDistinct | Packs/F5/Integrations/f5_v2/f5_v2.py:664-672 | the filtered body has no repeated key |
| Dicts.NonNullOfNones | Packs/F5/Integrations/f5_v2/f5_v2.py:664-672 | when every argument is `None`, the body is empty |
| Dicts.FilterNone | Packs/F5/Integrations/f5_v2/f5_v2.py:433-439 | the filter loop builds exactly the non-`None` entries in order, with distinct keys |
| Resolvers.LastMatch | Packs/F5/Integrations/f5_v2/f5_v2.py:64-67 | -1 or the position of a matching item with no matching item after it |
| Resolvers.FirstIndexOf | Packs/F5/Integrations/f5_v2/f5_v2.py:67 | `list.index`: the first position holding an equal item |
| Resolvers.ScanLastMatch | Packs/F5/Integrations/f5_v2/f5_v2.py:64-67 | the scan's index is -1 exactly on a miss; otherwise it holds an item equal to the last match, so it carries the same `id` |
| Resolvers.SubResourceId | Packs/F5/Integrations/f5_v2/f5_v2.py:64-70 | on a miss the key itself; otherwise the `id` of the last matching item |
| Resolvers.Resolve | Packs/F5/Integrations/f5_v2/f5_v2.py:64-70 | the scan and read-back give the last match's `id` or the key; iteration errors propagate |
| Resolvers.GetId | Packs/F5/Integrations/f5_v2/f5_v2.py:50-70 | lists `asm/policies/{md5}/{action}` and matches on `name` |
| Resolvers.GetBlockingSettingsId | Packs/F5/Integrations/f5_v2/f5_v2.py:72-94 | lists `asm/policies/{md5}/blocking-settings/{category}` and matches on `description` |
| Resolvers.GetIpId | Packs/F5/Integrations/f5_v2/f5_v2.py:96-115 | lists `asm/policies/{md5}/whitelist-ips` and matches on `ipAddress` |
| Resolvers.PolicyIdFromLink | Packs/F5/Integrations/f5_v2/f5_v2.py:48 | empty when `policies/` is absent; otherwise the longest '/'-free prefix of the text after the first `policies/` (the whole remainder when no '/' follows) |
| Resolvers.PolicyMd5Found | Packs/F5/Integrations/f5_v2/f5_v2.py:41-48 | on a match, the id cut out of the last matching policy's profile link |
| Resolvers.PolicyMd5Missing | Packs/F5/Integrations/f5_v2/f5_v2.py:41-47 | on a miss, `items[-1]` is read first: an empty list or string raises IndexError and an empty dict KeyError; otherwise the last item's profile reference is read (AttributeError if it is not a dict) and then the name is returned |
| Resolvers.GetPolicyMd5 | Packs/F5/Integrations/f5_v2/f5_v2.py:28-48 | the method lists `asm/policies` filtered by name, scans, reads `items[index]` (with the error that subscript raises) before checking for -1, and partitions the link |
| Formatters.ProjectRowOk | Packs/F5/Integrations/f5_v2/f5_v2.py:1066-1083 | a row is built exactly when every column can be computed |
| Formatters.ProjectRowFields | Packs/F5/Integrations/f5_v2/f5_v2.py:733-741 | with distinct column names, the row's keys are the names of the contributing columns, each holding its column's value |
| Formatters.ProjectRowKeys | Packs/F5/Integrations/f5_v2/f5_v2.py:1112-1129 | a row has only keys named by its columns |
| Formatters.ProjectRowAppend | Packs/F5/Integrations/f5_v2/f5_v2.py:1112-1129 | adding entries after the dict literal: the row of two column runs is the union, later entries winning |
| Formatters.RowsOf | Packs/F5/Integrations/f5_v2/f5_v2.py:731-742 | over a list, the row loop; an empty string or dict gives no rows; a non-empty string or dict raises AttributeError on its first element; a non-iterable raises TypeError |
| Formatters.RowsSpec | Packs/F5/Integrations/f5_v2/f5_v2.py:731-742 | rows are built exactly when every element is a dict whose row can be computed; then one row per element, in input order, each that element's row |
| Formatters.RowsPrefixErr | Packs/F5/Integrations/f5_v2/f5_v2.py:731-742 | an exception on an item ends the whole loop with that exception |
| Formatters.RowsFirstErr | Packs/F5/Integrations/f5_v2/f5_v2.py:731-742 | when every earlier element gives its row and element `n` raises, the loop raises element `n`'s exception (AttributeError for a non-dict, the column's error otherwise) |
| Formatters.BuildRows | Packs/F5/Integrations/f5_v2/f5_v2.py:731-742 | the append loop over the list's elements computes exactly the rows, raising AttributeError at the first non-dict |
| Formatters.ListOutputEmpty | Packs/F5/Integrations/f5_v2/f5_v2.py:724-729 | an empty response or falsy `items` gives the "no data" text with an empty context; "Nothing to show" exactly for the host-name, URL and blocking-settings lists; the raw result is the response `items` for the five formatters that rebind `result` (policies, methods, file types, cookies, whitelisted IPs: lines 727, 846, 883, 1225, 1301), and otherwise the response itself |
| Formatters.ListOutputRows | Packs/F5/Integrations/f5_v2/f5_v2.py:731-748 | otherwise the context has one key holding one row per item, in order, each that item's row; the raw result is the `items` list for the rebinding formatters and the response for the host-name, URL and blocking-settings ones (lines 1044, 1093, 1173) |
| Formatters.ListOutputFirstErr | Packs/F5/Integrations/f5_v2/f5_v2.py:731-748 | a listing raises the exception of its first element whose row cannot be built, whatever the later elements are |
| Formatters.BlockingSettingsReference | Packs/F5/Integrations/f5_v2/f5_v2.py:1055-1084 | a blocking-settings row has `reference` exactly when the endpoint maps to a reference field that is truthy in the item; `section-reference` is always present, the link or `None` |
| Formatters.SectionAndUpdateRow | Packs/F5/Integrations/f5_v2/f5_v2.py:1076-1078 | `section-reference` is the link when the item has a section reference and `None` otherwise |
| Formatters.ReferenceRow | Packs/F5/Integrations/f5_v2/f5_v2.py:1080-1083 | `reference` is added only for a mapped endpoint whose field is truthy |
| Formatters.FormatList | Packs/F5/Integrations/f5_v2/f5_v2.py:714-748 | the list formatter method returns what the specification of its formatter gives, including the error of a non-list `items` |
| Formatters.SingleOutputShape | Packs/F5/Integrations/f5_v2/f5_v2.py:777-805 | a single-object formatter returns the response as raw result; its context is empty exactly for an empty response of a checking formatter; otherwise it holds the namespaced key, plus a top-level `policy-reference` for an export with a policy reference |
| CommandTable.CommandNameRegistered | Packs/F5/Integrations/f5_v2/f5_v2.py:1407-1447 | every operation is registered, under its own name |
| Invocations.Bind | Packs/F5/Integrations/f5_v2/f5_v2.py:1450 | calling an operation with keyword arguments succeeds exactly when every keyword names a parameter, every parameter without a default is given and the string parameters get strings; otherwise TypeError |
| Invocations.BuildPositional | Packs/F5/Integrations/f5_v2/f5_v2.py:124-678 | each operation's call is its constructor applied to its parameter values in declaration order, and those values fit the parameters |
| Invocations.ParamsDistinct | Packs/F5/Integrations/f5_v2/f5_v2.py:124-678 | no operation declares a parameter name twice |
| Invocations.KwargsLookup | Packs/F5/Integrations/f5_v2/f5_v2.py:1450 | the keyword arguments built from a call name exactly its parameters, each holding its value |
| Invocations.KwargsAccepted | Packs/F5/Integrations/f5_v2/f5_v2.py:1450 | such keyword arguments are accepted and bind each parameter to its own value |
| Invocations.SameParametersBind | Packs/F5/Integrations/f5_v2/f5_v2.py:1449-1450 | the keyword arguments of one operation's call, given to any operation with the same parameters, call that operation on the same values |
| Invocations.KwargsBind | Packs/F5/Integrations/f5_v2/f5_v2.py:1450 | binding a call's keyword arguments to its own operation gives the call back |
| Invocations.BoundLearn | Packs/F5/Integrations/f5_v2/f5_v2.py:415-416 | `learn` takes its keyword argument when given and `True` otherwise |
| CommandTable.CommandsOneToOne | Packs/F5/Integrations/f5_v2/f5_v2.py:1397-1449 | the table is one-to-one, and `test-module` is not in it |
| Commands.StartBodyDistinct | Packs/F5/Integrations/f5_v2/f5_v2.py:627-632 | each `json_body_start` literal has distinct keys |
| Commands.ResolveId | Packs/F5/Integrations/f5_v2/f5_v2.py:227-228 | the operation calls the resolver its lookup names, or none (the method update here; likewise the `get_id`, `get_blocking_settings_id` and `get_ip_id` calls at lines 245, 314, 337, 382, 397, 432, 496, 520, 568, 587, 663 and 687) |
| Commands.BuildJson | Packs/F5/Integrations/f5_v2/f5_v2.py:497-504 | the body is the filtered `json_body_start` where there is one, the literal body otherwise |
| Commands.Prepare | Packs/F5/Integrations/f5_v2/f5_v2.py:217-232 | policy lookup, then sub-resource lookup, then the body, in that order, with each lookup's exception stopping the operation |
| Commands.Execute | Packs/F5/Integrations/f5_v2/f5_v2.py:1450 | running an operation sends its request and formats the answer with its formatter |
| Commands.SubResourceTarget | Packs/F5/Integrations/f5_v2/f5_v2.py:568-574 | updates and deletes target `asm/policies/{md5}/{collection}/{id}` with the resolved md5 and id; the cookie update resolves in `policy-cookies` but PATCHes `cookies`; whitelisted IPs resolve by address |
| Commands.BlockingSettingTarget | Packs/F5/Integrations/f5_v2/f5_v2.py:430-444 | the blocking-settings update PATCHes `asm/policies/{md5}/blocking-settings/{endpoint}/{id}`, the id resolved by description |
| Commands.MissTargetsKey | Packs/F5/Integrations/f5_v2/f5_v2.py:388-398 | when the resolver finds no match, the request targets the key itself in place of an id |
| Commands.PartialBody | Packs/F5/Integrations/f5_v2/f5_v2.py:664-672 | a filtered body holds exactly the non-`None` entries, unchanged, in order, with distinct keys |
| Commands.LearnDefault | Packs/F5/Integrations/f5_v2/f5_v2.py:416-440 | the blocking-settings body carries `learn` with its value when that is not `None`, and leaves it out when it is `None`; with Invocations.BoundLearn, `True` is sent when `learn` is not given |
| Commands.WhitelistAddCarriesAddress | Packs/F5/Integrations/f5_v2/f5_v2.py:627-636 | the whitelisted-IP add body starts with `ipAddress`, and is only that entry when no other argument is given |
| Commands.MethodBodyUpperCased | Packs/F5/Integrations/f5_v2/f5_v2.py:212 | method add and update send `name` and an upper-cased `actAsMethod` of the same length |
| Commands.FileTypeBodyUnfiltered | Packs/F5/Integrations/f5_v2/f5_v2.py:316-322 | file-type update (and add, lines 282-288) send all seven fields, `None` included |
| Commands.FileTypeBodyKeys | Packs/F5/Integrations/f5_v2/f5_v2.py:282-288 | the file-type body's key set |
| Commands.Dispatch | Packs/F5/Integrations/f5_v2/f5_v2.py:1449-1450 | nothing runs for a name outside the table; a name in it whose operation does not accept the arguments gives TypeError |
| Commands.DispatchSelects | Packs/F5/Integrations/f5_v2/f5_v2.py:1449-1450 | a command name runs its own operation on its own keyword arguments; under another name, the same arguments run that name's operation when it has the same parameters and raise TypeError when they hold a keyword it does not take; `test-module` runs none |
| Commands.ListingArgumentsInterchange | Packs/F5/Integrations/f5_v2/f5_v2.py:1449-1450 | the method listing's arguments under the file-type listing's name list the file types |
| Commands.TestModuleResult | Packs/F5/Integrations/f5_v2/f5_v2.py:697-703 | "ok" exactly for 200; the invalid-credentials message for 400 and above; "Error {code}: {text}" otherwise |
| Commands.TestModuleClassification | Packs/F5/Integrations/f5_v2/f5_v2.py:699-703 | the invalid-credentials prefix appears exactly for codes 400 and above |
| XdrConnectedEndpoints.EndpointArgsOf | Packs/CortexXDR/Scripts/XDRConnectedEndpoints/XDRConnectedEndpoints.py:12-18 | `limit` comes first, `'100'` when absent; `last_seen_gte` is present iff `from` is truthy, `last_seen_lte` iff `to` is truthy and not the sentinel, each equal to its argument; no other key |
| XdrConnectedEndpoints.EndpointArgs | Packs/CortexXDR/Scripts/XDRConnectedEndpoints/XDRConnectedEndpoints.py:14-18 | the conditional assignments build exactly that map |
| XdrConnectedEndpoints.ConnectedCountBounds | Packs/CortexXDR/Scripts/XDRConnectedEndpoints/XDRConnectedEndpoints.py:25-28 | the count is at most the number of endpoints; zero exactly when none is connected, the full number exactly when all are |
| XdrConnectedEndpoints.ConnectedCountAppend | Packs/CortexXDR/Scripts/XDRConnectedEndpoints/XDRConnectedEndpoints.py:25-28 | the count of a concatenation is the sum of the counts |
| XdrConnectedEndpoints.CountConnected | Packs/CortexXDR/Scripts/XDRConnectedEndpoints/XDRConnectedEndpoints.py:25-28 | the counting loop computes the count |
| XdrConnectedEndpoints.ConnectedEndpoints | Packs/CortexXDR/Scripts/XDRConnectedEndpoints/XDRConnectedEndpoints.py:9-30 | the script returns what its specification gives: IndexError on no result, the error entry's `Contents`, KeyError without `Contents`, iteration errors, or the count |
| XdrConnectedEndpoints.ScriptReportsCount | Packs/CortexXDR/Scripts/XDRConnectedEndpoints/XDRConnectedEndpoints.py:20-30 | a successful run outputs decimal text whose value is the number of connected endpoints in the returned list, with the count's bounds |
| XdrConnectedEndpoints.ScriptReportsError | Packs/CortexXDR/Scripts/XDRConnectedEndpoints/XDRConnectedEndpoints.py:21-22 | an error entry is reported with its `Contents` |

## Left out

- HTTP transport, login, headers and token, TLS and proxy settings, and `disable_warnings`. These are network I/O. Every response is the transport's answer, and transport errors are not modelled.
- The response decoded as JSON is always a dict (`Item`); a list or scalar response body is not modelled.
- A non-string value in a URL path segment, such as a numeric id, is kept as the value. Python's `str()` rendering of it in the f-string is not modelled.
- `tableToMarkdown` is not modelled. The readable output records the title and headers passed to it; the rows are the context's. `removeNull` is not modelled.
- `format_date` is a parameter that may raise. Its float division and local-time formatting are not modelled.
- `return_outputs`, `return_error`, `demisto.results`, `LOG`, `demisto.error` and the `print` calls are platform side effects.
- The top-level `try/except` messages are not modelled as text. They appear as `Err` or `Raised` carrying the exception kind. The script's `return_error` message is `ReturnedError` carrying the `Contents`.
- Invocations.Bind: a string-kept parameter (a policy or sub-resource name, the method to upper-case, the blocking-settings endpoint, the IP address) given a non-string value is reported as a `TypeError` at binding, where Python would bind it and fail, or not, later inside the operation.
- Python's positional arguments are not modelled: the entry point passes keyword arguments only.
- Commands.Dispatch does not model `test-module` running `test_module` before the table is consulted; `test_module` is modelled separately as Commands.TestModuleResult on the status code and body.
- Text.Upper and Text.Capitalize act on ASCII letters only. Unicode case mapping is not modelled.
- Values are compared structurally. Python's `1 == True` and `1 == 1.0` equalities are not modelled, and neither are floats.
- `get_policy_self_link` (f5_v2.py:117-122) is not modelled: no command calls it.
- Server-side filtering by the listing's query parameters is the transport's business.
- Unlike the other update operations, the file-type update does not filter out `None` values: it sends all seven fields (Commands.FileTypeBodyUnfiltered).
