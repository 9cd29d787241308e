/** Name-to-identifier resolution of the F5 client (`Client.get_policy_md5`,
    `get_id`, `get_blocking_settings_id`, `get_ip_id`). Each lists a collection,
    scans the listed items forward and keeps overwriting the matched index, so
    the last match wins; on a miss the sub-resource resolvers return the key itself. */
module Resolvers {
  import opened PyValues
  import opened Dicts
  import opened Http
  import Text

  /** `element.get(field) == key` */
  predicate Matches(item: Item, field: string, key: string) {
    Get(item, field) == Str(key)
  }

  /** The position of the last item whose `field` equals `key`, or -1. */
  function LastMatch(items: seq<Item>, field: string, key: string): (k: int)
    ensures -1 <= k < |items|
    ensures k >= 0 ==> Matches(items[k], field, key)
    ensures forall j :: k < j < |items| ==> !Matches(items[j], field, key)
  {
    if items == [] then -1
    else if Matches(items[|items| - 1], field, key) then |items| - 1
    else LastMatch(items[..|items| - 1], field, key)
  }

  /** `items.index(x)`: the first position holding an item equal to `x`. */
  function FirstIndexOf(items: seq<Item>, x: Item): (i: nat)
    requires x in items
    ensures i < |items| && items[i] == x
    ensures forall j :: 0 <= j < i ==> items[j] != x
  {
    if items[0] == x then 0 else 1 + FirstIndexOf(items[1..], x)
  }

  /** The scan loop shared by the resolvers. `items.index(element)` may land on an
      earlier equal duplicate of the last match, which is the same item. */
  method ScanLastMatch(items: seq<Item>, field: string, key: string) returns (index: int)
    ensures index == -1 <==> LastMatch(items, field, key) == -1
    ensures index != -1 ==> 0 <= index <= LastMatch(items, field, key)
    ensures index != -1 ==> items[index] == items[LastMatch(items, field, key)]
  {
    index := -1;
    for i := 0 to |items|
      invariant index == -1 <==> LastMatch(items[..i], field, key) == -1
      invariant index != -1 ==> 0 <= index <= LastMatch(items[..i], field, key)
      invariant index != -1 ==> items[index] == items[LastMatch(items[..i], field, key)]
    {
      assert items[..i + 1][..i] == items[..i];
      if Get(items[i], field) == Str(key) {
        index := FirstIndexOf(items, items[i]);
      }
    }
    assert items[..|items|] == items;
  }

  /** What a sub-resource resolver returns for a listing: the `id` of the last
      matching item, or the key itself when nothing matches. */
  function SubResourceId(items: seq<Item>, field: string, key: string): (id: Value)
    ensures (forall j :: 0 <= j < |items| ==> !Matches(items[j], field, key)) ==> id == Str(key)
    ensures forall j ::
      0 <= j < |items| && Matches(items[j], field, key) &&
      (forall l :: j < l < |items| ==> !Matches(items[l], field, key))
      ==> id == Get(items[j], "id")
  {
    var k := LastMatch(items, field, key);
    if k < 0 then Str(key) else Get(items[k], "id")
  }

  /** Resolution against a listing response; iterating its `items` may raise. */
  function ResolveIn(response: Item, field: string, key: string): Result<Value> {
    var items :- ObjectsOf(Get(response, "items"));
    Ok(SubResourceId(items, field, key))
  }

  method Resolve(response: Item, field: string, key: string) returns (r: Result<Value>)
    ensures r == ResolveIn(response, field, key)
  {
    var items :- ObjectsOf(Get(response, "items"));
    var index := ScanLastMatch(items, field, key);
    if index == -1 {
      return Ok(Str(key));
    }
    return Ok(Get(items[index], "id"));
  }

  /** GET `asm/policies/{md5}/{action}` */
  function IdListing(md5: string, action: string): Request {
    Request(GET, PolicyPath(md5) + [Str(action)], [], None)
  }

  /** GET `asm/policies/{md5}/blocking-settings/{category}` */
  function BlockingSettingsListing(md5: string, category: string): Request {
    Request(GET, PolicyPath(md5) + [Str("blocking-settings"), Str(category)], [], None)
  }

  /** GET `asm/policies/{md5}/whitelist-ips` */
  function IpListing(md5: string): Request {
    Request(GET, PolicyPath(md5) + [Str("whitelist-ips")], [], None)
  }

  /** GET `asm/policies` with the name filter parameter. */
  function PolicyListing(policyName: string): Request {
    Request(GET, [Str("asm"), Str("policies")], [("items", List([Object(map["name" := Str(policyName)])]))], None)
  }

  function IdOf(http: Transport, md5: string, name: string, action: string): Result<Value> {
    ResolveIn(http(IdListing(md5, action)), "name", name)
  }

  function BlockingSettingsIdOf(http: Transport, md5: string, category: string, description: string): Result<Value> {
    ResolveIn(http(BlockingSettingsListing(md5, category)), "description", description)
  }

  function IpIdOf(http: Transport, md5: string, ipAddress: string): Result<Value> {
    ResolveIn(http(IpListing(md5)), "ipAddress", ipAddress)
  }

  /** `get_id`: matches on `name` in `asm/policies/{md5}/{action}`. */
  method GetId(http: Transport, md5: string, name: string, action: string) returns (r: Result<Value>)
    ensures r == ResolveIn(http(IdListing(md5, action)), "name", name)
  {
    r := Resolve(http(IdListing(md5, action)), "name", name);
  }

  /** `get_blocking_settings_id`: matches on `description` in the category's listing. */
  method GetBlockingSettingsId(http: Transport, md5: string, category: string, description: string)
    returns (r: Result<Value>)
    ensures r == ResolveIn(http(BlockingSettingsListing(md5, category)), "description", description)
  {
    r := Resolve(http(BlockingSettingsListing(md5, category)), "description", description);
  }

  /** `get_ip_id`: matches on `ipAddress` in the whitelisted IPs. */
  method GetIpId(http: Transport, md5: string, ipAddress: string) returns (r: Result<Value>)
    ensures r == ResolveIn(http(IpListing(md5)), "ipAddress", ipAddress)
  {
    r := Resolve(http(IpListing(md5)), "ipAddress", ipAddress);
  }

  /** The policy id in a profile link: `link.partition('policies/')[2].partition('/')[0]`. */
  function PolicyIdFromLink(link: string): (id: string)
    ensures Text.Find(link, "policies/") == -1 ==> id == ""
    ensures '/' !in id
    ensures Text.Find(link, "policies/") >= 0 ==>
      var rest := link[Text.Find(link, "policies/") + 9..];
      id <= rest && (|id| == |rest| || rest[|id|] == '/')
  {
    var after := Text.Partition(link, "policies/").2;
    var id := Text.Partition(after, "/").0;
    Text.OccursAtChar(after, '/');
    assert id <= after;
    id
  }

  /** `get_policy_md5` on the listing response: the scan, then `items[index]` on the
      listed value itself (Python's `items[-1]` on a miss), its profile link, and
      only then the check for a miss. */
  function PolicyMd5In(response: Item, policyName: string): Result<string> {
    var listed := Get(response, "items");
    var items :- ObjectsOf(listed);
    var k := LastMatch(items, "name", policyName);
    var item :- Subscript(listed, k);
    var reference :- AttrGet(item, "plainTextProfileReference");
    var link :- AttrGet(reference, "link");
    if k == -1 then Ok(policyName)
    else if link.Str? then Ok(PolicyIdFromLink(link.s))
    else Err(AttributeError)
  }

  function PolicyMd5Of(http: Transport, policyName: string): Result<string> {
    PolicyMd5In(http(PolicyListing(policyName)), policyName)
  }

  /** On a match, the id cut out of the last matching policy's profile link. */
  lemma PolicyMd5Found(response: Item, policyName: string, items: seq<Item>, j: int, link: string)
    requires ObjectsOf(Get(response, "items")) == Ok(items)
    requires 0 <= j < |items| && Matches(items[j], "name", policyName)
    requires forall l :: j < l < |items| ==> !Matches(items[l], "name", policyName)
    requires AttrGet(Get(items[j], "plainTextProfileReference"), "link") == Ok(Str(link))
    ensures PolicyMd5In(response, policyName) == Ok(PolicyIdFromLink(link))
  {
    var k := LastMatch(items, "name", policyName);
    assert k == j;
    assert Subscript(Get(response, "items"), k) == Ok(Object(items[j]));
  }

  /** On a miss the policy name itself comes back, but only after the last listed
      item's profile reference was dereferenced; an empty listing raises, an
      IndexError for an empty list or string and a KeyError for an empty dict. */
  lemma PolicyMd5Missing(response: Item, policyName: string, items: seq<Item>)
    requires ObjectsOf(Get(response, "items")) == Ok(items)
    requires forall j :: 0 <= j < |items| ==> !Matches(items[j], "name", policyName)
    ensures items == [] && Get(response, "items").Object? ==> PolicyMd5In(response, policyName) == Err(KeyError)
    ensures items == [] && !Get(response, "items").Object? ==> PolicyMd5In(response, policyName) == Err(IndexError)
    ensures items != [] ==>
      PolicyMd5In(response, policyName) ==
        (if Get(items[|items| - 1], "plainTextProfileReference").Object? then Ok(policyName) else Err(AttributeError))
  {
  }

  method GetPolicyMd5(http: Transport, policyName: string) returns (r: Result<string>)
    ensures r == PolicyMd5In(http(PolicyListing(policyName)), policyName)
  {
    var response := http(PolicyListing(policyName));
    var listed := Get(response, "items");
    var items :- ObjectsOf(listed);
    var index := ScanLastMatch(items, "name", policyName);
    assert Subscript(listed, index) == Subscript(listed, LastMatch(items, "name", policyName));
    var item :- Subscript(listed, index);
    var reference :- AttrGet(item, "plainTextProfileReference");
    var link :- AttrGet(reference, "link");
    if index == -1 {
      return Ok(policyName);
    }
    if !link.Str? {
      return Err(AttributeError);
    }
    return Ok(PolicyIdFromLink(link.s));
  }
}
