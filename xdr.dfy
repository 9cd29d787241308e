/** The XDRConnectedEndpoints script: it builds the arguments of
    `xdr-get-endpoints` from its own arguments, runs the command, and reports how
    many of the returned endpoints are connected. Running the command and the
    platform's `isError` are parameters of the model. */
module XdrConnectedEndpoints {
  import opened PyValues
  import opened Dicts
  import Text

  /** The `to` value the script treats as "no upper bound". */
  const NoUpperBound := "0001-01-01T00:00:00Z"

  /** The argument map the script passes to `xdr-get-endpoints`: `limit` always
      (`"100"` when not given), `last_seen_gte` only for a truthy `from`,
      `last_seen_lte` only for a truthy `to` other than the sentinel. */
  function EndpointArgsOf(args: Item): (d: Body)
    ensures d != [] && d[0] == ("limit", if "limit" in args then args["limit"] else Str("100"))
    ensures "last_seen_gte" in KeysOf(d) <==> Truthy(Get(args, "from"))
    ensures "last_seen_lte" in KeysOf(d) <==> Truthy(Get(args, "to")) && Get(args, "to") != Str(NoUpperBound)
    ensures Truthy(Get(args, "from")) ==> Lookup(d, "last_seen_gte") == Some(Get(args, "from"))
    ensures "last_seen_lte" in KeysOf(d) ==> Lookup(d, "last_seen_lte") == Some(Get(args, "to"))
    ensures KeysOf(d) <= {"limit", "last_seen_gte", "last_seen_lte"}
    ensures DistinctKeys(d)
  {
    var from := Get(args, "from");
    var to := Get(args, "to");
    var limit := if "limit" in args then args["limit"] else Str("100");
    var gte := if Truthy(from) then [("last_seen_gte", from)] else [];
    var lte := if Truthy(to) && to != Str(NoUpperBound) then [("last_seen_lte", to)] else [];
    var d := [("limit", limit)] + gte + lte;
    assert forall p :: p in d <==> p == ("limit", limit) || p in gte || p in lte;
    assert gte != [] ==> Lookup(d, "last_seen_gte") == Some(from) by {
      if gte != [] {
        LookupMember(d, ("last_seen_gte", from));
      }
    }
    assert lte != [] ==> Lookup(d, "last_seen_lte") == Some(to) by {
      if lte != [] {
        LookupMember(d, ("last_seen_lte", to));
      }
    }
    d
  }

  /** The script's construction of the map, one conditional assignment at a time. */
  method EndpointArgs(args: Item) returns (d: Body)
    ensures d == EndpointArgsOf(args)
  {
    var from := Get(args, "from");
    var to := Get(args, "to");
    var limit := if "limit" in args then args["limit"] else Str("100");
    d := [("limit", limit)];
    if Truthy(from) {
      PutAppends(d, "last_seen_gte", from);
      d := Put(d, "last_seen_gte", from);
    }
    if Truthy(to) && to != Str(NoUpperBound) {
      assert "last_seen_lte" !in KeysOf(d);
      PutAppends(d, "last_seen_lte", to);
      d := Put(d, "last_seen_lte", to);
    }
  }

  /** `endpoint.get('endpoint_status') == 'CONNECTED'` */
  predicate Connected(e: Item) {
    Get(e, "endpoint_status") == Str("CONNECTED")
  }

  /** The number of connected endpoints. */
  function ConnectedCount(es: seq<Item>): nat {
    if es == [] then 0
    else ConnectedCount(es[..|es| - 1]) + (if Connected(es[|es| - 1]) then 1 else 0)
  }

  /** The count is at most the number of endpoints; it is zero exactly when none is
      connected and the full number exactly when all are. */
  lemma {:induction false} ConnectedCountBounds(es: seq<Item>)
    ensures ConnectedCount(es) <= |es|
    ensures ConnectedCount(es) == 0 <==> forall i :: 0 <= i < |es| ==> !Connected(es[i])
    ensures ConnectedCount(es) == |es| <==> forall i :: 0 <= i < |es| ==> Connected(es[i])
  {
    if es != [] {
      var front := es[..|es| - 1];
      ConnectedCountBounds(front);
      assert forall i :: 0 <= i < |front| ==> front[i] == es[i];
    }
  }

  /** Counting a concatenation adds the counts of its parts. */
  lemma {:induction false} ConnectedCountAppend(a: seq<Item>, b: seq<Item>)
    ensures ConnectedCount(a + b) == ConnectedCount(a) + ConnectedCount(b)
  {
    if b == [] {
      assert a + b == a;
    } else {
      var b' := b[..|b| - 1];
      assert (a + b)[..|a + b| - 1] == a + b';
      ConnectedCountAppend(a, b');
    }
  }

  /** The counting loop. */
  method CountConnected(es: seq<Item>) returns (n: nat)
    ensures n == ConnectedCount(es)
  {
    n := 0;
    for i := 0 to |es|
      invariant n == ConnectedCount(es[..i])
    {
      assert es[..i + 1][..i] == es[..i];
      if Get(es[i], "endpoint_status") == Str("CONNECTED") {
        n := n + 1;
      }
    }
    assert es[..|es|] == es;
  }

  /** How the script ends: its output, the error entry returned by the command
      (reported with its `Contents`), or an exception caught at the top level. */
  datatype Outcome = Outputs(text: string) | ReturnedError(contents: Value) | Raised(error: PyError)

  /** `res = executeCommand(...)`, then `res[0]`, its `Contents` and the count. */
  function ScriptOutcome(args: Item, execute: Body -> seq<Item>, isError: Item -> bool): Outcome {
    var res := execute(EndpointArgsOf(args));
    if res == [] then Raised(IndexError)
    else if isError(res[0]) then ReturnedError(Get(res[0], "Contents"))
    else if "Contents" !in res[0] then Raised(KeyError)
    else match ObjectsOf(res[0]["Contents"])
      case Err(e) => Raised(e)
      case Ok(es) => Outputs(Text.NatToDecimal(ConnectedCount(es)))
  }

  method ConnectedEndpoints(args: Item, execute: Body -> seq<Item>, isError: Item -> bool) returns (o: Outcome)
    ensures o == ScriptOutcome(args, execute, isError)
  {
    var getEndpointsArgs := EndpointArgs(args);
    var res := execute(getEndpointsArgs);
    if |res| == 0 {
      return Raised(IndexError);
    }
    if isError(res[0]) {
      return ReturnedError(Get(res[0], "Contents"));
    }
    if "Contents" !in res[0] {
      return Raised(KeyError);
    }
    var endpoints := ObjectsOf(res[0]["Contents"]);
    if endpoints.Err? {
      return Raised(endpoints.error);
    }
    var connected := CountConnected(endpoints.value);
    return Outputs(Text.NatToDecimal(connected));
  }

  /** A successful run outputs the decimal text of the number of listed endpoints
      whose status is `CONNECTED`; an error entry is reported with its contents. */
  lemma ScriptReportsCount(args: Item, execute: Body -> seq<Item>, isError: Item -> bool, endpoints: seq<Value>)
    requires var res := execute(EndpointArgsOf(args));
      res != [] && !isError(res[0]) && "Contents" in res[0] && res[0]["Contents"] == List(endpoints)
    requires AllObjects(endpoints)
    ensures var o := ScriptOutcome(args, execute, isError);
      && o.Outputs?
      && var n := Text.DecimalValue(o.text);
      && n == ConnectedCount(ObjectsOf(List(endpoints)).value)
      && n <= |endpoints|
      && (n == 0 <==> forall i :: 0 <= i < |endpoints| ==> !Connected(endpoints[i].fields))
      && (n == |endpoints| <==> forall i :: 0 <= i < |endpoints| ==> Connected(endpoints[i].fields))
  {
    var es := ObjectsOf(List(endpoints)).value;
    Text.DecimalRoundTrip(ConnectedCount(es));
    ConnectedCountBounds(es);
  }

  lemma ScriptReportsError(args: Item, execute: Body -> seq<Item>, isError: Item -> bool)
    requires var res := execute(EndpointArgsOf(args)); res != [] && isError(res[0])
    ensures ScriptOutcome(args, execute, isError) ==
      ReturnedError(Get(execute(EndpointArgsOf(args))[0], "Contents"))
  {
  }
}
