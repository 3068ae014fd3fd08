/**
 * The state of a `CampaignMonitorAPI` object and the methods that read or
 * change it: the constructor, `set_api_key`, `set_headers`, `clear`, `run`
 * and `build_request`. The argument bag `args` is inherited from the base
 * class; `set_headers` and `clear` overwrite it, and the base class (not part
 * of this model) reads it when it sends a request.
 */
module CampaignMonitor {

  import opened PhpArrays
  import opened Base64
  import opened BasicAuth
  import opened Requests
  import opened Endpoints

  /** The password sent with the API key, which the API ignores. */
  const Placeholder: string := "nopass"

  /** The two headers `set_headers` installs for a given API key. */
  function Headers(apiKey: string): (h: Entries)
    requires IsByteString(apiKey)
    ensures |h| == 2 && DistinctKeys(h)
  {
    [("Content-Type", Str("application/json")),
     ("Authorization", Str(Credentials(apiKey, Placeholder)))]
  }

  /**
   * The headers hold the JSON content type and Basic credentials from which a
   * receiver reads back the API key as user-id and `nopass` as password.
   */
  lemma HeadersCarryKey(apiKey: string)
    requires IsByteString(apiKey) && ':' !in apiKey
    ensures Lookup(Headers(apiKey), "Content-Type") == Some(Str("application/json"))
    ensures Lookup(Headers(apiKey), "Authorization").Some?
    ensures Lookup(Headers(apiKey), "Authorization").value.Str?
    ensures Parse(Lookup(Headers(apiKey), "Authorization").value.s) == Some((apiKey, Placeholder))
  {
    ParseCredentials(apiKey, Placeholder);
  }

  /** The headers depend on the API key alone, and different keys give different headers. */
  lemma HeadersDetermineKey(apiKey: string, apiKey': string)
    requires IsByteString(apiKey) && IsByteString(apiKey')
    ensures Headers(apiKey) == Headers(apiKey') <==> apiKey == apiKey'
  {
    if Headers(apiKey) == Headers(apiKey') {
      assert Headers(apiKey)[1] == Headers(apiKey')[1];
      CredentialsInjective(apiKey, apiKey', Placeholder);
    }
  }

  class CampaignMonitorApi {
    /** The base URI at which all calls are made; only the parent class reads it. */
    const baseUri: string := "https://api.createsend.com/api/v3.1"

    var apiKey: string
    var format: string
    var prettyPrint: bool
    /** The argument bag inherited from the base class. */
    var args: Entries

    ghost predicate Valid()
      reads this
    {
      IsByteString(apiKey) && DistinctKeys(args)
    }

    /** `__construct($api_key, $format = 'json', $pretty_print = false)`. */
    constructor (apiKey: string, format: string := "json", prettyPrint: bool := false)
      requires IsByteString(apiKey)
      ensures Valid()
      ensures this.apiKey == apiKey && this.format == format && this.prettyPrint == prettyPrint
      ensures args == []
    {
      this.apiKey := apiKey;
      this.format := format;
      this.prettyPrint := prettyPrint;
      args := [];
    }

    /** `set_api_key`: replaces the key and nothing else, not even headers already set. */
    method SetApiKey(apiKey: string)
      requires Valid() && IsByteString(apiKey)
      modifies this`apiKey
      ensures Valid()
      ensures this.apiKey == apiKey
      ensures format == old(format) && prettyPrint == old(prettyPrint) && args == old(args)
    {
      this.apiKey := apiKey;
    }

    /** `set_headers`: `headers` becomes the two headers for the current key; other keys of the bag stay. */
    method SetHeaders()
      requires Valid()
      modifies this`args
      ensures Valid()
      ensures args == Put(old(args), "headers", Arr(Headers(apiKey)))
      ensures Lookup(args, "headers") == Some(Arr(Headers(apiKey)))
      ensures forall k :: k != "headers" ==> Lookup(args, k) == Lookup(old(args), k)
    {
      var headers := Arr(Headers(apiKey));
      PutDistinct(args, "headers", headers);
      PutLookup(args, "headers", headers, "headers");
      PutOthers(args, "headers", headers);
      args := Put(args, "headers", headers);
    }

    /** `clear`: empties the bag, headers included. */
    method Clear()
      requires Valid()
      modifies this`args
      ensures Valid()
      ensures args == []
      ensures !HasKey(args, "headers")
    {
      args := [];
    }

    /**
     * `build_request`: merges `pretty => true` into GET arguments when pretty
     * printing, appends `.` and the format unless the route is raw, and hands
     * route, arguments and method to the parent's `build_request`.
     */
    method BuildRequest(request: string, callArgs: Entries := [], verb: string := "GET", useOther: bool := false)
      returns (o: Outgoing)
      ensures o == Prepare(format, prettyPrint, Call(request, callArgs, verb, useOther))
      ensures useOther ==> o.request == request
      ensures !useOther ==> o.request == request + "." + format
      ensures o.verb == verb
    {
      // `callArgs` are this call's arguments, not the inherited bag `args`
      var sent := callArgs;
      var request := request;
      if prettyPrint && verb == "GET" {
        sent := MergePretty(sent);
      }
      if useOther {
        return Outgoing(request, sent, verb);
      }
      request := request + "." + format;
      return Outgoing(request, sent, verb);
    }

    /** `run`: `build_request` followed by the parent's `fetch`, which is not modelled. */
    method Run(request: string, callArgs: Entries := [], verb: string := "GET", useOther: bool := false)
      returns (o: Outgoing)
      ensures o == Prepare(format, prettyPrint, Call(request, callArgs, verb, useOther))
    {
      o := BuildRequest(request, callArgs, verb, useOther);
    }

    /** A public endpoint method: its call of `run`, with the current format. */
    method Invoke(e: Endpoint) returns (o: Outgoing)
      ensures o == Prepare(format, prettyPrint, CallOf(format, e))
    {
      var c := CallOf(format, e);
      o := Run(c.request, c.args, c.verb, c.useOther);
    }
  }
}
