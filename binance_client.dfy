/** The deterministic part of the exchange client (binance/client.go): the
    proxy guard, the canonical query string and the request URL. The HTTP
    transport, HMAC-SHA256 signing, `url.QueryEscape` and `url.Parse` are
    collaborators passed in as functions. */
module BinanceClient {
  import opened Wrappers
  import opened Text

  type Params = map<string, string>

  /** What a request to the exchange produced: the transport or the status
      check failed, the body did not decode, or the decoded body. */
  datatype Reply<+T> = RequestFailed(msg: string) | Malformed(msg: string) | Body(value: T)

  /** The request `doRequest` hands to the transport. */
  datatype Request = Request(httpMethod: string, url: string, apiKeyHeader: string, contentType: string)

  /** One `key=escaped value` pair of a query string. */
  function Part(params: Params, k: string, escape: string -> string): string
    requires k in params
  {
    k + "=" + escape(params[k])
  }

  function Parts(params: Params, keys: seq<string>, escape: string -> string): (r: seq<string>)
    requires forall i :: 0 <= i < |keys| ==> keys[i] in params
    ensures |r| == |keys|
    ensures forall i :: 0 <= i < |keys| ==> r[i] == Part(params, keys[i], escape)
  {
    seq(|keys|, i requires 0 <= i < |keys| => Part(params, keys[i], escape))
  }

  /** The keys that take part in a query string, in ascending order. */
  ghost function QueryKeys(params: Params): (ks: seq<string>)
    ensures StrictlySorted(ks) && Elements(ks) == params.Keys - {"signature"}
    ensures forall i :: 0 <= i < |ks| ==> ks[i] in params && ks[i] != "signature"
  {
    var ks := SortedOf(params.Keys - {"signature"});
    assert forall i :: 0 <= i < |ks| ==> ks[i] in Elements(ks);
    ks
  }

  /** The parts of one more key are the parts so far and that key's part. */
  lemma PartsSnoc(params: Params, keys: seq<string>, i: nat, escape: string -> string)
    requires i < |keys| && forall j :: 0 <= j < |keys| ==> keys[j] in params
    ensures Parts(params, keys[..i + 1], escape) == Parts(params, keys[..i], escape) + [Part(params, keys[i], escape)]
  {
    var a, b := Parts(params, keys[..i + 1], escape), Parts(params, keys[..i], escape) + [Part(params, keys[i], escape)];
    assert forall j :: 0 <= j < i + 1 ==> a[j] == b[j];
  }

  /** The canonical query string of `buildQueryString`. */
  ghost function QueryString(params: Params, escape: string -> string): string {
    if |params| == 0 then "" else Join(Parts(params, QueryKeys(params), escape), "&")
  }

  /** Parameters a signed request actually sends: the caller's plus `timestamp`
      (in milliseconds). */
  function WithTimestamp(params: Params, nowMillis: int): (sent: Params)
    ensures sent.Keys == params.Keys + {"timestamp"}
    ensures sent["timestamp"] == IntToDecimal(nowMillis)
    ensures forall k :: k in params && k != "timestamp" ==> sent[k] == params[k]
  {
    params["timestamp" := IntToDecimal(nowMillis)]
  }

  /** A joined list of non-empty parts is empty only when there are no parts. */
  lemma {:induction false} JoinEmpty(parts: seq<string>, sep: string)
    requires forall i :: 0 <= i < |parts| ==> |parts[i]| > 0
    ensures (Join(parts, sep) == "") <==> |parts| == 0
  {
    if |parts| > 1 {
      assert |Join(parts, sep)| >= |parts[0]|;
    }
  }

  /** The query string is empty exactly when no key other than `signature` is present. */
  lemma QueryStringEmpty(params: Params, escape: string -> string)
    ensures (QueryString(params, escape) == "") <==> params.Keys - {"signature"} == {}
  {
    var ks := QueryKeys(params);
    var ps := Parts(params, ks, escape);
    JoinEmpty(ps, "&");
    ElementsSmall(ks);
  }

  /** A `signature` entry supplied by the caller never reaches the query string. */
  lemma QueryStringIgnoresSignature(params: Params, escape: string -> string)
    ensures QueryString(params, escape) == QueryString(params - {"signature"}, escape)
  {
    var p2 := params - {"signature"};
    SameQueryKeys(params, p2);
    var ks := QueryKeys(params);
    if |params| == 0 {
      assert p2 == params;
    } else if |p2| == 0 {
      ElementsSmall(ks);
    } else {
      PartsAgree(params, p2, ks, escape);
    }
  }

  /** Dropping `signature` leaves the query keys as they were. */
  lemma SameQueryKeys(params: Params, p2: Params)
    requires p2 == params - {"signature"}
    ensures QueryKeys(p2) == QueryKeys(params)
  {
    assert p2.Keys - {"signature"} == params.Keys - {"signature"};
  }

  /** Parts built from two maps that agree on the listed keys are equal. */
  lemma PartsAgree(params: Params, p2: Params, ks: seq<string>, escape: string -> string)
    requires forall i :: 0 <= i < |ks| ==> ks[i] in params && ks[i] in p2 && params[ks[i]] == p2[ks[i]]
    ensures Parts(params, ks, escape) == Parts(p2, ks, escape)
  {
    var a, b := Parts(params, ks, escape), Parts(p2, ks, escape);
    assert forall i :: 0 <= i < |ks| ==> a[i] == b[i];
  }

  /** A single ordinary parameter gives `key=escape(value)` with no separator. */
  lemma QueryStringSingle(k: string, v: string, escape: string -> string)
    requires k != "signature"
    ensures QueryString(map[k := v], escape) == k + "=" + escape(v)
  {
    var p := map[k := v];
    var ks := QueryKeys(p);
    assert p.Keys - {"signature"} == {k};
    ElementsSmall([k]);
    assert StrictlySorted([k]);
    StrictlySortedUnique(ks, [k]);
  }

  /** The exchange client. Only the transport's proxy changes after creation. */
  class Client {
    const apiKey: string
    const apiSecret: string
    const baseURL: string
    /** The proxy URL installed in the HTTP transport, if any. */
    var proxy: Option<string>

    /** `NewClient`: the proxy is installed only for a non-empty URL that parses. */
    constructor (apiKey: string, apiSecret: string, baseURL: string, proxyURL: string, urlParses: string -> bool)
      ensures this.apiKey == apiKey && this.apiSecret == apiSecret && this.baseURL == baseURL
      ensures proxy == if proxyURL != "" && urlParses(proxyURL) then Some(proxyURL) else None
    {
      this.apiKey := apiKey;
      this.apiSecret := apiSecret;
      this.baseURL := baseURL;
      proxy := None;
      new;
      if proxyURL != "" {
        SetProxy(proxyURL, urlParses);
      }
    }

    /** `SetProxy`: an empty or unparseable URL leaves the transport as it was. */
    method SetProxy(proxyURL: string, urlParses: string -> bool)
      modifies this
      ensures proxy == if proxyURL != "" && urlParses(proxyURL) then Some(proxyURL) else old(proxy)
    {
      if proxyURL == "" {
        return;
      }
      if !urlParses(proxyURL) {
        return;
      }
      proxy := Some(proxyURL);
    }

    /** `buildQueryString`: keys in ascending order, `signature` left out, each
        value escaped, parts joined by `&`. */
    method BuildQueryString(params: Params, escape: string -> string) returns (qs: string)
      ensures qs == QueryString(params, escape)
    {
      if |params| == 0 {
        return "";
      }
      var keys := CollectKeys(params);
      var parts: seq<string> := [];
      var i := 0;
      while i < |keys|
        invariant 0 <= i <= |keys|
        invariant parts == Parts(params, keys[..i], escape)
      {
        PartsSnoc(params, keys, i, escape);
        parts := parts + [keys[i] + "=" + escape(params[keys[i]])];
        i := i + 1;
      }
      assert keys[..i] == keys;
      qs := Join(parts, "&");
    }

    /** The key collection and `sort.Strings` of `buildQueryString`: the list is
        kept in ascending order as keys are added, which yields what collecting
        and then sorting yields. */
    method CollectKeys(params: Params) returns (keys: seq<string>)
      ensures keys == QueryKeys(params)
    {
      keys := [];
      var remaining := params.Keys;
      while remaining != {}
        invariant remaining <= params.Keys
        invariant StrictlySorted(keys)
        invariant Elements(keys) == (params.Keys - remaining) - {"signature"}
        decreases remaining
      {
        var k :| k in remaining;
        if k != "signature" {
          keys := InsertSorted(keys, k);
        }
        remaining := remaining - {k};
      }
      StrictlySortedUnique(keys, QueryKeys(params));
    }

    /** The URL and headers of `doRequest`. A signed request adds `timestamp`
        to the parameters (returned as `sent`; Go writes it into the caller's
        map) and appends the signature, computed over the same query string;
        an unsigned one appends `?query` only when there are parameters.
        `newRequest` gives the error of `http.NewRequest` for a method and
        URL it rejects, which is returned under its prefix. */
    method BuildRequest(httpMethod: string, endpoint: string, params: Params, signed: bool, nowMillis: int,
                        hmacHex: (string, string) -> string, escape: string -> string,
                        newRequest: (string, string) -> Option<string>)
      returns (r: Result<Request>, sent: Params)
      ensures signed ==> sent == WithTimestamp(params, nowMillis)
      ensures !signed ==> sent == params
      ensures signed ==>
        var url := baseURL + endpoint + "?" + QueryString(sent, escape) + "&signature=" + hmacHex(apiSecret, QueryString(sent, escape));
        (newRequest(httpMethod, url).Some? ==> r == Err("创建请求失败: " + newRequest(httpMethod, url).value)) &&
        (newRequest(httpMethod, url).None? ==> r == Ok(Request(httpMethod, url, apiKey, "application/json")))
      ensures !signed ==>
        var url := baseURL + endpoint + (if |params| > 0 then "?" + QueryString(params, escape) else "");
        (newRequest(httpMethod, url).Some? ==> r == Err("创建请求失败: " + newRequest(httpMethod, url).value)) &&
        (newRequest(httpMethod, url).None? ==> r == Ok(Request(httpMethod, url, apiKey, "application/json")))
    {
      var fullURL: string;
      if signed {
        sent := params["timestamp" := IntToDecimal(nowMillis)];
        fullURL := SignedURL(endpoint, sent, hmacHex, escape);
      } else {
        sent := params;
        fullURL := UnsignedURL(endpoint, params, escape);
      }
      r := NewRequest(httpMethod, fullURL, newRequest);
    }

    /** `http.NewRequest` followed by the two headers; a rejected method or
        URL is an error under the request prefix. */
    method NewRequest(httpMethod: string, url: string, newRequest: (string, string) -> Option<string>)
      returns (r: Result<Request>)
      ensures newRequest(httpMethod, url).Some? ==> r == Err("创建请求失败: " + newRequest(httpMethod, url).value)
      ensures newRequest(httpMethod, url).None? ==> r == Ok(Request(httpMethod, url, apiKey, "application/json"))
    {
      match newRequest(httpMethod, url)
      case Some(err) =>
        r := Err("创建请求失败: " + err);
      case None =>
        r := Ok(Request(httpMethod, url, apiKey, "application/json"));
    }

    /** The signed branch of `doRequest`: the signature goes last. */
    method SignedURL(endpoint: string, sent: Params, hmacHex: (string, string) -> string, escape: string -> string)
      returns (fullURL: string)
      ensures fullURL == baseURL + endpoint + "?" + QueryString(sent, escape)
                         + "&signature=" + hmacHex(apiSecret, QueryString(sent, escape))
    {
      var signature := Sign(sent, hmacHex, escape);
      var queryString := BuildQueryString(sent, escape);
      queryString := queryString + "&signature=" + signature;
      fullURL := baseURL + endpoint + "?" + queryString;
    }

    /** The unsigned branch of `doRequest`: `?` only when there are parameters. */
    method UnsignedURL(endpoint: string, params: Params, escape: string -> string) returns (fullURL: string)
      ensures fullURL == baseURL + endpoint + (if |params| > 0 then "?" + QueryString(params, escape) else "")
    {
      fullURL := baseURL + endpoint;
      if |params| > 0 {
        var queryString := BuildQueryString(params, escape);
        fullURL := fullURL + "?" + queryString;
      }
    }

    /** `sign`: HMAC-SHA256 under the API secret of the canonical query string,
        hex encoded. */
    method Sign(params: Params, hmacHex: (string, string) -> string, escape: string -> string) returns (signature: string)
      ensures signature == hmacHex(apiSecret, QueryString(params, escape))
    {
      var queryString := BuildQueryString(params, escape);
      signature := hmacHex(apiSecret, queryString);
    }
  }
}
