/** How the exchange client assembles a request: the base URL without its
    trailing slashes, the path with a leading slash, the query string with its
    parameters in sorted key order, the JSON body, and the message that the
    HMAC signature is computed over.  The HMAC digest, the HTTP session and the
    clock are outside the model. */
module Client {
  import opened PyValues

  /** `s.rstrip("/")`. */
  function RstripSlash(s: string): (r: string)
    ensures |r| <= |s| && r == s[..|r|]
    ensures r == [] || r[|r| - 1] != '/'
    ensures forall i :: |r| <= i < |s| ==> s[i] == '/'
  {
    if s == [] || s[|s| - 1] != '/' then s else RstripSlash(s[..|s| - 1])
  }

  /** `path if path.startswith("/") else f"/{path}"`. */
  function NormalisePath(path: string): (r: string)
    ensures |r| > 0 && r[0] == '/'
    ensures |path| > 0 && path[0] == '/' ==> r == path
    ensures (|path| == 0 || path[0] != '/') ==> r == "/" + path
  {
    if |path| > 0 && path[0] == '/' then path else "/" + path
  }

  lemma NormalisePathIdempotent(path: string)
    ensures NormalisePath(NormalisePath(path)) == NormalisePath(path)
  {
  }

  // ----- Python's string order -----

  /** `a <= b` on str: lexicographic in character codes. */
  predicate Le(a: string, b: string)
  {
    a == [] || (b != [] && (a[0] < b[0] || (a[0] == b[0] && Le(a[1..], b[1..]))))
  }

  lemma {:induction false} LeReflexive(a: string)
    ensures Le(a, a)
  {
    if a != [] {
      LeReflexive(a[1..]);
    }
  }

  lemma {:induction false} LeTotal(a: string, b: string)
    ensures Le(a, b) || Le(b, a)
  {
    if a != [] && b != [] && a[0] == b[0] {
      LeTotal(a[1..], b[1..]);
    }
  }

  lemma {:induction false} LeTrans(a: string, b: string, c: string)
    requires Le(a, b) && Le(b, c)
    ensures Le(a, c)
  {
    if a != [] && b != [] && c != [] && a[0] == b[0] == c[0] {
      LeTrans(a[1..], b[1..], c[1..]);
    }
  }

  lemma {:induction false} LeAntisymmetric(a: string, b: string)
    requires Le(a, b) && Le(b, a)
    ensures a == b
  {
    if a != [] && b != [] {
      LeAntisymmetric(a[1..], b[1..]);
      assert a == [a[0]] + a[1..];
      assert b == [b[0]] + b[1..];
    }
  }

  predicate Sorted(s: seq<string>)
  {
    forall i, j :: 0 <= i < j < |s| ==> Le(s[i], s[j])
  }

  function Insert(x: string, s: seq<string>): (r: seq<string>)
    requires Sorted(s)
    ensures Sorted(r)
    ensures multiset(r) == multiset(s) + multiset{x}
  {
    if s == [] then [x]
    else if Le(x, s[0]) then
      assert forall j :: 0 < j < |s| ==> Le(x, s[j]) by {
        forall j | 0 < j < |s| ensures Le(x, s[j]) { LeTrans(x, s[0], s[j]); }
      }
      [x] + s
    else
      LeTotal(x, s[0]);
      assert s == [s[0]] + s[1..];
      var rest := Insert(x, s[1..]);
      assert forall j :: 0 <= j < |rest| ==> Le(s[0], rest[j]) by {
        forall j | 0 <= j < |rest| ensures Le(s[0], rest[j]) {
          assert rest[j] in multiset(rest);
          if rest[j] != x {
            assert rest[j] in multiset(s[1..]);
            var k :| 0 <= k < |s[1..]| && s[1..][k] == rest[j];
            assert s[k + 1] == rest[j];
          }
        }
      }
      [s[0]] + rest
  }

  /** `sorted(keys)`: an insertion sort. */
  function Sort(s: seq<string>): (r: seq<string>)
    ensures Sorted(r)
    ensures multiset(r) == multiset(s)
  {
    if s == [] then []
    else
      assert s == [s[0]] + s[1..];
      Insert(s[0], Sort(s[1..]))
  }

  /** The first element of a sorted sequence is below all of its elements. */
  lemma HeadIsLeast(a: seq<string>, x: string)
    requires Sorted(a) && x in multiset(a)
    ensures Le(a[0], x)
  {
    var i :| 0 <= i < |a| && a[i] == x;
    if i == 0 {
      LeReflexive(x);
    }
  }

  lemma SortedTail(a: seq<string>)
    requires Sorted(a) && a != []
    ensures Sorted(a[1..])
  {
    assert forall i, j :: 0 <= i < j < |a[1..]| ==> a[1..][i] == a[i + 1] && a[1..][j] == a[j + 1];
  }

  /** There is only one sorted arrangement of a collection of keys. */
  lemma {:induction false} SortedUnique(a: seq<string>, b: seq<string>)
    requires Sorted(a) && Sorted(b)
    requires multiset(a) == multiset(b)
    ensures a == b
  {
    if a != [] {
      assert b != [] by { assert |multiset(b)| == |multiset(a)| == |a|; }
      assert a[0] in multiset(a) && b[0] in multiset(b);
      HeadIsLeast(b, a[0]);
      HeadIsLeast(a, b[0]);
      LeAntisymmetric(a[0], b[0]);
      assert a == [a[0]] + a[1..];
      assert b == [b[0]] + b[1..];
      assert multiset(a[1..]) == multiset(a) - multiset{a[0]};
      assert multiset(b[1..]) == multiset(b) - multiset{b[0]};
      SortedTail(a);
      SortedTail(b);
      SortedUnique(a[1..], b[1..]);
    }
  }

  // ----- Query string -----

  /** A params dict, in insertion order. */
  type Params = seq<(string, Value)>

  function ParamKeys(params: Params): (r: seq<string>)
    ensures |r| == |params|
    ensures forall i :: 0 <= i < |params| ==> r[i] == params[i].0
  {
    seq(|params|, i requires 0 <= i < |params| => params[i].0)
  }

  /** `params[k]`: the value under `k` (the last pair with that key). */
  function ParamValue(params: Params, k: string): Value
  {
    if params == [] then Null
    else if params[|params| - 1].0 == k then params[|params| - 1].1
    else ParamValue(params[..|params| - 1], k)
  }

  function Pairs(params: Params, keys: seq<string>, py: Builtins): (r: seq<string>)
    ensures |r| == |keys|
    ensures forall i :: 0 <= i < |keys| ==> r[i] == keys[i] + "=" + PyStr(ParamValue(params, keys[i]), py)
  {
    seq(|keys|, i requires 0 <= i < |keys| => keys[i] + "=" + PyStr(ParamValue(params, keys[i]), py))
  }

  function JoinAmp(parts: seq<string>): string
  {
    if parts == [] then ""
    else if |parts| == 1 then parts[0]
    else parts[0] + "&" + JoinAmp(parts[1..])
  }

  /** The query string: empty without params (None or an empty dict), else
      "?" and the `key=value` pairs joined by "&" in sorted key order. */
  function QueryString(params: Params, py: Builtins): (r: string)
    ensures params == [] <==> r == ""
    ensures params != [] ==> r[0] == '?'
    ensures params != [] ==>
      exists keys {:trigger Pairs(params, keys, py)} :: Sorted(keys) && multiset(keys) == multiset(ParamKeys(params))
        && r == "?" + JoinAmp(Pairs(params, keys, py))
  {
    if params == [] then ""
    else "?" + JoinAmp(Pairs(params, Sort(ParamKeys(params)), py))
  }

  /** The query string depends only on what the params say, not on the order
      they were inserted in. */
  lemma QueryStringCanonical(a: Params, b: Params, py: Builtins)
    requires multiset(ParamKeys(a)) == multiset(ParamKeys(b))
    requires forall k :: ParamValue(a, k) == ParamValue(b, k)
    ensures QueryString(a, py) == QueryString(b, py)
  {
    SortedUnique(Sort(ParamKeys(a)), Sort(ParamKeys(b)));
    assert |a| == |multiset(ParamKeys(a))| == |multiset(ParamKeys(b))| == |b|;
    var keys := Sort(ParamKeys(a));
    assert Pairs(a, keys, py) == Pairs(b, keys, py);
  }

  // ----- Signing -----

  /** The text the HMAC signature is computed over: timestamp, HTTP method in upper
      case, path, query string and body, in that order. */
  function SigningMessage(timestamp: string, verb: string, requestPath: string, queryString: string, body: string): (r: string)
    ensures |r| == |timestamp| + |verb| + |requestPath| + |queryString| + |body|
    ensures r[..|timestamp|] == timestamp
    ensures r[|timestamp|..|timestamp| + |verb|] == Upper(verb)
    ensures r[|timestamp| + |verb|..|timestamp| + |verb| + |requestPath|] == requestPath
    ensures r[|timestamp| + |verb| + |requestPath|..|r| - |body|] == queryString
    ensures r[|r| - |body|..] == body
  {
    var r := timestamp + Upper(verb) + requestPath + queryString + body;
    var a := |timestamp| + |verb|;
    assert r[a..a + |requestPath|] == requestPath;
    assert r[a + |requestPath|..|r| - |body|] == queryString;
    assert r[|r| - |body|..] == body;
    r
  }

  // ----- Requests -----

  datatype WeexClient = WeexClient(baseUrl: string)

  /** `WeexClient(base_url)`. */
  function NewClient(baseUrl: string): (c: WeexClient)
    ensures c.baseUrl == RstripSlash(baseUrl)
  {
    WeexClient(RstripSlash(baseUrl))
  }

  /** What `_request` sends: the URL, the HTTP method, the data of a POST, and
      for a private request the message its signature covers. */
  datatype Request = Request(
    url: string,
    verb: string,
    data: Option<string>,
    signedMessage: Option<string>)

  /** `json.dumps(body, separators=(",", ":"))`, or "" without a body. */
  function JsonBody(body: Option<Value>, py: Builtins): string
  {
    if body.Some? then py.jsonDumps(body.value) else ""
  }

  /** `_request` up to the HTTP call, with the clock reading as
      `timestampMs`.  The body is signed only for POST; any method other than
      GET or POST raises ValueError. */
  function PrepareRequest(c: WeexClient, verb: string, path: string, params: Params, body: Option<Value>,
                          isPrivate: bool, timestampMs: string, py: Builtins): (r: Result<Request>)
    ensures r.Raise? <==> Upper(verb) != "GET" && Upper(verb) != "POST"
    ensures r.Raise? ==> r.error == "ValueError"
    ensures r.Ok? ==>
      && r.value.verb == Upper(verb)
      && r.value.url == c.baseUrl + NormalisePath(path) + QueryString(params, py)
      && (r.value.data.Some? <==> Upper(verb) == "POST")
      && (r.value.data.Some? ==> r.value.data.value == JsonBody(body, py))
      && (r.value.signedMessage.Some? <==> isPrivate)
      && (isPrivate && Upper(verb) == "POST" ==>
            r.value.signedMessage.value == SigningMessage(timestampMs, verb, NormalisePath(path),
                                                          QueryString(params, py), JsonBody(body, py)))
      && (isPrivate && Upper(verb) == "GET" ==>
            r.value.signedMessage.value == SigningMessage(timestampMs, verb, NormalisePath(path),
                                                          QueryString(params, py), ""))
  {
    UpperIdempotent(verb);
    var m := Upper(verb);
    var p := NormalisePath(path);
    var q := QueryString(params, py);
    var jsonBody := JsonBody(body, py);
    var signed := if isPrivate then Some(SigningMessage(timestampMs, m, p, q, if m == "POST" then jsonBody else ""))
                  else None;
    if m == "GET" then Ok(Request(c.baseUrl + p + q, m, None, signed))
    else if m == "POST" then Ok(Request(c.baseUrl + p + q, m, Some(jsonBody), signed))
    else Raise("ValueError")
  }

  /** `public_get`. */
  function PublicGet(c: WeexClient, path: string, params: Params, py: Builtins): (r: Request)
    ensures r.verb == "GET" && r.data.None? && r.signedMessage.None?
    ensures r.url == c.baseUrl + NormalisePath(path) + QueryString(params, py)
  {
    PrepareRequest(c, "GET", path, params, None, false, "", py).value
  }

  /** `private_get`. */
  function PrivateGet(c: WeexClient, path: string, params: Params, timestampMs: string, py: Builtins): (r: Request)
    ensures r.verb == "GET" && r.data.None?
    ensures r.signedMessage == Some(timestampMs + "GET" + NormalisePath(path) + QueryString(params, py))
  {
    assert Upper("GET") == "GET";
    var m := timestampMs + "GET" + NormalisePath(path) + QueryString(params, py);
    assert SigningMessage(timestampMs, "GET", NormalisePath(path), QueryString(params, py), "") == m + "";
    assert m + "" == m;
    PrepareRequest(c, "GET", path, params, None, true, timestampMs, py).value
  }

  /** `private_post`. */
  function PrivatePost(c: WeexClient, path: string, body: Value, timestampMs: string, py: Builtins): (r: Request)
    ensures r.verb == "POST" && r.data == Some(py.jsonDumps(body))
    ensures r.signedMessage == Some(timestampMs + "POST" + NormalisePath(path) + py.jsonDumps(body))
    ensures r.url == c.baseUrl + NormalisePath(path)
  {
    assert Upper("POST") == "POST";
    assert QueryString([], py) == "";
    var m := timestampMs + "POST" + NormalisePath(path) + py.jsonDumps(body);
    assert SigningMessage(timestampMs, "POST", NormalisePath(path), "", py.jsonDumps(body)) == m;
    PrepareRequest(c, "POST", path, [], Some(body), true, timestampMs, py).value
  }
}
