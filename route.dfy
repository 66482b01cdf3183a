/** The proxy endpoint `GET /api/characters`: check the configured keys, sign the request with
    a timestamp and a hash, carry over the paging and search parameters, and relay the upstream
    answer or report a failure. The hash function and the upstream call are parameters. */
module CharactersRoute {
  import opened Wrappers
  import Text
  import QueryString

  type Pair = QueryString.Pair

  const KeysMissingMessage: string := "API keys not configured"
  const FetchFailedMessage: string := "Failed to fetch characters"
  const DefaultLimit: string := "20"
  const DefaultOffset: string := "0"
  const ServerError: nat := 500
  const Ok: nat := 200

  /** The two keys read from the process environment; either may be unset. */
  datatype Env = Env(publicKey: Option<string>, privateKey: Option<string>)

  /** What the upstream call gave: an ok response and its decoded body, a response that is not
      ok, or an error thrown by the fetch or the decoding. */
  datatype Upstream<D> = Answered(data: D) | NotOk | Threw

  datatype Body<D> = Relayed(data: D) | Error(message: string)

  datatype Response<D> = Response(status: nat, body: Body<D>)

  /** JavaScript truthiness of an optional string: set and non-empty. */
  predicate Truthy(v: Option<string>) {
    v.Some? && v.value != ""
  }

  /** `URLSearchParams.get`: the value of the first pair with that key. */
  function Get(params: seq<Pair>, key: string): (v: Option<string>)
    ensures v.Some? ==> (key, v.value) in params
    ensures v.None? <==> forall i :: 0 <= i < |params| ==> params[i].0 != key
  {
    if params == [] then None
    else if params[0].0 == key then Some(params[0].1)
    else Get(params[1..], key)
  }

  function Keys(params: seq<Pair>): (keys: seq<string>)
    ensures |keys| == |params| && forall i :: 0 <= i < |params| ==> keys[i] == params[i].0
  {
    seq(|params|, i requires 0 <= i < |params| => params[i].0)
  }

  /** `value || fallback` on a parameter that may be missing. */
  function OrElse(v: Option<string>, fallback: string): (r: string)
    ensures Truthy(v) ==> r == v.value
    ensures !Truthy(v) ==> r == fallback
  {
    if Truthy(v) then v.value else fallback
  }

  /** The string that is hashed: timestamp, then private key, then public key. */
  function HashInput(ts: string, privateKey: string, publicKey: string): (s: string)
    ensures |s| == |ts| + |privateKey| + |publicKey|
    ensures s[..|ts|] == ts && s[|ts|..|ts| + |privateKey|] == privateKey && s[|ts| + |privateKey|..] == publicKey
  {
    ts + privateKey + publicKey
  }

  /** The parameters of the upstream request, in the order the source lists them. */
  function UpstreamParams(query: seq<Pair>, publicKey: string, privateKey: string, ts: string,
                          md5: string -> string): (p: seq<Pair>)
    ensures |p| == (if Truthy(Get(query, "search")) then 6 else 5)
    ensures forall i, j :: 0 <= i < j < |p| ==> p[i].0 != p[j].0
  {
    [("ts", ts), ("apikey", publicKey), ("hash", md5(HashInput(ts, privateKey, publicKey))),
     ("limit", OrElse(Get(query, "limit"), DefaultLimit)),
     ("offset", OrElse(Get(query, "offset"), DefaultOffset))]
    + (if Truthy(Get(query, "search")) then [("nameStartsWith", Get(query, "search").value)] else [])
  }

  /** Looking a key up finds its first occurrence. */
  lemma {:induction false} GetFirst(params: seq<Pair>, j: nat)
    requires j < |params|
    requires forall i :: 0 <= i < j ==> params[i].0 != params[j].0
    ensures Get(params, params[j].0) == Some(params[j].1)
  {
    if j > 0 {
      var rest := params[1..];
      assert forall i :: 0 <= i < j - 1 ==> rest[i].0 != rest[j - 1].0 by {
        forall i | 0 <= i < j - 1 ensures rest[i].0 != rest[j - 1].0 {
          assert rest[i] == params[i + 1];
        }
      }
      GetFirst(rest, j - 1);
    }
  }

  /** The keys of the signed request, in order: the five fixed ones, then `nameStartsWith`
      only for a non-empty search. */
  lemma UpstreamKeys(query: seq<Pair>, publicKey: string, privateKey: string, ts: string,
                     md5: string -> string)
    ensures Keys(UpstreamParams(query, publicKey, privateKey, ts, md5))
      == ["ts", "apikey", "hash", "limit", "offset"] + (if Truthy(Get(query, "search")) then ["nameStartsWith"] else [])
  {
  }

  /** `ts` is the timestamp that was hashed, `apikey` the public key, and `hash` the digest of
      timestamp, private key and public key in that order. */
  lemma UpstreamSigned(query: seq<Pair>, publicKey: string, privateKey: string, ts: string,
                       md5: string -> string)
    ensures var p := UpstreamParams(query, publicKey, privateKey, ts, md5);
      && Get(p, "ts") == Some(ts)
      && Get(p, "apikey") == Some(publicKey)
      && Get(p, "hash") == Some(md5(Get(p, "ts").value + privateKey + Get(p, "apikey").value))
  {
    var p := UpstreamParams(query, publicKey, privateKey, ts, md5);
    GetFirst(p, 0);
    GetFirst(p, 1);
    GetFirst(p, 2);
  }

  /** `limit` and `offset` are the incoming values when those are non-empty, 20 and 0
      otherwise. */
  lemma UpstreamPaging(query: seq<Pair>, publicKey: string, privateKey: string, ts: string,
                       md5: string -> string)
    ensures var p := UpstreamParams(query, publicKey, privateKey, ts, md5);
      && (Truthy(Get(query, "limit")) ==> Get(p, "limit") == Get(query, "limit"))
      && (!Truthy(Get(query, "limit")) ==> Get(p, "limit") == Some("20"))
      && (Truthy(Get(query, "offset")) ==> Get(p, "offset") == Get(query, "offset"))
      && (!Truthy(Get(query, "offset")) ==> Get(p, "offset") == Some("0"))
  {
    var p := UpstreamParams(query, publicKey, privateKey, ts, md5);
    GetFirst(p, 3);
    GetFirst(p, 4);
  }

  /** `nameStartsWith` is there exactly for a non-empty search, and then equals it. */
  lemma UpstreamSearch(query: seq<Pair>, publicKey: string, privateKey: string, ts: string,
                       md5: string -> string)
    ensures var p := UpstreamParams(query, publicKey, privateKey, ts, md5);
      && (Get(p, "nameStartsWith").Some? <==> Truthy(Get(query, "search")))
      && (Get(p, "nameStartsWith").Some? ==> Get(p, "nameStartsWith") == Get(query, "search"))
  {
    var p := UpstreamParams(query, publicKey, privateKey, ts, md5);
    if |p| > 5 {
      GetFirst(p, 5);
    }
  }

  /** The key check and the signing: an error message when either key is unset or empty,
      the upstream parameters otherwise. `now` stands for `Date.now()`. */
  function Prepare(query: seq<Pair>, env: Env, now: nat, md5: string -> string): (r: Result<seq<Pair>, string>)
    ensures r.Failure? <==> !Truthy(env.publicKey) || !Truthy(env.privateKey)
    ensures r.Failure? ==> r.error == KeysMissingMessage
    ensures r.Success? ==> Get(r.value, "ts") == Some(Text.Decimal(now))
    ensures r.Success? ==> Get(r.value, "hash") == Some(md5(Text.Decimal(now) + env.privateKey.value + env.publicKey.value))
  {
    if !Truthy(env.publicKey) || !Truthy(env.privateKey) then Failure(KeysMissingMessage)
    else
      var p := UpstreamParams(query, env.publicKey.value, env.privateKey.value, Text.Decimal(now), md5);
      UpstreamSigned(query, env.publicKey.value, env.privateKey.value, Text.Decimal(now), md5);
      Success(p)
  }

  /** `GET`: a 500 with "API keys not configured" before any upstream call when a key is
      missing; otherwise the upstream body relayed with status 200, or a 500 with "Failed to
      fetch characters" when the upstream answer is not ok or the call throws. */
  function Handle<D>(query: seq<Pair>, env: Env, now: nat, md5: string -> string,
                     fetch: seq<Pair> -> Upstream<D>): (r: Response<D>)
    ensures !Truthy(env.publicKey) || !Truthy(env.privateKey) ==>
      r == Response(ServerError, Error(KeysMissingMessage))
    ensures Truthy(env.publicKey) && Truthy(env.privateKey) ==>
      var sent := Prepare(query, env, now, md5).value;
      match fetch(sent)
      case Answered(d) => r == Response(Ok, Relayed(d))
      case _ => r == Response(ServerError, Error(FetchFailedMessage))
  {
    match Prepare(query, env, now, md5)
    case Failure(message) => Response(ServerError, Error(message))
    case Success(params) =>
      match fetch(params)
      case Answered(data) => Response(Ok, Relayed(data))
      case NotOk => Response(ServerError, Error(FetchFailedMessage))
      case Threw => Response(ServerError, Error(FetchFailedMessage))
  }

  /** With a key missing, the answer does not depend on the upstream at all: no request is
      built or sent. */
  lemma KeysMissingSkipsUpstream<D>(query: seq<Pair>, env: Env, now: nat, md5: string -> string,
                                    f: seq<Pair> -> Upstream<D>, g: seq<Pair> -> Upstream<D>)
    requires !Truthy(env.publicKey) || !Truthy(env.privateKey)
    ensures Handle(query, env, now, md5, f) == Handle(query, env, now, md5, g)
  {
  }
}
