/** The list controller and the proxy together: what a page request written by the controller
    becomes in the proxy's signed upstream request. */
module RequestFlow {
  import opened Wrappers
  import Text
  import QueryString
  import Characters
  import CharactersRoute

  /** A page request for `newOffset` and a term with no `&`, `#`, `%` or `+` reaches the
      upstream API with limit 20, that offset, and `nameStartsWith` set to the term exactly
      when the term is non-empty. */
  lemma PageRequestReachesUpstream(newOffset: nat, search: string, env: CharactersRoute.Env, now: nat,
                                   md5: string -> string)
    requires Characters.QuerySafe(search)
    requires CharactersRoute.Truthy(env.publicKey) && CharactersRoute.Truthy(env.privateKey)
    ensures var sent := CharactersRoute.Prepare(QueryString.Parse(Characters.Query(newOffset, search)), env, now, md5).value;
      && CharactersRoute.Get(sent, "limit") == Some("20")
      && CharactersRoute.Get(sent, "offset") == Some(Text.Decimal(newOffset))
      && CharactersRoute.Get(sent, "nameStartsWith") == (if search != "" then Some(search) else None)
  {
    Characters.QueryReadsBack(newOffset, search);
    var q := Characters.RequestPairs(newOffset, search);
    CharactersRoute.GetFirst(q, 0);
    CharactersRoute.GetFirst(q, 1);
    if search != "" {
      CharactersRoute.GetFirst(q, 2);
    } else {
      assert CharactersRoute.Get(q, "search") == None;
    }
    var pub, priv, ts := env.publicKey.value, env.privateKey.value, Text.Decimal(now);
    CharactersRoute.UpstreamPaging(q, pub, priv, ts, md5);
    CharactersRoute.UpstreamSearch(q, pub, priv, ts, md5);
  }
}
