/**
  Credential injection: whatever `apikey` entries a client sends are deleted
  and the server-held key is set in their place, so a client can neither
  choose nor see the credential the upstream call carries.
*/
module Sanitization {
  import opened Params
  import opened Validation

  const ApiKeyParam := "apikey"

  /** The parameter list after `params.delete('apikey')` and then `params.set('apikey', key)`. */
  function Sanitized(ps: seq<Param>, key: string): (r: seq<Param>)
    ensures Param(ApiKeyParam, key) in r
    ensures forall p :: p in r && p.name == ApiKeyParam ==> p.value == key
    ensures forall p :: p in r && p.name != ApiKeyParam ==> p in ps
  {
    SetValue(Without(ps, ApiKeyParam), ApiKeyParam, key)
  }

  /** The two calls on the URLSearchParams object, in the order the handler makes them. */
  method Sanitize(params: SearchParams, key: string)
    modifies params
    ensures params.entries == Sanitized(old(params.entries), key)
    ensures params.entries == Without(old(params.entries), ApiKeyParam) + [Param(ApiKeyParam, key)]
  {
    SanitizedAppends(params.entries, key);
    params.Delete(ApiKeyParam);
    params.Set(ApiKeyParam, key);
  }

  /** The delete leaves no `apikey`, so the set appends the server key at the very end. */
  lemma SanitizedAppends(ps: seq<Param>, key: string)
    ensures Sanitized(ps, key) == Without(ps, ApiKeyParam) + [Param(ApiKeyParam, key)]
  {
    WithoutSpec(ps, ApiKeyParam);
    CountZero(Without(ps, ApiKeyParam), ApiKeyParam);
    SetValueAbsent(Without(ps, ApiKeyParam), ApiKeyParam, key);
  }

  /**
    Whatever the client sent, the forwarded list has exactly one `apikey`, it
    is the server key and it comes last; every other entry is kept with its
    value and in its order, and nothing else is added.
  */
  lemma SanitizedCredential(ps: seq<Param>, key: string)
    ensures Count(Sanitized(ps, key), ApiKeyParam) == 1
    ensures Get(Sanitized(ps, key), ApiKeyParam) == Some(key)
    ensures forall p :: p in Sanitized(ps, key) && p.name == ApiKeyParam ==> p.value == key
    ensures Without(Sanitized(ps, key), ApiKeyParam) == Without(ps, ApiKeyParam)
    ensures |Sanitized(ps, key)| == |ps| - Count(ps, ApiKeyParam) + 1
    ensures Sanitized(ps, key)[|Sanitized(ps, key)| - 1] == Param(ApiKeyParam, key)
  {
    var rest := Without(ps, ApiKeyParam);
    SanitizedAppends(ps, key);
    SetValueCount(rest, ApiKeyParam, key);
    SetValueGet(rest, ApiKeyParam, key);
    SetValueOthers(rest, ApiKeyParam, key);
    WithoutIdempotent(ps, ApiKeyParam);
    WithoutSpec(ps, ApiKeyParam);
  }

  /** For every other name, `get` sees the same value before and after sanitization. */
  lemma SanitizedKeepsOthers(ps: seq<Param>, key: string, name: string)
    requires name != ApiKeyParam
    ensures Get(Sanitized(ps, key), name) == Get(ps, name)
  {
    SanitizedAppends(ps, key);
    GetAppend(Without(ps, ApiKeyParam), Param(ApiKeyParam, key), name);
    GetWithout(ps, ApiKeyParam, name);
  }

  /**
    Validation runs on the sanitized list, but its verdict is that of the list
    the client sent: neither the client's `apikey` nor the server key affects it.
  */
  lemma ValidateIgnoresCredential(ps: seq<Param>, key: string)
    ensures Validate(Sanitized(ps, key)) == Validate(ps)
  {
    SanitizedKeepsOthers(ps, key, "what");
    SanitizedKeepsOthers(ps, key, "name");
    SanitizedKeepsOthers(ps, key, "lat");
  }
}
