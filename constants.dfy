/** The per-route cache policy. */
module Constants {
  import opened Wrappers
  import opened Http
  import opened Storages

  /** A cache key: one literal string, or a function of the request. */
  datatype Key = Literal(text: string) | FromRequest(derive: Request -> string)

  datatype CachePolicy = CachePolicy(
    storage: Storage,
    key: Key,
    isActive: bool,
    ttl: Option<int>,
    respectNoCache: bool,
    cachedResponseHeader: string)

  /** `CachePolicy(storage=..., key=...)` with every other field at its default. */
  function NewPolicy(storage: Storage, key: Key): (p: CachePolicy)
    ensures p.storage == storage && p.key == key
    ensures p.isActive
    ensures p.ttl == Some(30)
    ensures p.respectNoCache
    ensures p.cachedResponseHeader == "X-Cache-Hit"
  {
    CachePolicy(storage, key, true, Some(30), true, "X-Cache-Hit")
  }

  function GetKey(p: CachePolicy, req: Request): string {
    match p.key
    case Literal(s) => s
    case FromRequest(f) => f(req)
  }

  /** A literal key names one entry for every request; a key function is applied to the request. */
  lemma GetKeySpec(p: CachePolicy, req: Request, req': Request)
    ensures p.key.Literal? ==> GetKey(p, req) == p.key.text && GetKey(p, req) == GetKey(p, req')
    ensures p.key.FromRequest? ==> GetKey(p, req) == p.key.derive(req)
  {
  }
}
