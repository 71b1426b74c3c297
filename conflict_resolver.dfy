/** LWWResolver: last write wins, and the remote value is taken as the last write. */
module Conflict {

  /** `resolve(local, remote)`: the remote value, whatever the local one. */
  function Resolve<T>(local: T, remote: T): (r: T)
    ensures r == remote
  {
    remote
  }

  /** The local value plays no part in the outcome. */
  lemma ResolveIgnoresLocal<T>(a: T, b: T, remote: T)
    ensures Resolve(a, remote) == Resolve(b, remote)
  {
  }

  /** A value resolved against itself is that value. */
  lemma ResolveSelf<T>(v: T)
    ensures Resolve(v, v) == v
  {
  }

  /** Resolving twice with the outcome of the first changes nothing. */
  lemma ResolveIdempotent<T>(local: T, remote: T)
    ensures Resolve(Resolve(local, remote), remote) == Resolve(local, remote)
  {
  }
}
