/** Definitions shared by the whole project. */
module Prelude {

  datatype Option<+T> = None | Some(value: T)

  datatype Result<+T, +E> = Ok(value: T) | Err(error: E)

  /** 2^64: the modulus of `usize` and `u64` counters. */
  const WORD: nat := 0x1_0000_0000_0000_0000

  /** `fetch_add(1)` on an atomic word. */
  function WrapIncr(n: nat): nat {
    (n + 1) % WORD
  }

  /** `fetch_sub(1)` on an atomic word. */
  function WrapDecr(n: nat): nat {
    (n + WORD - 1) % WORD
  }

  /** The identity of a node. The TLS server name takes no part in equality, hashing or ordering, so it is not kept. */
  datatype Server = Server(host: string, port: nat)

  /** No value occurs twice. */
  ghost predicate Distinct<T>(s: seq<T>) {
    forall i, j :: 0 <= i < j < |s| ==> s[i] != s[j]
  }

  ghost predicate StrictlyIncreasing(s: seq<nat>) {
    forall i, j :: 0 <= i < j < |s| ==> s[i] < s[j]
  }
}
