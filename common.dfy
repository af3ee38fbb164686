/** Small vocabulary shared by every module: optional values, results, Rust panics
    and the fixed-width integers the repository's Rust code computes with. */
module Common {

  datatype Option<+T> = None | Some(value: T)

  datatype Result<+T, +E> = Ok(value: T) | Err(error: E)

  /** What a Rust call does: it returns a value, or it panics with a message
      (an `unwrap` on `None`, an explicit `panic!`). */
  datatype Outcome<+T> = Returned(value: T) | Panicked(message: string)

  const USIZE_MODULUS: int := 0x1_0000_0000_0000_0000

  newtype usize = x: int | 0 <= x < 0x1_0000_0000_0000_0000
  newtype u64 = x: int | 0 <= x < 0x1_0000_0000_0000_0000
  newtype u32 = x: int | 0 <= x < 0x1_0000_0000
  newtype i64 = x: int | -0x8000_0000_0000_0000 <= x < 0x8000_0000_0000_0000
  newtype i32 = x: int | -0x8000_0000 <= x < 0x8000_0000

  /** `fetch_add(1)` on an `AtomicUsize`: wraps around at 2^64. */
  function WrapInc(x: usize): (r: usize)
    ensures r as int == (x as int + 1) % USIZE_MODULUS
  {
    if x as int == USIZE_MODULUS - 1 then 0 else x + 1
  }

  /** `fetch_sub(1)` on an `AtomicUsize`: wraps around below 0. */
  function WrapDec(x: usize): (r: usize)
    ensures r as int == (x as int - 1) % USIZE_MODULUS
  {
    if x == 0 then (USIZE_MODULUS - 1) as usize else x - 1
  }

  /** `n` wrapping decrements in a row. */
  function WrapSub(x: usize, n: nat): usize
    decreases n
  {
    if n == 0 then x else WrapSub(WrapDec(x), n - 1)
  }

  lemma WrapDecInc(x: usize)
    ensures WrapDec(WrapInc(x)) == x
    ensures WrapInc(WrapDec(x)) == x
  {
  }

  lemma {:induction false} WrapSubNoUnderflow(x: usize, n: nat)
    requires n <= x as int
    ensures WrapSub(x, n) as int == x as int - n
  {
    if n > 0 {
      WrapSubNoUnderflow(x - 1, n - 1);
    }
  }

  /** `s` ends with `suffix` (Rust's `str::ends_with`). */
  predicate EndsWith(s: string, suffix: string)
  {
    |suffix| <= |s| && s[|s| - |suffix|..] == suffix
  }

  /** `s` starts with `prefix` (Rust's `str::starts_with`). */
  predicate StartsWith(s: string, prefix: string)
  {
    |prefix| <= |s| && s[..|prefix|] == prefix
  }

  /** `k` copies of `x`. */
  function Repeat<T>(x: T, k: nat): (r: seq<T>)
    ensures |r| == k
    ensures forall i :: 0 <= i < k ==> r[i] == x
  {
    if k == 0 then [] else Repeat(x, k - 1) + [x]
  }

  /** `order` lists the keys of a `HashMap` in its (unspecified) iteration order:
      every key exactly once and nothing else. */
  predicate IsKeyOrder<V>(order: seq<string>, m: map<string, V>)
  {
    && (forall i :: 0 <= i < |order| ==> order[i] in m)
    && (forall k :: k in m ==> k in order)
    && (forall i, j :: 0 <= i < j < |order| ==> order[i] != order[j])
  }
}
