/** Small value types shared by every module of the model. */
module Common {

  /** Rust's `Option`. */
  datatype Option<T> = None | Some(value: T)

  /** Rust's `Result`; `Result<(), E>` stands for the operations that return `Ok(())`. */
  datatype Result<T, E> = Ok(value: T) | Err(error: E)

  function Min(a: int, b: int): int
  {
    if a <= b then a else b
  }

  function Max(a: int, b: int): int
  {
    if a >= b then a else b
  }

  // Products of naturals, kept out of larger proofs.

  lemma MulMonotone(a: nat, b: nat, c: nat)
    requires a <= b
    ensures a * c <= b * c
  {
  }

  lemma MulSucc(f: nat, c: nat)
    ensures f * c + c == (f + 1) * c
  {
  }

  lemma DivMul(n: nat, c: nat)
    requires c > 0
    ensures (n / c) * c <= n
  {
  }
}
