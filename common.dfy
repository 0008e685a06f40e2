/** Failure-carrying wrappers shared by every module: the model's counterparts of
    Rust's `Option<T>` and of `anyhow::Result<T>` (whose error is a message); and
    the regrouping of appends that the accumulating loops rely on. */
module Common {

  datatype Option<+T> = None | Some(value: T) {
    /** The value, or `default` when there is none. */
    function GetOr(default: T): T {
      if Some? then value else default
    }
  }

  /** `anyhow::Result<T>`: the error is the formatted message of the `anyhow!` call. */
  datatype Result<+T> = Ok(value: T) | Err(error: string)

  /** The `()` of `Result<()>`. */
  datatype Unit = Unit

  /** `Result<()>` */
  type Outcome = Result<Unit>

  const Done: Outcome := Ok(Unit)

  lemma AppendAssoc<T>(a: seq<T>, b: seq<T>, c: seq<T>)
    ensures a + (b + c) == a + b + c
  {
  }

  lemma TakeAppend<T>(a: seq<T>, b: seq<T>, m: nat)
    requires m <= |b|
    ensures (a + b)[..|a| + m] == a + b[..m]
  {
  }
}
