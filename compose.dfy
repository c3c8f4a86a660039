/**
 * The extension points of the library (src/lib.rs): the `Lint` and `Expand`
 * callbacks, and the two ready-made building blocks `Nothing` and `EchoExpand`.
 */
module Compose {
  import opened Wrappers
  import opened Tokens

  /**
   * A `Lint<T>` seen from the collector it is handed: given the input and
   * whether the collector already held errors when the lint started, the
   * diagnostics it reports, in order. This describes a lint that uses the
   * collector through `error` and `has_errors` alone, since `has_errors` is
   * true after its first report. A lint may also open a nested `Context` on
   * the collector and expand through it, appending generated tokens; such
   * lints are outside this type.
   */
  type Lint<!T> = (T, bool) -> seq<Error>

  /** What one run of an `Expand` does: the diagnostics it reports, then its result. */
  datatype Expansion<O> = Expansion(errors: seq<Error>, output: Option<O>)

  /**
   * An `Expand<T>` with output type `O`. It is partial: an expand may panic
   * on input it assumes the lints have already rejected.
   */
  type Expand<!T, O> = T --> Expansion<O>

  /** `Nothing`, the output that expands to no tokens. */
  datatype Nothing = Nothing

  /** `Nothing::to_tokens` adds no tokens. */
  function NothingToTokens<G>(n: Nothing): (ts: TokenStream<G>)
    ensures ts == []
  {
    []
  }

  /** `EchoExpand`: the output is a copy of the input, and nothing is reported. */
  function EchoExpand<T>(input: T): (r: Expansion<T>)
    ensures r.errors == [] && r.output == Some(input)
  {
    Expansion([], Some(input))
  }
}
