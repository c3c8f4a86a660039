/**
 * Diagnostics and token streams as the rest of the model sees them.
 *
 * The lexical content of tokens and the positions of spans are abstracted
 * away: a diagnostic (`syn::Error` built with `new_spanned`) is a span and a
 * message, and a token stream is a sequence of tokens that are either the
 * `compile_error!` invocation a diagnostic renders to, or an opaque piece of
 * generated syntax of type `G`.
 */
module Tokens {

  /** The location in the macro input a diagnostic points at. */
  type Span = nat

  /** A diagnostic with one message, anchored at a span. */
  datatype Error = Error(span: Span, message: string)

  /** One element of a token stream. */
  datatype Token<+G> =
    | CompileError(error: Error)  // the tokens of `error.to_compile_error()`
    | Emitted(piece: G)           // any other generated syntax

  type TokenStream<G> = seq<Token<G>>

  /** `Error::to_compile_error`: a diagnostic renders to its own compile error and nothing else. */
  function ToCompileError<G>(e: Error): (ts: TokenStream<G>)
    ensures |ts| == 1 && ts[0].CompileError? && ts[0].error == e
  {
    [CompileError(e)]
  }

  /**
   * The tokens of several diagnostics reported one after the other: the
   * k-th token is the compile error of the k-th diagnostic.
   */
  function RenderErrors<G>(es: seq<Error>): (ts: TokenStream<G>)
    ensures |ts| == |es|
    ensures forall k :: 0 <= k < |es| ==> ts[k] == CompileError(es[k])
  {
    if es == [] then [] else RenderErrors(es[..|es| - 1]) + ToCompileError(es[|es| - 1])
  }
}
