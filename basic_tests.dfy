/** The tests of tests/basic.rs, as clients of the collector and the context. */
module BasicTests {
  import opened Wrappers
  import opened Tokens
  import opened Compose
  import opened Context

  /** The test input `const FOO: bool = true;`, reduced to its span. */
  datatype ItemConst = ItemConst(span: Span)

  /** `NoOpLint` reports nothing. */
  function NoOpLint(input: ItemConst, hadErrors: bool): seq<Error> {
    []
  }

  /** `NoOpExpand` reports nothing and returns `None`. */
  function NoOpExpand(input: ItemConst): Expansion<Nothing> {
    Expansion([], None)
  }

  /** `AlwaysErrorLint` reports one error on the input. */
  function AlwaysErrorLint(input: ItemConst, hadErrors: bool): seq<Error> {
    [Error(input.span, "some error message")]
  }

  /** `PanickingExpand` panics on every input: it accepts none. */
  const PanickingExpand: Expand<ItemConst, Nothing> := _ requires false => Expansion([], None)

  /** `basic`: a lint and an expand that do nothing leave the collector without errors. */
  method Basic<G>(data: ItemConst) returns (hasErrors: bool)
    ensures !hasErrors
  {
    var collector := new Collector<G>();
    var ctx := new Context<ItemConst, G>.New(collector, data);
    var _ := ctx.Lint(NoOpLint);
    ctx.Expand(NoOpExpand, NothingToTokens);
    hasErrors := collector.HasErrors();
  }

  /**
   * `test_expand_disable`: after a lint error the panicking expand may be
   * handed to `expand`, because it is never run; the output is the lint's
   * error alone.
   */
  method ExpandDisable<G>(data: ItemConst) returns (hasErrors: bool, output: TokenStream<G>)
    ensures hasErrors
    ensures output == [CompileError(Error(data.span, "some error message"))]
  {
    var collector := new Collector<G>();
    var ctx := new Context<ItemConst, G>.New(collector, data);
    var _ := ctx.Lint(AlwaysErrorLint);
    ctx.Expand(PanickingExpand, NothingToTokens);
    hasErrors := collector.HasErrors();
    output := collector.Finish();
  }
}
