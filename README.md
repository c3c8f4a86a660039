# macro-compose, modelled in Dafny

macro-compose structures procedural macros as a sequence of small steps run
against one shared `Collector`: *lints* validate the macro input and report
diagnostics, *expands* turn the input into generated syntax, and a `Context`
binds the (possibly absent) input to the collector. Once any diagnostic has
been reported, expands are no longer run, so an expand may rely on the lints
having accepted its input. The example derive macro `FromStr` for enums shows
the pattern: one lint (`EnsureEnumLint`) and three expands.

The model:

- `Tokens` (tokens.dfy): diagnostics (`Error`: a span and a message) and token
  streams. A token is either the compile error a diagnostic renders to or an
  opaque piece of generated syntax.
- `Compose` (compose.dfy, src/lib.rs): the callback types. A `Lint<T>` is the
  list of diagnostics it reports, given the input and whether the collector
  already had errors when it started (all a lint that only calls `error` and
  `has_errors` can observe). An `Expand<T, O>` is a partial function from the
  input to the diagnostics it reports and its optional output; partiality
  stands for the panics an expand may contain (`unreachable!()`). Also
  `Nothing` and `EchoExpand`.
- `Context` (context.dfy, src/context.rs): what each operation does to the
  collector's state (`CollectorState`: error count and output), as functions,
  and the classes `Collector` and `Context` that perform the operations in
  place, each method proved to move the collector from its old state to the
  state the matching function gives. `Run` composes any sequence of lint and
  expand calls on one context, for the lemmas about whole pipelines.
- `EnumFromStr` (enum_from_str.dfy, examples/enum_from_str_macro/src/lib.rs):
  the derive input reduced to the enum's name, visibility and variants (name
  and fields), the lint, the error-type naming rule, the three expands, the
  behaviour of the generated `from_str`, and `derive_from_str` itself.
- `BasicTests` and `EnumTests`: the repository's tests as verified clients.

## Model

| member | source | states |
|---|---|---|
| `Tokens.ToCompileError` | src/context.rs:27 | a diagnostic renders to exactly one compile error carrying that diagnostic |
| `Tokens.RenderErrors` | src/context.rs:26-30 | diagnostics reported in turn render position by position: the k-th token is the k-th diagnostic's compile error |
| `Compose.NothingToTokens` | src/lib.rs:176-181 | `Nothing` contributes no tokens |
| `Compose.EchoExpand` | src/lib.rs:183-192 | the echo expand returns `Some` of its input unchanged and reports nothing |
| `Context.Fresh` | src/context.rs:16-21 | a new collector has no errors (`has_errors` is false) and empty output |
| `Context.Report` | src/context.rs:23-35 | one `error` adds exactly one to the count, makes `has_errors` true, and appends the diagnostic's tokens after the unchanged earlier output |
| `Context.ReportAll` | src/lib.rs:140-143 | a callback's `error` calls, in order, raise the count by their number and append their compile errors in the same order |
| `Context.ParseStep` | src/context.rs:98-134 | a parse failure reports exactly one error and leaves no data; a success leaves the collector unchanged and the parsed value becomes the data |
| `Context.LintStep` | src/context.rs:136-148 | without data the lint is not run, nothing changes and the answer is false; with data its diagnostics are appended and the answer is true exactly when it reported none; the collector only grows |
| `Context.CaptureStep` | src/context.rs:158-168 | with errors already present or no data, the expand is not run and the result is `None`; otherwise its diagnostics are appended and its result returned |
| `Context.ExpandStep` | src/context.rs:150-156 | as capture, and a `Some` result's tokens are appended after the expand's diagnostics; a `None` result adds nothing; with errors present nothing changes |
| `Context.EchoExpandEmitsInput` | src/lib.rs:183-192 | on a collector without errors the echo expand may be called on any input, reports nothing and appends exactly the input's own tokens |
| `Context.ExpandToNothingAddsNoTokens` | src/lib.rs:176-181 | expanding to `Nothing` changes the collector exactly as capturing does, so a quiet expand returning `Some(Nothing)` leaves the output as it was |
| `Context.RunPrecedes` | src/context.rs:23-35 | over any sequence of lint and expand calls the error count never drops and earlier output is kept, so `has_errors` stays true once true |
| `Context.ErrorsDisableExpansion` | src/lib.rs:37-38 | once an error has been reported, any later expand may be called, even one that would panic on the data, earlier output is kept, and every token later calls add is a compile error |
| `Context.LintIndices` | src/context.rs:139-148 | the increasing list of exactly the positions of the lint calls in a sequence of calls |
| `Context.LintsOnly` | src/lib.rs:37-38 | the calls kept are, position by position, the calls at the lint positions: exactly the lint calls, each once, in their order |
| `Context.LintsOnlyCanRun` | src/context.rs:139-148 | a sequence of lint calls can be run on any collector and any data |
| `Context.ErrorsLeaveOnlyLints` | src/lib.rs:37-38 | once an error has been reported, a sequence of calls leaves the collector (count and output) exactly as its lint calls alone would: no later expand runs, reports or emits anything |
| `Context.QuietRunHasNoErrors` | tests/basic.rs:10-14 | lints and expands that report nothing (and accept the data) can all be run and leave a collector without errors as it was |
| `Context.Collector.constructor` | src/context.rs:16-21 | `Collector::new` starts in the fresh state |
| `Context.Collector.Default` | src/context.rs:43-47 | `Collector::default` is the same as `new` |
| `Context.Collector.HasErrors` | src/context.rs:32-35 | `has_errors` is true exactly when the error count is non-zero |
| `Context.Collector.Error` | src/context.rs:26-30 | in place: the new state is the old one with the diagnostic reported |
| `Context.Collector.ReportErrors` | src/lib.rs:140-143 | in place: a callback's sequence of `error` calls leaves the state `ReportAll` gives |
| `Context.Collector.Finish` | src/context.rs:38-40 | `finish` returns exactly the accumulated output |
| `Context.Context.New` | src/context.rs:75-80 | the context holds the given data and collector |
| `Context.Context.NewByRef` | src/context.rs:83-88 | borrowed data behaves as owned data |
| `Context.Context.NewEmpty` | src/context.rs:91-96 | the context holds no data |
| `Context.Context.NewParse` | src/context.rs:101-115 | in place: data and collector are as `ParseStep` gives for the parser's answer |
| `Context.Context.NewParse2` | src/context.rs:120-134 | the same for a `proc_macro2` token stream |
| `Context.Context.Lint` | src/context.rs:139-148 | in place as `LintStep`; the data taken out for the lint is the same data afterwards |
| `Context.Context.Expand` | src/context.rs:151-156 | in place as `ExpandStep`; callable only with an expand that accepts the data whenever it would run |
| `Context.Context.Capture` | src/context.rs:159-168 | in place as `CaptureStep`, returning the expand's result |
| `EnumFromStr.NonUnitIndices` | examples/enum_from_str_macro/src/lib.rs:28-29 | the increasing list of exactly the indices of the variants that have fields |
| `EnumFromStr.VariantErrorsPerNonUnitVariant` | examples/enum_from_str_macro/src/lib.rs:27-33 | `VariantErrors`, the diagnostics of the lint's loop over the variants, holds one "unexpected fields" diagnostic per variant with fields, on those fields, in declaration order, and no other |
| `EnumFromStr.EnsureEnumErrors` | examples/enum_from_str_macro/src/lib.rs:24-37 | a non-enum gets exactly one "expected an enum" diagnostic on the input; an enum gets one diagnostic per non-unit variant |
| `EnumFromStr.EnsureEnumPassesExactlyUnitEnums` | examples/enum_from_str_macro/src/lib.rs:26-35 | the lint reports nothing if and only if the input is an enum whose variants are all unit variants |
| `EnumFromStr.EnsureEnumLint` | examples/enum_from_str_macro/src/lib.rs:25-36 | the loop of `error` calls leaves the collector exactly as reporting `EnsureEnumErrors` does |
| `EnumFromStr.ErrorStructIdent` | examples/enum_from_str_macro/src/lib.rs:39-41 | the error type's name is "Parse", then the enum's name, then "Error" |
| `EnumFromStr.ErrorStructIdentInjective` | examples/enum_from_str_macro/src/lib.rs:39-41 | distinct enum names give distinct error type names |
| `EnumFromStr.ErrorStructExpand` | examples/enum_from_str_macro/src/lib.rs:43-56 | always `Some` and no diagnostics: a struct with the error type's name and the enum's visibility |
| `EnumFromStr.ImplDebugErrorStructExpand` | examples/enum_from_str_macro/src/lib.rs:58-74 | always `Some` and no diagnostics: a `Debug` impl for the error type, naming it |
| `EnumFromStr.FromStrArms` | examples/enum_from_str_macro/src/lib.rs:88-94 | exactly one arm per variant, in declaration order, keyed by the variant's name |
| `EnumFromStr.ImplFromStrExpand` | examples/enum_from_str_macro/src/lib.rs:76-111 | on an enum, always `Some` and no diagnostics: a `FromStr` impl for the enum with the error type and one arm per variant |
| `EnumFromStr.MatchArms` | examples/enum_from_str_macro/src/lib.rs:103-106 | the fallback arm answers with the error type carrying the string |
| `EnumFromStr.MatchArmsFirstMatch` | examples/enum_from_str_macro/src/lib.rs:103-106 | the generated match succeeds exactly when some arm's pattern is the string, with the variant of the first such arm; otherwise it fails with the error type carrying the string |
| `EnumFromStr.FromStr` | examples/enum_from_str_macro/src/lib.rs:102-107 | the generated `from_str` succeeds exactly when an arm is keyed by the string, answering the first such arm's variant, and otherwise fails with the error type carrying the string |
| `EnumFromStr.ItemToTokens` | src/context.rs:153 | a generated item renders to generated syntax carrying that item, never to a compile error |
| `EnumFromStr.FromStrOfVariantName` | examples/enum_from_str_macro/src/lib.rs:98-109 | the generated `from_str` maps a variant's name to that variant and every other string to the error carrying that same string |
| `EnumFromStr.DeriveFromStr` | examples/enum_from_str_macro/src/lib.rs:8-20 | a parse failure outputs its one compile error; a lint error outputs the lint's compile errors and no generated item; otherwise the output is the error struct, its `Debug` impl and the `FromStr` impl, in that order |
| `BasicTests.Basic` | tests/basic.rs:4-15 | a no-op lint and an expand returning `None` leave no errors |
| `BasicTests.ExpandDisable` | tests/basic.rs:33-44 | after a lint error a panicking expand is never run, `has_errors` is true and the output is the lint's error alone |
| `EnumTests.FooFromStr` | examples/enum_from_str_macro/tests/enum.rs:4-13 | for `enum Foo { Bar, Baz }` the lint passes, "Bar" and "Baz" parse to their variants and "Qux" fails with `ParseFooError("Qux")` |

## Left out

- Parsing (`syn::parse`, `syn::parse2`): the parser is a parameter returning the parsed value or one diagnostic; its grammar belongs to a library outside this model. `proc_macro::TokenStream` and `proc_macro2::TokenStream` are the same type here.
- Token content: spans are plain numbers, a diagnostic's `to_compile_error` is one token, and a generated item's `to_token_stream` is one opaque token. `parse_quote!` and `format_ident!` build abstract items; attributes on them, such as the `#[derive(Clone, PartialEq, Eq)]` on the generated error struct, are not recorded.
- `Data::Owned` versus `Data::Borrowed` and lifetimes: both dereference to the same value, so the data is an optional value.
- The `#[proc_macro_derive]` entry point and the compiler that calls it.
- The text of the generated `Debug` message: `DebugImpl` records only the names it mentions.
- The error count is an unbounded number; a `usize` overflow after 2^64 errors is not modelled.
- A callback that swaps out the collector it is handed (`std::mem::take` through the `Default` impl) is not modelled: a callback here reports diagnostics and may depend on `has_errors`, and does nothing else to the collector.
- `Compose.Lint`, `Compose.Expansion`: a callback that opens a nested `Context` on the collector it is handed (`Context::new_by_ref`, exported at src/lib.rs:118, src/context.rs:83-88) and lints or expands through it is not modelled. Such a callback can append generated tokens (src/context.rs:154), and a nested expand can emit them before diagnostics reported later in the same callback, so its effect is not "diagnostics, then output". A nested expand passes the same `has_errors` gate (src/context.rs:160-162), so once the collector has errors it still emits no generated tokens; `Context.ErrorsDisableExpansion` would then still hold for such callbacks, but the model does not prove this.
- A lint that panics is not modelled: `Lint` is a total function, so every lint call returns its diagnostics.
- Panics are preconditions: an expand that panics accepts no input, and `Context.Context.Expand` requires that the expand accepts the data whenever it would run. The `should_panic` test (tests/basic.rs:46-56) runs an expand on input it rejects, which a verified caller cannot do, so it has no counterpart.
- `EnumFromStr.DeriveFromStr` hands the lint to `Context.Context.Lint` as the function `EnsureEnumErrors`; `EnumFromStr.EnsureEnumLint` is the source's loop, proved to have exactly that effect on a collector.
- Raw identifiers (`r#name`) in variant names and `format_ident!` are not distinguished from plain names.
- The enum test's line examples/enum_from_str_macro/tests/enum.rs:14 expects an error type `FooError`, while the code names it `ParseFooError` (examples/enum_from_str_macro/src/lib.rs:40); the model follows the code.
