/**
 * The example derive macro `FromStr` for enums
 * (examples/enum_from_str_macro/src/lib.rs), with the derive input reduced
 * to what the macro looks at: the enum's name, its visibility, and each
 * variant's name and whether it has fields.
 */
module EnumFromStr {
  import opened Wrappers
  import opened Tokens
  import opened Compose
  import opened Context

  /** The fields of a variant or struct; a non-unit one has a span of its own. */
  datatype Fields = Unit | Named(span: Span) | Unnamed(span: Span)

  datatype Variant = Variant(name: string, fields: Fields)

  datatype Data = Enum(variants: seq<Variant>) | Struct(fields: Fields) | Union

  datatype Visibility = Inherited | Public | Restricted(path: string)

  /** `syn::DeriveInput`: the item the derive is attached to. */
  datatype DeriveInput = DeriveInput(vis: Visibility, ident: string, span: Span, data: Data)

  const UnexpectedFields := "unexpected fields"
  const ExpectedAnEnum := "expected an enum"

  /** The items the macro generates. */
  datatype Item =
    | ErrorStruct(vis: Visibility, ident: string)                // `#[derive(Clone, PartialEq, Eq)] #vis struct #ident(String);`
    | DebugImpl(target: string, identName: string)               // `impl Debug for #target`, message text left out
    | FromStrImpl(target: string, error: string, arms: seq<Arm>) // `impl FromStr for #target { type Err = #error; ... }`

  /** A match arm `"pattern" => Ok(Enum::variant)` of the generated `from_str`. */
  datatype Arm = Arm(pattern: string, variant: string)

  /** The value `#error(invalid.to_string())` the generated `from_str` fails with. */
  datatype ParseError = ParseError(errorStruct: string, value: string)

  /** `ToTokens` of a generated item: one opaque piece of output, never a compile error. */
  function ItemToTokens(item: Item): (ts: TokenStream<Item>)
    ensures |ts| == 1 && ts[0].Emitted? && ts[0].piece == item
  {
    [Emitted(item)]
  }

  // ---------------------------------------------------------------------
  // EnsureEnumLint

  /** The diagnostic a variant earns: none for a unit variant, one on its fields otherwise. */
  function VariantError(v: Variant): seq<Error> {
    if v.fields.Unit? then [] else [Error(v.fields.span, UnexpectedFields)]
  }

  /** The diagnostics of the lint's loop over the variants `vs`, in declaration order. */
  function VariantErrors(vs: seq<Variant>): seq<Error> {
    if vs == [] then [] else VariantErrors(vs[..|vs| - 1]) + VariantError(vs[|vs| - 1])
  }

  /** The indices of the variants that have fields, in increasing order. */
  function NonUnitIndices(vs: seq<Variant>): (idx: seq<nat>)
    ensures forall k :: 0 <= k < |idx| ==> idx[k] < |vs|
    ensures forall k, l :: 0 <= k < l < |idx| ==> idx[k] < idx[l]
    ensures forall i :: 0 <= i < |vs| ==> (i in idx <==> !vs[i].fields.Unit?)
  {
    if vs == [] then []
    else NonUnitIndices(vs[..|vs| - 1]) + (if vs[|vs| - 1].fields.Unit? then [] else [|vs| - 1])
  }

  /** One "unexpected fields" diagnostic per variant with fields, in declaration order, and no other. */
  lemma {:induction false} VariantErrorsPerNonUnitVariant(vs: seq<Variant>)
    ensures var idx, es := NonUnitIndices(vs), VariantErrors(vs);
            && |es| == |idx|
            && forall k :: 0 <= k < |idx| ==> es[k] == Error(vs[idx[k]].fields.span, UnexpectedFields)
  {
    if vs != [] {
      var n := |vs| - 1;
      var init := vs[..n];
      VariantErrorsPerNonUnitVariant(init);
      var idx0, es0 := NonUnitIndices(init), VariantErrors(init);
      var idx, es := NonUnitIndices(vs), VariantErrors(vs);
      assert idx == idx0 + (if vs[n].fields.Unit? then [] else [n]);
      assert es == es0 + VariantError(vs[n]);
      forall k | 0 <= k < |idx|
        ensures es[k] == Error(vs[idx[k]].fields.span, UnexpectedFields)
      {
        if k < |idx0| {
          assert idx[k] == idx0[k] && es[k] == es0[k];
          assert vs[idx0[k]] == init[idx0[k]];
        }
      }
    }
  }

  /** `EnsureEnumLint`: what the lint reports for an input. */
  function EnsureEnumErrors(input: DeriveInput): (es: seq<Error>)
    ensures !input.data.Enum? ==> es == [Error(input.span, ExpectedAnEnum)]
    ensures input.data.Enum? ==>
              var vs, idx := input.data.variants, NonUnitIndices(input.data.variants);
              && |es| == |idx|
              && forall k :: 0 <= k < |idx| ==> es[k] == Error(vs[idx[k]].fields.span, UnexpectedFields)
  {
    match input.data
    case Enum(vs) =>
      VariantErrorsPerNonUnitVariant(vs);
      VariantErrors(vs)
    case _ => [Error(input.span, ExpectedAnEnum)]
  }

  /** The lint passes exactly on an enum all of whose variants are unit variants. */
  lemma EnsureEnumPassesExactlyUnitEnums(input: DeriveInput)
    ensures EnsureEnumErrors(input) == [] <==>
            input.data.Enum? && forall i :: 0 <= i < |input.data.variants| ==> input.data.variants[i].fields.Unit?
  {
    if input.data.Enum? {
      var vs := input.data.variants;
      var idx := NonUnitIndices(vs);
      if idx != [] {
        assert idx[0] in idx;
      }
    }
  }

  /** `EnsureEnumLint::lint`, run against the collector it is handed. */
  method EnsureEnumLint<G>(input: DeriveInput, c: Collector<G>)
    modifies c
    ensures c.State() == ReportAll(old(c.State()), EnsureEnumErrors(input))
  {
    match input.data
    case Enum(vs) =>
      for i := 0 to |vs|
        invariant c.State() == ReportAll(old(c.State()), VariantErrors(vs[..i]))
      {
        assert vs[..i + 1][..i] == vs[..i];
        if !vs[i].fields.Unit? {
          c.Error(Error(vs[i].fields.span, UnexpectedFields));
        }
      }
      assert vs[..|vs|] == vs;
    case _ =>
      c.Error(Error(input.span, ExpectedAnEnum));
  }

  // ---------------------------------------------------------------------
  // The expands

  /** `error_struct_ident`: the error type of enum `ident` is `Parse{ident}Error`. */
  function ErrorStructIdent(ident: string): (r: string)
    ensures |r| == |ident| + 10
    ensures r[..5] == "Parse" && r[5..|r| - 5] == ident && r[|r| - 5..] == "Error"
  {
    "Parse" + ident + "Error"
  }

  /** Distinct enums get distinct error types. */
  lemma ErrorStructIdentInjective(a: string, b: string)
    requires ErrorStructIdent(a) == ErrorStructIdent(b)
    ensures a == b
  {
    var r := ErrorStructIdent(a);
    assert a == r[5..|r| - 5];
  }

  /** `ErrorStructExpand`: a tuple struct named after the enum, with the enum's visibility. */
  function ErrorStructExpand(input: DeriveInput): (r: Expansion<Item>)
    ensures r.errors == [] && r.output.Some?
    ensures r.output.value == ErrorStruct(input.vis, ErrorStructIdent(input.ident))
  {
    var ident := ErrorStructIdent(input.ident);
    Expansion([], Some(ErrorStruct(input.vis, ident)))
  }

  /** `ImplDebugErrorStructExpand`: `Debug` for the error struct, naming it in the message. */
  function ImplDebugErrorStructExpand(input: DeriveInput): (r: Expansion<Item>)
    ensures r.errors == [] && r.output.Some?
    ensures r.output.value == DebugImpl(ErrorStructIdent(input.ident), ErrorStructIdent(input.ident))
  {
    var ident := ErrorStructIdent(input.ident);
    Expansion([], Some(DebugImpl(ident, ident)))
  }

  /** The arms of the generated `from_str`: one per variant, in declaration order, keyed by its name. */
  function FromStrArms(vs: seq<Variant>): (arms: seq<Arm>)
    ensures |arms| == |vs|
    ensures forall i :: 0 <= i < |vs| ==> arms[i] == Arm(vs[i].name, vs[i].name)
  {
    if vs == [] then [] else [Arm(vs[0].name, vs[0].name)] + FromStrArms(vs[1..])
  }

  /** `ImplFromStrExpand`; on anything but an enum it panics (`unreachable!`). */
  function ImplFromStrExpand(input: DeriveInput): (r: Expansion<Item>)
    requires input.data.Enum?
    ensures r.errors == [] && r.output.Some?
    ensures r.output.value == FromStrImpl(input.ident, ErrorStructIdent(input.ident), FromStrArms(input.data.variants))
  {
    var arms := FromStrArms(input.data.variants);
    var error := ErrorStructIdent(input.ident);
    Expansion([], Some(FromStrImpl(input.ident, error, arms)))
  }

  // ---------------------------------------------------------------------
  // The generated `from_str`

  /**
   * The generated `match s { arms..., invalid => Err(#error(invalid.to_string())) }`:
   * the fallback arm answers with the error struct carrying `s`.
   */
  function MatchArms(arms: seq<Arm>, error: string, s: string): (r: Result<string, ParseError>)
    ensures r.Err? ==> r.error == ParseError(error, s)
  {
    if arms == [] then Err(ParseError(error, s))
    else if arms[0].pattern == s then Ok(arms[0].variant)
    else MatchArms(arms[1..], error, s)
  }

  /** The arm at index `i` is the first whose pattern is `s`. */
  ghost predicate FirstMatch(arms: seq<Arm>, s: string, i: int) {
    0 <= i < |arms| && arms[i].pattern == s && forall j :: 0 <= j < i ==> arms[j].pattern != s
  }

  /** The first arm whose pattern is `s` decides; with none, the error carries `s`. */
  lemma {:induction false} MatchArmsFirstMatch(arms: seq<Arm>, error: string, s: string)
    ensures var r := MatchArms(arms, error, s);
            && (r.Ok? <==> exists i :: 0 <= i < |arms| && arms[i].pattern == s)
            && (r.Ok? ==> exists i :: FirstMatch(arms, s, i) && r.value == arms[i].variant)
            && (r.Err? ==> r.error == ParseError(error, s))
  {
    if arms != [] && arms[0].pattern != s {
      var tail := arms[1..];
      MatchArmsFirstMatch(tail, error, s);
      var r := MatchArms(arms, error, s);
      if r.Ok? {
        var i :| FirstMatch(tail, s, i) && r.value == tail[i].variant;
        forall j | 0 <= j < i + 1
          ensures arms[j].pattern != s
        {
          if j > 0 {
            assert arms[j] == tail[j - 1];
          }
        }
        assert arms[i + 1] == tail[i];
        assert FirstMatch(arms, s, i + 1);
      }
      if exists i :: 0 <= i < |arms| && arms[i].pattern == s {
        var i :| 0 <= i < |arms| && arms[i].pattern == s;
        assert tail[i - 1] == arms[i];
      }
    } else if arms != [] {
      assert FirstMatch(arms, s, 0);
    }
  }

  /**
   * `FromStr::from_str` of a generated impl: success comes from the first
   * arm keyed by `s`, failure is the error struct carrying `s` and happens
   * exactly when no arm is keyed by `s`.
   */
  function FromStr(impl: Item, s: string): (r: Result<string, ParseError>)
    requires impl.FromStrImpl?
    ensures r.Ok? <==> exists i :: 0 <= i < |impl.arms| && impl.arms[i].pattern == s
    ensures r.Ok? ==> exists i :: FirstMatch(impl.arms, s, i) && r.value == impl.arms[i].variant
    ensures r.Err? ==> r.error == ParseError(impl.error, s)
  {
    MatchArmsFirstMatch(impl.arms, impl.error, s);
    MatchArms(impl.arms, impl.error, s)
  }

  /**
   * The `from_str` that `ImplFromStrExpand` generates maps the name of a
   * variant to that variant, and any other string to the error struct
   * carrying that same string.
   */
  lemma FromStrOfVariantName(input: DeriveInput, s: string)
    requires input.data.Enum?
    ensures var vs, r := input.data.variants, FromStr(ImplFromStrExpand(input).output.value, s);
            && (r.Ok? <==> exists i :: 0 <= i < |vs| && vs[i].name == s)
            && (r.Ok? ==> r.value == s)
            && (r.Err? ==> r.error == ParseError(ErrorStructIdent(input.ident), s))
  {
    var vs := input.data.variants;
    var arms := FromStrArms(vs);
    MatchArmsFirstMatch(arms, ErrorStructIdent(input.ident), s);
    if exists i :: 0 <= i < |vs| && vs[i].name == s {
      var i :| 0 <= i < |vs| && vs[i].name == s;
      assert arms[i].pattern == s;
    }
  }

  // ---------------------------------------------------------------------
  // derive_from_str

  /**
   * `derive_from_str`: parse the item, lint it, then run the three expands
   * on one collector and return its output. `parse` stands for `syn::parse`.
   */
  method DeriveFromStr(item: TokenStream<Item>, parse: TokenStream<Item> -> Result<DeriveInput, Error>)
    returns (out: TokenStream<Item>)
    ensures parse(item).Err? ==> out == ToCompileError(parse(item).error)
    ensures parse(item).Ok? && EnsureEnumErrors(parse(item).value) != [] ==>
              out == RenderErrors(EnsureEnumErrors(parse(item).value))
    ensures parse(item).Ok? && EnsureEnumErrors(parse(item).value) == [] ==>
              var input := parse(item).value;
              var error := ErrorStructIdent(input.ident);
              && input.data.Enum?
              && out == [ Emitted(ErrorStruct(input.vis, error)),
                          Emitted(DebugImpl(error, error)),
                          Emitted(FromStrImpl(input.ident, error, FromStrArms(input.data.variants))) ]
  {
    var collector := new Collector<Item>();
    var ctx := new Context<DeriveInput, Item>.NewParse(collector, item, parse);
    ghost var parsed := collector.State();
    var _ := ctx.Lint((input, hadErrors) => EnsureEnumErrors(input));
    ghost var linted := collector.State();
    if parse(item).Ok? {
      var input := parse(item).value;
      assert parsed == Fresh() && ctx.data == Some(input);
      assert linted == ReportAll(Fresh(), EnsureEnumErrors(input));
      if EnsureEnumErrors(input) != [] {
        assert linted.HasErrors();
      } else {
        assert linted == Fresh();
        EnsureEnumPassesExactlyUnitEnums(input);
      }
    } else {
      assert parsed.HasErrors() && ctx.data == None;
    }
    ctx.Expand(ErrorStructExpand, ItemToTokens);
    ctx.Expand(ImplDebugErrorStructExpand, ItemToTokens);
    ctx.Expand(ImplFromStrExpand, ItemToTokens);
    out := collector.Finish();
  }
}
