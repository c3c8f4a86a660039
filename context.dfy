/**
 * The collector and the context of src/context.rs.
 *
 * The first half describes what each operation does to the collector as a
 * function of the collector's state before it (`CollectorState`); the
 * classes `Collector` and `Context` then implement those operations in
 * place, and each method is proved to move the collector from `old(State())`
 * to the state the matching function gives.
 */
module Context {
  import opened Wrappers
  import opened Tokens
  import opened Compose

  /** The state of a collector: how many errors were reported, and the output so far. */
  datatype CollectorState<G> = CollectorState(errCount: nat, output: TokenStream<G>)
  {
    predicate HasErrors() {
      errCount != 0
    }

    /** `later` can follow this state: the error count never drops and the output only grows. */
    ghost predicate Precedes(later: CollectorState<G>) {
      errCount <= later.errCount && output <= later.output
    }
  }

  /** `Collector::new`: no errors and no output. */
  function Fresh<G>(): (s: CollectorState<G>)
    ensures !s.HasErrors() && s.output == []
  {
    CollectorState(0, [])
  }

  /** `Collector::error`: one more error, and its compile error appended after the output so far. */
  function Report<G>(s: CollectorState<G>, e: Error): (r: CollectorState<G>)
    ensures r.errCount == s.errCount + 1 && r.HasErrors()
    ensures r.output == s.output + ToCompileError(e)
    ensures s.Precedes(r)
  {
    CollectorState(s.errCount + 1, s.output + ToCompileError(e))
  }

  /** The diagnostics `es` reported one `error` call at a time, in order. */
  function ReportAll<G>(s: CollectorState<G>, es: seq<Error>): (r: CollectorState<G>)
    ensures r.errCount == s.errCount + |es|
    ensures r.output == s.output + RenderErrors(es)
  {
    if es == [] then s else Report(ReportAll(s, es[..|es| - 1]), es[|es| - 1])
  }

  /**
   * `Context::new_parse` / `new_parse2` once the parser has answered: a
   * failure is reported as exactly one error and leaves no data; a success
   * leaves the collector alone and becomes the data.
   */
  function ParseStep<T, G>(s: CollectorState<G>, parsed: Result<T, Error>): (r: (CollectorState<G>, Option<T>))
    ensures parsed.Err? ==> r.0.errCount == s.errCount + 1 && r.0.output == s.output + ToCompileError(parsed.error)
    ensures parsed.Err? ==> r.1 == None
    ensures parsed.Ok? ==> r.0 == s && r.1 == Some(parsed.value)
  {
    match parsed
    case Ok(data) => (s, Some(data))
    case Err(e) => (Report(s, e), None)
  }

  /**
   * `Context::lint`: without data the lint is not run and the answer is
   * false; with data the lint's diagnostics are reported and the answer is
   * true exactly when it reported none.
   */
  function LintStep<T, G>(s: CollectorState<G>, data: Option<T>, lint: Lint<T>): (r: (CollectorState<G>, bool))
    ensures data.None? ==> r == (s, false)
    ensures data.Some? ==>
              var es := lint(data.value, s.HasErrors());
              && r.0.errCount == s.errCount + |es|
              && r.0.output == s.output + RenderErrors(es)
              && (r.1 <==> es == [])
    ensures s.Precedes(r.0)
  {
    match data
    case None => (s, false)
    case Some(input) =>
      var after := ReportAll(s, lint(input, s.HasErrors()));
      (after, s.errCount == after.errCount)
  }

  /** The expand accepts the data whenever `capture` would run it. */
  ghost predicate CanCapture<T, O, G>(s: CollectorState<G>, data: Option<T>, expand: Expand<T, O>) {
    !s.HasErrors() && data.Some? ==> expand.requires(data.value)
  }

  /**
   * `Context::capture`: once the collector has errors, or when there is no
   * data, the expand is not run and the result is `None`; otherwise its
   * diagnostics are reported and its result is returned.
   */
  function CaptureStep<T, O, G>(s: CollectorState<G>, data: Option<T>, expand: Expand<T, O>): (r: (CollectorState<G>, Option<O>))
    requires CanCapture(s, data, expand)
    ensures s.HasErrors() || data.None? ==> r == (s, None)
    ensures !s.HasErrors() && data.Some? ==>
              var x := expand(data.value);
              && r.0.errCount == s.errCount + |x.errors|
              && r.0.output == s.output + RenderErrors(x.errors)
              && r.1 == x.output
    ensures s.Precedes(r.0)
  {
    if s.HasErrors() then (s, None)
    else match data
      case None => (s, None)
      case Some(input) =>
        var x := expand(input);
        (ReportAll(s, x.errors), x.output)
  }

  /**
   * `Context::expand`: `capture`, then the tokens of a `Some` result are
   * appended to the output; a `None` result adds nothing.
   */
  function ExpandStep<T, O, G>(s: CollectorState<G>, data: Option<T>, expand: Expand<T, O>, render: O -> TokenStream<G>): (r: CollectorState<G>)
    requires CanCapture(s, data, expand)
    ensures s.HasErrors() || data.None? ==> r == s
    ensures !s.HasErrors() && data.Some? ==>
              var x := expand(data.value);
              && r.errCount == s.errCount + |x.errors|
              && r.output == s.output + RenderErrors(x.errors) + (if x.output.Some? then render(x.output.value) else [])
    ensures s.Precedes(r)
  {
    var (after, res) := CaptureStep(s, data, expand);
    match res
    case None => after
    case Some(out) => CollectorState(after.errCount, after.output + render(out))
  }

  /**
   * `Nothing` as an expand's output: expanding changes the collector
   * exactly as capturing does, so an expand that reports nothing and
   * returns `Some(Nothing)` leaves the output as it was.
   */
  lemma ExpandToNothingAddsNoTokens<T, G>(s: CollectorState<G>, data: Option<T>, expand: Expand<T, Nothing>)
    requires CanCapture(s, data, expand)
    ensures ExpandStep(s, data, expand, NothingToTokens) == CaptureStep(s, data, expand).0
    ensures data.Some? && !s.HasErrors() && expand(data.value).errors == [] ==>
              ExpandStep(s, data, expand, NothingToTokens) == s
  {
  }

  /**
   * `EchoExpand` on a collector without errors: the input's own tokens are
   * appended and nothing is reported.
   */
  lemma EchoExpandEmitsInput<T, G>(s: CollectorState<G>, x: T, render: T -> TokenStream<G>)
    requires !s.HasErrors()
    ensures CanCapture(s, Some(x), EchoExpand)
    ensures ExpandStep(s, Some(x), EchoExpand, render) == CollectorState(s.errCount, s.output + render(x))
  {
  }

  /**
   * One call on a context in a sequence of calls: a lint, or an expand
   * together with the tokens its output renders to.
   */
  datatype Step<!T, G> =
    | LintCall(lint: Lint<T>)
    | ExpandCall(expand: Expand<T, TokenStream<G>>)

  /** An expand call accepts the data whenever it would run. */
  ghost predicate CanApply<T, G>(s: CollectorState<G>, data: Option<T>, step: Step<T, G>) {
    step.ExpandCall? ==> CanCapture(s, data, step.expand)
  }

  function Apply<T, G>(s: CollectorState<G>, data: Option<T>, step: Step<T, G>): CollectorState<G>
    requires CanApply(s, data, step)
  {
    match step
    case LintCall(lint) => LintStep(s, data, lint).0
    case ExpandCall(expand) => ExpandStep(s, data, expand, ts => ts)
  }

  /** Every expand in `steps` accepts the data whenever it would run. */
  ghost predicate CanRun<T, G>(s: CollectorState<G>, data: Option<T>, steps: seq<Step<T, G>>)
    decreases |steps|
  {
    steps == [] || (CanApply(s, data, steps[0]) && CanRun(Apply(s, data, steps[0]), data, steps[1..]))
  }

  /** The collector after the calls `steps` on a context holding `data`. */
  function Run<T, G>(s: CollectorState<G>, data: Option<T>, steps: seq<Step<T, G>>): CollectorState<G>
    requires CanRun(s, data, steps)
    decreases |steps|
  {
    if steps == [] then s else Run(Apply(s, data, steps[0]), data, steps[1..])
  }

  /** No sequence of calls removes an error or any output already collected. */
  lemma {:induction false} RunPrecedes<T, G>(s: CollectorState<G>, data: Option<T>, steps: seq<Step<T, G>>)
    requires CanRun(s, data, steps)
    ensures s.Precedes(Run(s, data, steps))
    decreases |steps|
  {
    if steps != [] {
      RunPrecedes(Apply(s, data, steps[0]), data, steps[1..]);
    }
  }

  /**
   * Once an error has been reported, no later expand runs, so any expand
   * may follow, even one that would panic on the data; and no expand
   * contributes output: everything the remaining calls add is compile errors.
   */
  lemma {:induction false} ErrorsDisableExpansion<T, G>(s: CollectorState<G>, data: Option<T>, steps: seq<Step<T, G>>)
    requires s.HasErrors()
    ensures CanRun(s, data, steps)
    ensures var r := Run(s, data, steps);
            && s.output <= r.output
            && forall k :: |s.output| <= k < |r.output| ==> r.output[k].CompileError?
    decreases |steps|
  {
    if steps != [] {
      assert CanApply(s, data, steps[0]);
      var next := Apply(s, data, steps[0]);
      ErrorsDisableExpansion(next, data, steps[1..]);
    }
  }

  /** Every position in `idx` moved one place to the right. */
  function Shifted(idx: seq<nat>): (r: seq<nat>)
    ensures |r| == |idx|
    ensures forall k :: 0 <= k < |r| ==> r[k] == idx[k] + 1
  {
    seq(|idx|, k requires 0 <= k < |idx| => idx[k] + 1)
  }

  lemma ShiftedMembers(idx: seq<nat>, i: nat)
    requires 0 < i
    ensures i in Shifted(idx) <==> i - 1 in idx
  {
  }

  /** The positions of the lint calls in `steps`, in increasing order. */
  function LintIndices<T, G>(steps: seq<Step<T, G>>): (idx: seq<nat>)
    ensures forall k :: 0 <= k < |idx| ==> idx[k] < |steps|
    ensures forall k, l :: 0 <= k < l < |idx| ==> idx[k] < idx[l]
    ensures forall i :: 0 <= i < |steps| ==> (i in idx <==> steps[i].LintCall?)
    decreases |steps|
  {
    if steps == [] then []
    else
      var rest := LintIndices(steps[1..]);
      var head: seq<nat> := if steps[0].LintCall? then [0] else [];
      var idx := head + Shifted(rest);
      assert forall i :: 0 < i < |steps| ==> (i in idx <==> steps[1..][i - 1].LintCall?) by {
        forall i | 0 < i < |steps|
          ensures i in idx <==> steps[1..][i - 1].LintCall?
        {
          ShiftedMembers(rest, i);
        }
      }
      idx
  }

  /** The lint calls of `steps`, in order, without the expand calls. */
  function LintsOnly<T, G>(steps: seq<Step<T, G>>): (lints: seq<Step<T, G>>)
    ensures |lints| == |LintIndices(steps)|
    ensures forall k :: 0 <= k < |lints| ==> lints[k] == steps[LintIndices(steps)[k]]
    decreases |steps|
  {
    if steps == [] then []
    else (if steps[0].LintCall? then [steps[0]] else []) + LintsOnly(steps[1..])
  }

  /** Lint calls run on any collector and any data. */
  lemma {:induction false} LintsOnlyCanRun<T, G>(s: CollectorState<G>, data: Option<T>, steps: seq<Step<T, G>>)
    ensures CanRun(s, data, LintsOnly(steps))
    decreases |steps|
  {
    if steps != [] {
      var lints := LintsOnly(steps);
      if steps[0].LintCall? {
        var next := Apply(s, data, steps[0]);
        LintsOnlyCanRun(next, data, steps[1..]);
        assert lints[0] == steps[0] && lints[1..] == LintsOnly(steps[1..]);
      } else {
        LintsOnlyCanRun(s, data, steps[1..]);
        assert lints == LintsOnly(steps[1..]);
      }
    }
  }

  /**
   * Once an error has been reported, the expands of a sequence of calls
   * are not run at all: the collector ends exactly as if only the lints
   * had been called.
   */
  lemma {:induction false} ErrorsLeaveOnlyLints<T, G>(s: CollectorState<G>, data: Option<T>, steps: seq<Step<T, G>>)
    requires s.HasErrors()
    ensures CanRun(s, data, steps) && CanRun(s, data, LintsOnly(steps))
    ensures Run(s, data, steps) == Run(s, data, LintsOnly(steps))
    decreases |steps|
  {
    ErrorsDisableExpansion(s, data, steps);
    LintsOnlyCanRun(s, data, steps);
    if steps != [] {
      assert CanApply(s, data, steps[0]);
      var next := Apply(s, data, steps[0]);
      ErrorsLeaveOnlyLints(next, data, steps[1..]);
      var lints := LintsOnly(steps);
      if steps[0].LintCall? {
        assert lints[0] == steps[0] && lints[1..] == LintsOnly(steps[1..]);
      } else {
        assert next == s && lints == LintsOnly(steps[1..]);
      }
    }
  }

  /** A call that reports nothing on `data` (and, for an expand, accepts it). */
  ghost predicate Quiet<T, G>(step: Step<T, G>, data: T) {
    match step
    case LintCall(lint) => lint(data, false) == []
    case ExpandCall(expand) => expand.requires(data) && expand(data).errors == []
  }

  /**
   * Starting without errors, calls that report nothing can all be made and
   * leave the collector without errors.
   */
  lemma {:induction false} QuietRunHasNoErrors<T, G>(s: CollectorState<G>, data: Option<T>, steps: seq<Step<T, G>>)
    requires !s.HasErrors()
    requires data.Some? ==> forall i :: 0 <= i < |steps| ==> Quiet(steps[i], data.value)
    ensures CanRun(s, data, steps)
    ensures !Run(s, data, steps).HasErrors()
    decreases |steps|
  {
    if steps != [] {
      assert data.Some? ==> Quiet(steps[0], data.value);
      assert CanApply(s, data, steps[0]);
      var next := Apply(s, data, steps[0]);
      forall i | 0 <= i < |steps[1..]| && data.Some?
        ensures Quiet(steps[1..][i], data.value)
      {
        assert steps[1..][i] == steps[i + 1];
      }
      QuietRunHasNoErrors(next, data, steps[1..]);
    }
  }

  /** `Collector`: counts the errors reported and collects the output, which only grows. */
  class Collector<G> {
    var errCount: nat
    var output: TokenStream<G>

    function State(): CollectorState<G>
      reads this
    {
      CollectorState(errCount, output)
    }

    /** `Collector::has_errors`: true exactly when some error has been reported. */
    predicate HasErrors()
      reads this
      ensures HasErrors() <==> errCount != 0
    {
      State().HasErrors()
    }

    /** `Collector::new` */
    constructor ()
      ensures State() == Fresh()
    {
      errCount := 0;
      output := [];
    }

    /** `Collector::default`, the same as `new` */
    constructor Default()
      ensures State() == Fresh()
    {
      errCount := 0;
      output := [];
    }

    /** `Collector::error`: report one diagnostic. */
    method Error(e: Error)
      modifies this
      ensures State() == Report(old(State()), e)
    {
      output := output + ToCompileError(e);
      errCount := errCount + 1;
    }

    /** What a callback does to the collector it is handed: one `error` call per diagnostic, in order. */
    method ReportErrors(es: seq<Error>)
      modifies this
      ensures State() == ReportAll(old(State()), es)
    {
      for i := 0 to |es|
        invariant State() == ReportAll(old(State()), es[..i])
      {
        assert es[..i + 1][..i] == es[..i];
        Error(es[i]);
      }
      assert es[..|es|] == es;
    }

    /** `Collector::finish`: the output collected so far. */
    method Finish() returns (ts: TokenStream<G>)
      ensures ts == output
    {
      ts := output;
    }
  }

  /**
   * `Context`: an optional piece of input data bound to the collector the
   * lints and expands report to. Owned and borrowed data behave alike, so
   * the data is a plain optional value.
   */
  class Context<T, G> {
    const collector: Collector<G>
    var data: Option<T>

    /** `Context::new` */
    constructor New(collector: Collector<G>, data: T)
      ensures this.collector == collector && this.data == Some(data)
    {
      this.collector := collector;
      this.data := Some(data);
    }

    /** `Context::new_by_ref` */
    constructor NewByRef(collector: Collector<G>, data: T)
      ensures this.collector == collector && this.data == Some(data)
    {
      this.collector := collector;
      this.data := Some(data);
    }

    /** `Context::new_empty` */
    constructor NewEmpty(collector: Collector<G>)
      ensures this.collector == collector && this.data == None
    {
      this.collector := collector;
      this.data := None;
    }

    /** `Context::new_parse`, parsing a `proc_macro::TokenStream` */
    constructor NewParse(collector: Collector<G>, input: TokenStream<G>, parse: TokenStream<G> -> Result<T, Error>)
      modifies collector
      ensures this.collector == collector
      ensures (collector.State(), data) == ParseStep(old(collector.State()), parse(input))
    {
      this.collector := collector;
      match parse(input)
      case Ok(d) =>
        this.data := Some(d);
      case Err(e) =>
        collector.Error(e);
        this.data := None;
    }

    /** `Context::new_parse2`, parsing a `proc_macro2::TokenStream` */
    constructor NewParse2(collector: Collector<G>, input: TokenStream<G>, parse: TokenStream<G> -> Result<T, Error>)
      modifies collector
      ensures this.collector == collector
      ensures (collector.State(), data) == ParseStep(old(collector.State()), parse(input))
    {
      this.collector := collector;
      match parse(input)
      case Ok(d) =>
        this.data := Some(d);
      case Err(e) =>
        collector.Error(e);
        this.data := None;
    }

    /** `Context::lint`: the data is taken out while the lint runs and put back afterwards. */
    method Lint(lint: Lint<T>) returns (ok: bool)
      modifies this, collector
      ensures data == old(data)
      ensures (collector.State(), ok) == LintStep(old(collector.State()), old(data), lint)
    {
      var taken := data;
      data := None;
      if taken.Some? {
        var start := collector.errCount;
        collector.ReportErrors(lint(taken.value, collector.HasErrors()));
        data := taken;
        ok := start == collector.errCount;
      } else {
        ok := false;
      }
    }

    /** `Context::expand` */
    method Expand<O>(expand: Expand<T, O>, render: O -> TokenStream<G>)
      requires CanCapture(collector.State(), data, expand)
      modifies collector
      ensures collector.State() == ExpandStep(old(collector.State()), data, expand, render)
    {
      var res := Capture(expand);
      if res.Some? {
        var tts := render(res.value);
        collector.output := collector.output + tts;
      }
    }

    /** `Context::capture` */
    method Capture<O>(expand: Expand<T, O>) returns (res: Option<O>)
      requires CanCapture(collector.State(), data, expand)
      modifies collector
      ensures (collector.State(), res) == CaptureStep(old(collector.State()), data, expand)
    {
      if collector.HasErrors() {
        return None;
      }
      if data.Some? {
        var x := expand(data.value);
        collector.ReportErrors(x.errors);
        res := x.output;
      } else {
        res := None;
      }
    }
  }
}
