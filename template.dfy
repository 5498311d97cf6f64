/** The secret template renderer of pkg/template/v2/template.go.

    `Execute` renders a map of templates against the secret data and writes
    the rendered values into one of three maps of a Kubernetes secret. The
    template engine and the YAML decoder are libraries; they are the
    function-valued fields of `Engine`. Go's map iteration order is chosen by
    the runtime; the order in which the template map is walked is the
    parameter `order`, any enumeration of its keys. */
module Template {
  import opened Wrappers
  import opened GoText

  /** The two template scopes and the three targets, as the API spells them. */
  const ScopeValues: GoString := Lit("Values")
  const ScopeKeysAndValues: GoString := Lit("KeysAndValues")
  const TargetData: GoString := Lit("Data")
  const TargetAnnotations: GoString := Lit("Annotations")
  const TargetLabels: GoString := Lit("Labels")

  /** The text/template engine (with the fixed delimiters, the function table
      and missingkey=error) and the YAML decoder.
      parse(name, text): whether `text` compiles, or the parser's reason.
      run(name, text, values): the output of executing the compiled template.
      unmarshal(out): the string-to-string mapping the output decodes to. */
  datatype Engine = Engine(
    parse: (GoString, GoString) -> Outcome<GoString>,
    run: (GoString, GoString, map<GoString, GoString>) -> Result<Bytes, GoString>,
    unmarshal: Bytes -> Result<map<GoString, GoString>, GoString>)

  datatype TemplateError =
    | ParseFailed(key: GoString, reason: GoString)          // errParse in execute
    | ExecuteFailed(key: GoString, reason: GoString)        // errExecute in execute
    | EntryFailed(key: GoString, cause: TemplateError)      // errExecute wrapping execute's error
    | UnmarshalFailed(reason: GoString)                     // the decoded output is no string map
    | UnknownScope(scope: GoString)

  const QuotedValues: GoString := Lit("'Values'")
  const QuotedKeysAndValues: GoString := Lit("'KeysAndValues'")

  /** The text of an error, as fmt.Errorf builds it. */
  function Message(e: TemplateError): GoString
  {
    match e
    case ParseFailed(k, r) => Lit("unable to parse template at key ") + k + Lit(": ") + r
    case ExecuteFailed(k, r) => Lit("unable to execute template at key ") + k + Lit(": ") + r
    case EntryFailed(k, c) => Lit("unable to execute template at key ") + k + Lit(": ") + Message(c)
    case UnmarshalFailed(r) => Lit("could not unmarshal template to 'map[string][]byte': ") + r
    case UnknownScope(s) =>
      Lit("unknown scope '") + s + Lit("': expected ") + QuotedValues + Lit(" or ") + QuotedKeysAndValues
  }

  /** The three maps of a secret that templates write to; None is a nil map. */
  datatype Projection = Projection(
    data: Option<map<GoString, Bytes>>,
    annotations: Option<map<GoString, GoString>>,
    labels: Option<map<GoString, GoString>>)

  /** The `*corev1.Secret` that `Execute` updates in place. */
  class Secret {
    var data: Option<map<GoString, Bytes>>
    var annotations: Option<map<GoString, GoString>>
    var labels: Option<map<GoString, GoString>>

    constructor (p: Projection)
      ensures View() == p
    {
      data, annotations, labels := p.data, p.annotations, p.labels;
    }

    function View(): Projection
      reads this
    {
      Projection(data, annotations, labels)
    }
  }

  predicate KnownTarget(target: GoString)
  {
    target == TargetData || target == TargetAnnotations || target == TargetLabels
  }

  predicate KnownScope(scope: GoString)
  {
    scope == ScopeValues || scope == ScopeKeysAndValues
  }

  /** The map a target names; nothing for an unknown target. */
  function Slot(p: Projection, target: GoString): Option<map<GoString, GoString>>
  {
    if target == TargetAnnotations then p.annotations
    else if target == TargetLabels then p.labels
    else if target == TargetData then p.data
    else None
  }

  /** What key `k` of the target's map holds. */
  function Lookup(p: Projection, target: GoString, k: GoString): Option<GoString>
  {
    var m := Slot(p, target);
    if m.Some? && k in m.value then Some(m.value[k]) else None
  }

  // ---------------------------------------------------------------------------
  // applyToTarget

  /** The projection after applyToTarget(k, val, target). */
  function Apply(p: Projection, k: GoString, val: Bytes, target: GoString): Projection
  {
    if target == TargetAnnotations then p.(annotations := Some(OrEmpty(p.annotations)[k := val]))
    else if target == TargetLabels then p.(labels := Some(OrEmpty(p.labels)[k := val]))
    else if target == TargetData then p.(data := Some(OrEmpty(p.data)[k := val]))
    else p
  }

  /** A write to a known target creates its map when nil, sets exactly key k,
      and leaves every other key and the other two maps as they were. */
  lemma ApplyWritesOneKey(p: Projection, k: GoString, val: Bytes, target: GoString)
    requires KnownTarget(target)
    ensures Slot(Apply(p, k, val, target), target).Some?
    ensures Slot(Apply(p, k, val, target), target).value.Keys == OrEmpty(Slot(p, target)).Keys + {k}
    ensures Lookup(Apply(p, k, val, target), target, k) == Some(val)
    ensures forall j :: j != k ==> Lookup(Apply(p, k, val, target), target, j) == Lookup(p, target, j)
    ensures forall t :: KnownTarget(t) && t != target ==> Slot(Apply(p, k, val, target), t) == Slot(p, t)
  {
  }

  /** An unrecognised target drops the value: nothing changes. */
  lemma ApplyUnknownTargetIsNoop(p: Projection, k: GoString, val: Bytes, target: GoString)
    requires !KnownTarget(target)
    ensures Apply(p, k, val, target) == p
  {
  }

  method ApplyToTarget(k: GoString, val: Bytes, target: GoString, secret: Secret)
    modifies secret
    ensures secret.View() == Apply(old(secret.View()), k, val, target)
  {
    if target == TargetAnnotations {
      if secret.annotations.None? {
        secret.annotations := Some(map[]);
      }
      secret.annotations := Some(secret.annotations.value[k := val]);
    } else if target == TargetLabels {
      if secret.labels.None? {
        secret.labels := Some(map[]);
      }
      secret.labels := Some(secret.labels.value[k := val]);
    } else if target == TargetData {
      if secret.data.None? {
        secret.data := Some(map[]);
      }
      secret.data := Some(secret.data.value[k := val]);
    }
  }

  /** The projection after writing every pair of `src` into the target, in
      any order. An empty `src` writes nothing, so a nil map stays nil. */
  function ApplyMap(p: Projection, src: map<GoString, GoString>, target: GoString): Projection
  {
    if src == map[] then p
    else if target == TargetAnnotations then p.(annotations := Some(OrEmpty(p.annotations) + src))
    else if target == TargetLabels then p.(labels := Some(OrEmpty(p.labels) + src))
    else if target == TargetData then p.(data := Some(OrEmpty(p.data) + src))
    else p
  }

  /** Writing one more pair after a batch is the batch with that pair added. */
  lemma ApplyAfterApplyMap(p: Projection, src: map<GoString, GoString>, k: GoString, v: Bytes, target: GoString)
    ensures Apply(ApplyMap(p, src, target), k, v, target) == ApplyMap(p, src[k := v], target)
  {
    if src == map[] {
      assert src[k := v] == map[k := v];
      if target == TargetAnnotations {
        assert OrEmpty(p.annotations)[k := v] == OrEmpty(p.annotations) + map[k := v];
      } else if target == TargetLabels {
        assert OrEmpty(p.labels)[k := v] == OrEmpty(p.labels) + map[k := v];
      } else if target == TargetData {
        assert OrEmpty(p.data)[k := v] == OrEmpty(p.data) + map[k := v];
      }
    } else {
      assert src[k := v] != map[] by { assert k in src[k := v]; }
      if target == TargetAnnotations {
        assert (OrEmpty(p.annotations) + src)[k := v] == OrEmpty(p.annotations) + src[k := v];
      } else if target == TargetLabels {
        assert (OrEmpty(p.labels) + src)[k := v] == OrEmpty(p.labels) + src[k := v];
      } else if target == TargetData {
        assert (OrEmpty(p.data) + src)[k := v] == OrEmpty(p.data) + src[k := v];
      }
    }
  }

  // ---------------------------------------------------------------------------
  // execute

  /** The string-keyed copy of the data that templates are executed against:
      the same keys, each value its bytes as a string. */
  function StringView(data: map<GoString, Bytes>): map<GoString, GoString>
  {
    map k | k in data :: data[k]
  }

  /** The outcome of execute(name, text, data). */
  function Rendering(e: Engine, name: GoString, text: GoString, data: map<GoString, Bytes>): Result<Bytes, TemplateError>
  {
    match e.parse(name, text)
    case Fail(reason) => Failure(ParseFailed(name, reason))
    case Pass =>
      match e.run(name, text, StringView(data))
      case Failure(reason) => Failure(ExecuteFailed(name, reason))
      case Success(out) => Success(out)
  }

  /** A template that does not compile and one that fails while executing are
      reported as different errors, both naming the template. */
  lemma RenderingErrorsAreDistinct(e: Engine, name: GoString, text: GoString, data: map<GoString, Bytes>)
    ensures Rendering(e, name, text, data).Success?
        <==> e.parse(name, text).Pass? && e.run(name, text, StringView(data)).Success?
    ensures Rendering(e, name, text, data).Failure? && Rendering(e, name, text, data).error.ParseFailed?
        <==> e.parse(name, text).Fail?
    ensures Rendering(e, name, text, data).Failure? && Rendering(e, name, text, data).error.ExecuteFailed?
        <==> e.parse(name, text).Pass? && e.run(name, text, StringView(data)).Failure?
    ensures e.parse(name, text).Fail? ==>
      Rendering(e, name, text, data) == Failure(ParseFailed(name, e.parse(name, text).error))
    ensures e.parse(name, text).Pass? && e.run(name, text, StringView(data)).Failure? ==>
      Rendering(e, name, text, data) == Failure(ExecuteFailed(name, e.run(name, text, StringView(data)).error))
  {
  }

  /** Models execute: builds the string copy of `data` key by key, in the
      runtime's order, then parses and runs the template. */
  method Render(e: Engine, name: GoString, text: GoString, data: map<GoString, Bytes>) returns (r: Result<Bytes, TemplateError>)
    ensures r == Rendering(e, name, text, data)
  {
    var strValData: map<GoString, GoString> := map[];
    var pending := data.Keys;
    while pending != {}
      invariant pending <= data.Keys
      invariant strValData.Keys == data.Keys - pending
      invariant forall k :: k in strValData ==> strValData[k] == data[k]
      decreases pending
    {
      var k :| k in pending;
      strValData := strValData[k := data[k]];
      pending := pending - {k};
    }
    assert strValData == StringView(data);
    var parsed := e.parse(name, text);
    if parsed.Fail? {
      return Failure(ParseFailed(name, parsed.error));
    }
    var out := e.run(name, text, strValData);
    if out.Failure? {
      return Failure(ExecuteFailed(name, out.error));
    }
    return Success(out.value);
  }

  // ---------------------------------------------------------------------------
  // One template entry in each scope

  /** The outcome of a render pass and the projection it leaves behind. */
  datatype Run = Run(outcome: Outcome<TemplateError>, after: Projection)

  /** mapScopeApply(text): render the template, decode the output as a string
      map and write each decoded pair. */
  function MapScopeRun(e: Engine, text: GoString, data: map<GoString, Bytes>, target: GoString, p: Projection): Run
  {
    match Rendering(e, text, text, data)
    case Failure(err) => Run(Fail(EntryFailed(text, err)), p)
    case Success(out) =>
      match e.unmarshal(out)
      case Failure(reason) => Run(Fail(UnmarshalFailed(reason)), p)
      case Success(src) => Run(Pass, ApplyMap(p, src, target))
  }

  /** In KeysAndValues scope the keys written are the decoded keys and only
      those: the template's own key plays no part. When rendering or decoding
      fails nothing is written. */
  lemma MapScopeWritesDecodedPairs(e: Engine, text: GoString, data: map<GoString, Bytes>, target: GoString, p: Projection)
    requires KnownTarget(target)
    ensures var r := MapScopeRun(e, text, data, target, p);
      r.outcome.Fail? ==> r.after == p
    ensures var r := MapScopeRun(e, text, data, target, p);
      r.outcome.Pass? ==>
        var src := e.unmarshal(Rendering(e, text, text, data).value).value;
        forall k :: Lookup(r.after, target, k) == if k in src then Some(src[k]) else Lookup(p, target, k)
  {
  }

  method MapScopeApply(e: Engine, text: GoString, data: map<GoString, Bytes>, target: GoString, secret: Secret)
    returns (err: Outcome<TemplateError>)
    modifies secret
    ensures Run(err, secret.View()) == MapScopeRun(e, text, data, target, old(secret.View()))
  {
    var val := Render(e, text, text, data);
    if val.Failure? {
      return Fail(EntryFailed(text, val.error));
    }
    var decoded := e.unmarshal(val.value);
    if decoded.Failure? {
      return Fail(UnmarshalFailed(decoded.error));
    }
    var src := decoded.value;
    ghost var p0 := secret.View();
    ghost var done: map<GoString, GoString> := map[];
    var pending := src.Keys;
    while pending != {}
      invariant pending <= src.Keys
      invariant done.Keys == src.Keys - pending
      invariant forall k :: k in done ==> done[k] == src[k]
      invariant secret.View() == ApplyMap(p0, done, target)
      decreases pending
    {
      var k :| k in pending;
      ApplyAfterApplyMap(p0, done, k, src[k], target);
      ApplyToTarget(k, src[k], target, secret);
      done := done[k := src[k]];
      pending := pending - {k};
    }
    assert done == src;
    return Pass;
  }

  /** One entry of the template map, in a known scope. Values scope renders
      the entry under its own key and writes it there; KeysAndValues scope
      hands the entry's template to mapScopeApply. */
  function EntryRun(e: Engine, scope: GoString, k: GoString, text: GoString, data: map<GoString, Bytes>,
                    target: GoString, p: Projection): Run
    requires KnownScope(scope)
  {
    if scope == ScopeValues then
      match Rendering(e, k, text, data)
      case Failure(err) => Run(Fail(EntryFailed(k, err)), p)
      case Success(val) => Run(Pass, Apply(p, k, val, target))
    else
      MapScopeRun(e, text, data, target, p)
  }

  /** Whether an entry fails; this does not depend on the secret. */
  predicate EntryFails(e: Engine, scope: GoString, k: GoString, text: GoString, data: map<GoString, Bytes>)
  {
    if scope == ScopeValues then Rendering(e, k, text, data).Failure?
    else Rendering(e, text, text, data).Failure? || e.unmarshal(Rendering(e, text, text, data).value).Failure?
  }

  /** The keys an entry may write: its own key in Values scope, the decoded
      keys in KeysAndValues scope. */
  function EntryKeys(e: Engine, scope: GoString, k: GoString, text: GoString, data: map<GoString, Bytes>): set<GoString>
  {
    if scope == ScopeValues then {k}
    else if Rendering(e, text, text, data).Success? && e.unmarshal(Rendering(e, text, text, data).value).Success?
    then e.unmarshal(Rendering(e, text, text, data).value).value.Keys
    else {}
  }

  /** An entry fails exactly when EntryFails says so; a failing entry writes
      nothing, and a succeeding one touches only its EntryKeys. */
  lemma EntryRunSpec(e: Engine, scope: GoString, k: GoString, text: GoString, data: map<GoString, Bytes>,
                     target: GoString, p: Projection)
    requires KnownScope(scope)
    ensures EntryRun(e, scope, k, text, data, target, p).outcome.Fail? <==> EntryFails(e, scope, k, text, data)
    ensures EntryRun(e, scope, k, text, data, target, p).outcome.Fail? ==> EntryRun(e, scope, k, text, data, target, p).after == p
    ensures forall j :: j !in EntryKeys(e, scope, k, text, data) ==>
      Lookup(EntryRun(e, scope, k, text, data, target, p).after, target, j) == Lookup(p, target, j)
  {
  }

  // ---------------------------------------------------------------------------
  // The loop over the template map

  predicate InMap(order: seq<GoString>, tpl: map<GoString, Bytes>)
  {
    forall i :: 0 <= i < |order| ==> order[i] in tpl
  }

  /** The entries of `tpl`, in `order`, applied one after the other; the
      first failure stops the walk. */
  function EntriesRun(e: Engine, scope: GoString, order: seq<GoString>, tpl: map<GoString, Bytes>,
                      data: map<GoString, Bytes>, target: GoString, p: Projection): Run
    requires KnownScope(scope)
    requires InMap(order, tpl)
    decreases |order|
  {
    if order == [] then Run(Pass, p)
    else
      var first := EntryRun(e, scope, order[0], tpl[order[0]], data, target, p);
      if first.outcome.Fail? then first
      else EntriesRun(e, scope, order[1..], tpl, data, target, first.after)
  }

  /** The position of the first entry that fails, |order| when none does. */
  function FirstFailure(e: Engine, scope: GoString, order: seq<GoString>, tpl: map<GoString, Bytes>,
                        data: map<GoString, Bytes>): (i: nat)
    requires InMap(order, tpl)
    ensures i <= |order|
    ensures forall j :: 0 <= j < i ==> !EntryFails(e, scope, order[j], tpl[order[j]], data)
    ensures i < |order| ==> EntryFails(e, scope, order[i], tpl[order[i]], data)
    decreases |order|
  {
    if order == [] then 0
    else if EntryFails(e, scope, order[0], tpl[order[0]], data) then 0
    else 1 + FirstFailure(e, scope, order[1..], tpl, data)
  }

  /** The first failure aborts: the entries before it are applied (and stay
      applied), its error is returned, and no later entry is applied. */
  lemma {:induction false} EntriesStopAtFirstFailure(e: Engine, scope: GoString, order: seq<GoString>,
      tpl: map<GoString, Bytes>, data: map<GoString, Bytes>, target: GoString, p: Projection)
    requires KnownScope(scope)
    requires InMap(order, tpl)
    ensures var i := FirstFailure(e, scope, order, tpl, data);
      var before := EntriesRun(e, scope, order[..i], tpl, data, target, p);
      && before.outcome == Pass
      && EntriesRun(e, scope, order, tpl, data, target, p).after == before.after
      && (EntriesRun(e, scope, order, tpl, data, target, p).outcome == Pass <==> i == |order|)
      && (i < |order| ==>
            EntriesRun(e, scope, order, tpl, data, target, p).outcome
            == EntryRun(e, scope, order[i], tpl[order[i]], data, target, before.after).outcome)
    decreases |order|
  {
    if order != [] {
      var k := order[0];
      EntryRunSpec(e, scope, k, tpl[k], data, target, p);
      if !EntryFails(e, scope, k, tpl[k], data) {
        var q := EntryRun(e, scope, k, tpl[k], data, target, p).after;
        var rest := order[1..];
        EntriesStopAtFirstFailure(e, scope, rest, tpl, data, target, q);
        var i := FirstFailure(e, scope, order, tpl, data);
        assert order[..i][1..] == rest[..i - 1];
      }
    }
  }

  /** The keys a walk may write: the union of its entries' EntryKeys. */
  function WalkKeys(e: Engine, scope: GoString, order: seq<GoString>, tpl: map<GoString, Bytes>,
                    data: map<GoString, Bytes>): set<GoString>
    requires InMap(order, tpl)
    decreases |order|
  {
    if order == [] then {}
    else EntryKeys(e, scope, order[0], tpl[order[0]], data) + WalkKeys(e, scope, order[1..], tpl, data)
  }

  /** A walk leaves every key outside WalkKeys as it was. */
  lemma {:induction false} EntriesTouchOnlyWalkKeys(e: Engine, scope: GoString, order: seq<GoString>,
      tpl: map<GoString, Bytes>, data: map<GoString, Bytes>, target: GoString, p: Projection, j: GoString)
    requires KnownScope(scope)
    requires InMap(order, tpl)
    requires j !in WalkKeys(e, scope, order, tpl, data)
    ensures Lookup(EntriesRun(e, scope, order, tpl, data, target, p).after, target, j) == Lookup(p, target, j)
    decreases |order|
  {
    if order != [] {
      var k := order[0];
      EntryRunSpec(e, scope, k, tpl[k], data, target, p);
      var first := EntryRun(e, scope, k, tpl[k], data, target, p);
      if first.outcome.Pass? {
        EntriesTouchOnlyWalkKeys(e, scope, order[1..], tpl, data, target, first.after, j);
      }
    }
  }

  lemma {:induction false} ValuesWalkKeys(e: Engine, order: seq<GoString>, tpl: map<GoString, Bytes>,
                                          data: map<GoString, Bytes>)
    requires InMap(order, tpl)
    ensures forall j :: j in WalkKeys(e, ScopeValues, order, tpl, data) <==> j in order
    decreases |order|
  {
    if order != [] {
      ValuesWalkKeys(e, order[1..], tpl, data);
      assert order == [order[0]] + order[1..];
    }
  }

  /** Values scope, first failure: every entry from the failing one on keeps
      whatever the target held before the call. */
  lemma ValuesLaterEntriesUntouched(e: Engine, order: seq<GoString>, tpl: map<GoString, Bytes>,
                                    data: map<GoString, Bytes>, target: GoString, p: Projection)
    requires Enumerates(order, tpl.Keys)
    ensures var i := FirstFailure(e, ScopeValues, order, tpl, data);
      forall j :: i <= j < |order| ==>
        Lookup(EntriesRun(e, ScopeValues, order, tpl, data, target, p).after, target, order[j]) == Lookup(p, target, order[j])
  {
    var i := FirstFailure(e, ScopeValues, order, tpl, data);
    EntriesStopAtFirstFailure(e, ScopeValues, order, tpl, data, target, p);
    ValuesWalkKeys(e, order[..i], tpl, data);
    forall j | i <= j < |order|
      ensures Lookup(EntriesRun(e, ScopeValues, order, tpl, data, target, p).after, target, order[j]) == Lookup(p, target, order[j])
    {
      assert order[j] !in order[..i];
      EntriesTouchOnlyWalkKeys(e, ScopeValues, order[..i], tpl, data, target, p, order[j]);
    }
  }

  /** Values scope, success: every template key is present in the target and
      holds the bytes its own template rendered to. */
  lemma {:induction false} ValuesSuccessWritesEveryKey(e: Engine, order: seq<GoString>, tpl: map<GoString, Bytes>,
                                                       data: map<GoString, Bytes>, target: GoString, p: Projection)
    requires KnownTarget(target)
    requires InMap(order, tpl)
    requires EntriesRun(e, ScopeValues, order, tpl, data, target, p).outcome == Pass
    ensures forall i :: 0 <= i < |order| ==>
      Rendering(e, order[i], tpl[order[i]], data).Success? &&
      Lookup(EntriesRun(e, ScopeValues, order, tpl, data, target, p).after, target, order[i])
        == Some(Rendering(e, order[i], tpl[order[i]], data).value)
    decreases |order|
  {
    if order != [] {
      var k := order[0];
      var rest := order[1..];
      var q := EntryRun(e, ScopeValues, k, tpl[k], data, target, p).after;
      ValuesSuccessWritesEveryKey(e, rest, tpl, data, target, q);
      forall i | 0 <= i < |order|
        ensures Rendering(e, order[i], tpl[order[i]], data).Success? &&
          Lookup(EntriesRun(e, ScopeValues, order, tpl, data, target, p).after, target, order[i])
            == Some(Rendering(e, order[i], tpl[order[i]], data).value)
      {
        if i > 0 {
          assert order[i] == rest[i - 1];
        } else if k in rest {
          var m :| 0 <= m < |rest| && rest[m] == k;
          assert order[m + 1] == k;
        } else {
          ApplyWritesOneKey(p, k, Rendering(e, k, tpl[k], data).value, target);
          ValuesWalkKeys(e, rest, tpl, data);
          EntriesTouchOnlyWalkKeys(e, ScopeValues, rest, tpl, data, target, q, k);
        }
      }
    }
  }

  /** An unrecognised target: whatever the outcome, the secret is unchanged. */
  lemma {:induction false} EntriesUnknownTargetKeepSecret(e: Engine, scope: GoString, order: seq<GoString>,
      tpl: map<GoString, Bytes>, data: map<GoString, Bytes>, target: GoString, p: Projection)
    requires KnownScope(scope)
    requires InMap(order, tpl)
    requires !KnownTarget(target)
    ensures EntriesRun(e, scope, order, tpl, data, target, p).after == p
    decreases |order|
  {
    if order != [] {
      EntriesUnknownTargetKeepSecret(e, scope, order[1..], tpl, data, target, p);
    }
  }

  method ValueScopeApply(e: Engine, tpl: map<GoString, Bytes>, order: seq<GoString>, data: map<GoString, Bytes>,
                         target: GoString, secret: Secret) returns (err: Outcome<TemplateError>)
    requires Enumerates(order, tpl.Keys)
    modifies secret
    ensures Run(err, secret.View()) == EntriesRun(e, ScopeValues, order, tpl, data, target, old(secret.View()))
  {
    var i := 0;
    while i < |order|
      invariant 0 <= i <= |order|
      invariant EntriesRun(e, ScopeValues, order, tpl, data, target, old(secret.View()))
             == EntriesRun(e, ScopeValues, order[i..], tpl, data, target, secret.View())
    {
      var k := order[i];
      assert order[i..][1..] == order[i + 1..];
      var val := Render(e, k, tpl[k], data);
      if val.Failure? {
        return Fail(EntryFailed(k, val.error));
      }
      ApplyToTarget(k, val.value, target, secret);
      i := i + 1;
    }
    return Pass;
  }

  // ---------------------------------------------------------------------------
  // Execute

  /** The outcome of Execute(tpl, data, scope, target, secret), `tpl` being
      None for a nil map. */
  function ExecuteRun(e: Engine, tpl: Option<map<GoString, Bytes>>, order: seq<GoString>, data: map<GoString, Bytes>,
                      scope: GoString, target: GoString, p: Projection): Run
    requires tpl.Some? ==> InMap(order, tpl.value)
  {
    if tpl.None? then Run(Pass, p)
    else if scope == ScopeKeysAndValues then EntriesRun(e, ScopeKeysAndValues, order, tpl.value, data, target, p)
    else if scope == ScopeValues then EntriesRun(e, ScopeValues, order, tpl.value, data, target, p)
    else Run(Fail(UnknownScope(scope)), p)
  }

  /** A nil template map is success and changes nothing, whatever the scope. */
  lemma ExecuteNilTemplatesIsNoop(e: Engine, order: seq<GoString>, data: map<GoString, Bytes>,
                                  scope: GoString, target: GoString, p: Projection)
    ensures ExecuteRun(e, None, order, data, scope, target, p) == Run(Pass, p)
  {
  }

  /** An unknown scope is an error, raised before any write, whose message
      names both valid scopes; an empty but non-nil template map included. */
  lemma ExecuteUnknownScope(e: Engine, tpl: map<GoString, Bytes>, order: seq<GoString>, data: map<GoString, Bytes>,
                            scope: GoString, target: GoString, p: Projection)
    requires InMap(order, tpl)
    requires !KnownScope(scope)
    ensures ExecuteRun(e, Some(tpl), order, data, scope, target, p) == Run(Fail(UnknownScope(scope)), p)
    ensures Contains(Message(UnknownScope(scope)), QuotedValues)
    ensures Contains(Message(UnknownScope(scope)), QuotedKeysAndValues)
  {
    var head := Lit("unknown scope '") + scope + Lit("': expected ");
    ContainsInfix(head, QuotedValues, Lit(" or ") + QuotedKeysAndValues);
    assert Message(UnknownScope(scope)) == head + QuotedValues + (Lit(" or ") + QuotedKeysAndValues);
    ContainsInfix(head + QuotedValues + Lit(" or "), QuotedKeysAndValues, []);
    assert Message(UnknownScope(scope)) == head + QuotedValues + Lit(" or ") + QuotedKeysAndValues + [];
  }

  /** An unrecognised target never changes the secret, in either scope. */
  lemma ExecuteUnknownTargetKeepsSecret(e: Engine, tpl: Option<map<GoString, Bytes>>, order: seq<GoString>,
                                        data: map<GoString, Bytes>, scope: GoString, target: GoString, p: Projection)
    requires tpl.Some? ==> InMap(order, tpl.value)
    requires !KnownTarget(target)
    ensures ExecuteRun(e, tpl, order, data, scope, target, p).after == p
  {
    if tpl.Some? && KnownScope(scope) {
      EntriesUnknownTargetKeepSecret(e, scope, order, tpl.value, data, target, p);
    }
  }

  /** Models Execute. `order` is the order in which the runtime walks `tpl`. */
  method Execute(e: Engine, tpl: Option<map<GoString, Bytes>>, order: seq<GoString>, data: map<GoString, Bytes>,
                 scope: GoString, target: GoString, secret: Secret) returns (err: Outcome<TemplateError>)
    requires tpl.Some? ==> Enumerates(order, tpl.value.Keys)
    modifies secret
    ensures Run(err, secret.View()) == ExecuteRun(e, tpl, order, data, scope, target, old(secret.View()))
  {
    if tpl.None? {
      return Pass;
    }
    var t := tpl.value;
    if scope == ScopeKeysAndValues {
      var i := 0;
      while i < |order|
        invariant 0 <= i <= |order|
        invariant EntriesRun(e, ScopeKeysAndValues, order, t, data, target, old(secret.View()))
               == EntriesRun(e, ScopeKeysAndValues, order[i..], t, data, target, secret.View())
      {
        assert order[i..][1..] == order[i + 1..];
        err := MapScopeApply(e, t[order[i]], data, target, secret);
        if err.Fail? {
          return;
        }
        i := i + 1;
      }
    } else if scope == ScopeValues {
      err := ValueScopeApply(e, t, order, data, target, secret);
      if err.Fail? {
        return;
      }
    } else {
      return Fail(UnknownScope(scope));
    }
    return Pass;
  }
}
