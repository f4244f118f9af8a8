/** The multi-model training and evaluation loop (`runModels`).

    Several classifiers share one training set and one test set and are
    trained in lockstep.  Each model is opaque: a state P (its parameters,
    its batch-norm buffers and its optimizer's moments) and three functions
    of that state, collected in a `Net`.  Per epoch every model is trained
    over the same unshuffled batches, then evaluated on the whole test set as
    one batch, and one percentage per model is appended to its `_train` and
    `_test` accuracy curves. */
module Training {
  import opened Wrappers

  /** One (input, label) pair of a dataset. */
  datatype Sample<X> = Sample(input: X, target: int)

  /** The behaviour of a model, opaque apart from its signature.
      - predict(p, training, inputs, i): the arg-max class of the i-th row of
        the model's output on the batch `inputs` (batch norm makes it depend
        on the whole batch in training mode);
      - track(p, inputs): the state after a training-mode forward pass (batch
        norm updates its running statistics);
      - step(p, grads): the state after one optimizer step, where `grads`
        lists the batches whose losses were back-propagated since the last
        zero_grad;
      - reset(p): the same model with a newly built optimizer (its moments
        and step count reset), as `optimizer(value.parameters(), lr=...)`
        builds one at the start of every `runModels` call. */
  datatype Net<!X, !P> = Net(
    predict: (P, bool, seq<X>, nat) -> int,
    track: (P, seq<X>) -> P,
    step: (P, seq<seq<Sample<X>>>) -> P,
    reset: P -> P)

  /** The errors `runModels` raises. */
  datatype RunError =
    | BatchSizeError    // DataLoader refuses a batch size that is not positive
    | EmptyTestSet      // DataLoader(test, len(test)) with len(test) == 0
    | ZeroDivision      // an accuracy divided by len(train) == 0

  // ---------------------------------------------------------------------------
  // Datasets and batches
  // ---------------------------------------------------------------------------

  function Inputs<X>(batch: seq<Sample<X>>): (r: seq<X>)
    ensures |r| == |batch|
    ensures forall i :: 0 <= i < |batch| ==> r[i] == batch[i].input
  {
    seq(|batch|, i requires 0 <= i < |batch| => batch[i].input)
  }

  function Flatten<T>(bs: seq<seq<T>>): seq<T>
  {
    if bs == [] then [] else bs[0] + Flatten(bs[1..])
  }

  lemma {:induction false} FlattenSnoc<T>(bs: seq<seq<T>>, b: seq<T>)
    ensures Flatten(bs + [b]) == Flatten(bs) + b
  {
    if bs == [] {
      assert [] + [b] == [b];
    } else {
      assert (bs + [b])[0] == bs[0];
      assert (bs + [b])[1..] == bs[1..] + [b];
      FlattenSnoc(bs[1..], b);
    }
  }

  /** The batches an unshuffled DataLoader yields: consecutive slices of
      `size` samples, the last one possibly shorter. */
  function Batches<T>(data: seq<T>, size: nat): (r: seq<seq<T>>)
    requires size > 0
    ensures forall i :: 0 <= i < |r| ==> 0 < |r[i]| <= size
    decreases |data|
  {
    if data == [] then []
    else if |data| <= size then [data]
    else [data[..size]] + Batches(data[size..], size)
  }

  /** The batches cover the dataset exactly once, in order. */
  lemma {:induction false} BatchesCover<T>(data: seq<T>, size: nat)
    requires size > 0
    ensures Flatten(Batches(data, size)) == data
    decreases |data|
  {
    if data != [] && |data| > size {
      var bs := Batches(data, size);
      assert bs[0] == data[..size];
      assert bs[1..] == Batches(data[size..], size);
      BatchesCover(data[size..], size);
    }
  }

  /** The test loader: a batch size equal to the dataset's length gives one
      batch holding the whole test set. */
  lemma TestLoaderIsOneBatch<T>(data: seq<T>)
    requires |data| > 0
    ensures Batches(data, |data|) == [data]
  {
  }

  // ---------------------------------------------------------------------------
  // Counting and percentages
  // ---------------------------------------------------------------------------

  /** How many of the first n samples of the batch the model classifies as
      labelled: `(torch.max(outputs, 1)[1] == labels).sum()`. */
  function Hits<X, P>(net: Net<X, P>, p: P, training: bool, batch: seq<Sample<X>>, n: nat): (r: nat)
    requires n <= |batch|
    ensures r <= n
  {
    if n == 0 then 0
    else Hits(net, p, training, batch, n - 1)
         + (if net.predict(p, training, Inputs(batch), n - 1) == batch[n - 1].target then 1 else 0)
  }

  function CountCorrect<X, P>(net: Net<X, P>, p: P, training: bool, batch: seq<Sample<X>>): (r: nat)
    ensures r <= |batch|
  {
    Hits(net, p, training, batch, |batch|)
  }

  /** A model's accuracy in percent: `correct * 100.0 / total`. */
  function Percent(correct: nat, total: nat): real
    requires total > 0
  {
    (correct as real * 100.0) / total as real
  }

  /** The percentage times the total gives back the count, and a count that
      does not exceed the total gives a percentage in [0, 100]. */
  lemma PercentRange(correct: nat, total: nat)
    requires total > 0
    ensures Percent(correct, total) * total as real == correct as real * 100.0
    ensures 0.0 <= Percent(correct, total)
    ensures correct <= total ==> Percent(correct, total) <= 100.0
  {
  }

  // ---------------------------------------------------------------------------
  // What happens to one model (the reference for the loops below)
  // ---------------------------------------------------------------------------

  /** A state and a count of correct predictions. */
  datatype Pass<P> = Pass(state: P, correct: nat)

  /** One training batch for one model: forward in training mode (counting
      hits with the state before the pass), back-propagate this batch only,
      then one optimizer step. */
  function TrainOn<X, P>(net: Net<X, P>, p: P, batch: seq<Sample<X>>): (r: Pass<P>)
    ensures r.correct <= |batch|
  {
    Pass(net.step(net.track(p, Inputs(batch)), [batch]), CountCorrect(net, p, true, batch))
  }

  /** A training pass over the batches, in order. */
  function TrainPass<X, P>(net: Net<X, P>, p: P, batches: seq<seq<Sample<X>>>): (r: Pass<P>)
    ensures r.correct <= |Flatten(batches)|
    decreases |batches|
  {
    if batches == [] then Pass(p, 0)
    else
      var front := batches[..|batches| - 1];
      var done := TrainPass(net, p, front);
      var last := TrainOn(net, done.state, batches[|batches| - 1]);
      assert batches == front + [batches[|batches| - 1]];
      FlattenSnoc(front, batches[|batches| - 1]);
      Pass(last.state, done.correct + last.correct)
  }

  lemma TrainPassSnoc<X, P>(net: Net<X, P>, p: P, batches: seq<seq<Sample<X>>>, b: nat)
    requires b < |batches|
    ensures var done := TrainPass(net, p, batches[..b]);
      var last := TrainOn(net, done.state, batches[b]);
      TrainPass(net, p, batches[..b + 1]) == Pass(last.state, done.correct + last.correct)
  {
    assert batches[..b + 1][..b] == batches[..b];
  }

  /** An evaluation pass over the batches: evaluation mode, no state change. */
  function TestCount<X, P>(net: Net<X, P>, p: P, batches: seq<seq<Sample<X>>>): (r: nat)
    ensures r <= |Flatten(batches)|
    decreases |batches|
  {
    if batches == [] then 0
    else
      var front := batches[..|batches| - 1];
      assert batches == front + [batches[|batches| - 1]];
      FlattenSnoc(front, batches[|batches| - 1]);
      TestCount(net, p, front) + CountCorrect(net, p, false, batches[|batches| - 1])
  }

  /** The accuracy curves of one model and its final state. */
  datatype History<P> = History(train: seq<real>, test: seq<real>, state: P)

  predicate Runnable<T>(epochs: nat, train: seq<T>, test: seq<T>, batchSize: int)
  {
    batchSize > 0 && |test| > 0 && (epochs > 0 ==> |train| > 0)
  }

  /** `epochs` epochs of one model: each trains over the training batches,
      tests on the test set, and appends one percentage to each curve. */
  function Run<X, P>(net: Net<X, P>, p: P, epochs: nat, train: seq<Sample<X>>, test: seq<Sample<X>>, batchSize: int): (h: History<P>)
    requires Runnable(epochs, train, test, batchSize)
    ensures |h.train| == epochs && |h.test| == epochs
  {
    if epochs == 0 then History([], [], p)
    else
      var h := Run(net, p, epochs - 1, train, test, batchSize);
      var t := TrainPass(net, h.state, Batches(train, batchSize));
      var c := TestCount(net, t.state, Batches(test, |test|));
      History(h.train + [Percent(t.correct, |train|)], h.test + [Percent(c, |test|)], t.state)
  }

  /** Every entry of the curve lies in [0, 100]. */
  predicate Percentages(curve: seq<real>)
  {
    forall i :: 0 <= i < |curve| ==> 0.0 <= curve[i] <= 100.0
  }

  lemma AppendPercentage(curve: seq<real>, x: real)
    requires Percentages(curve) && 0.0 <= x <= 100.0
    ensures Percentages(curve + [x])
  {
    var c := curve + [x];
    forall i | 0 <= i < |c|
      ensures 0.0 <= c[i] <= 100.0
    {
      if i < |curve| {
        assert c[i] == curve[i];
      }
    }
  }

  /** Every accuracy on either curve is a percentage in [0, 100]: a pass
      never counts more hits than the dataset has samples. */
  lemma {:induction false} RunBounds<X, P>(net: Net<X, P>, p: P, epochs: nat, train: seq<Sample<X>>, test: seq<Sample<X>>, batchSize: int)
    requires Runnable(epochs, train, test, batchSize)
    ensures Percentages(Run(net, p, epochs, train, test, batchSize).train)
    ensures Percentages(Run(net, p, epochs, train, test, batchSize).test)
  {
    if epochs > 0 {
      RunBounds(net, p, epochs - 1, train, test, batchSize);
      var h := Run(net, p, epochs - 1, train, test, batchSize);
      var t := TrainPass(net, h.state, Batches(train, batchSize));
      var c := TestCount(net, t.state, Batches(test, |test|));
      BatchesCover(train, batchSize);
      BatchesCover(test, |test|);
      PercentRange(t.correct, |train|);
      PercentRange(c, |test|);
      AppendPercentage(h.train, Percent(t.correct, |train|));
      AppendPercentage(h.test, Percent(c, |test|));
    }
  }

  /** One more epoch appends exactly one entry to each curve and keeps the
      earlier entries. */
  lemma RunExtends<X, P>(net: Net<X, P>, p: P, epochs: nat, train: seq<Sample<X>>, test: seq<Sample<X>>, batchSize: int)
    requires Runnable(epochs + 1, train, test, batchSize)
    ensures Run(net, p, epochs + 1, train, test, batchSize).train[..epochs] == Run(net, p, epochs, train, test, batchSize).train
    ensures Run(net, p, epochs + 1, train, test, batchSize).test[..epochs] == Run(net, p, epochs, train, test, batchSize).test
  {
    var h := Run(net, p, epochs, train, test, batchSize);
    var h' := Run(net, p, epochs + 1, train, test, batchSize);
    assert h'.train == h.train + [h'.train[epochs]];
    assert h'.test == h.test + [h'.test[epochs]];
  }

  // ---------------------------------------------------------------------------
  // The optimizer/model call order inside one training batch
  // ---------------------------------------------------------------------------

  /** A call the loop makes on a model or its optimizer. */
  datatype Event<X> =
    | ZeroGrad(key: string)
    | Forward(key: string, inputs: seq<X>)
    | Backward(key: string)
    | Step(key: string)

  function ZeroTrace<X>(keys: seq<string>): (t: seq<Event<X>>)
    ensures |t| == |keys|
    ensures forall i :: 0 <= i < |keys| ==> t[i] == ZeroGrad(keys[i])
  {
    if keys == [] then [] else ZeroTrace(keys[..|keys| - 1]) + [ZeroGrad(keys[|keys| - 1])]
  }

  function ForwardTrace<X>(keys: seq<string>, inputs: seq<X>): (t: seq<Event<X>>)
    ensures |t| == 2 * |keys|
    ensures forall i :: 0 <= i < |keys| ==> t[2 * i] == Forward(keys[i], inputs) && t[2 * i + 1] == Backward(keys[i])
  {
    if keys == [] then []
    else ForwardTrace(keys[..|keys| - 1], inputs) + [Forward(keys[|keys| - 1], inputs), Backward(keys[|keys| - 1])]
  }

  function StepTrace<X>(keys: seq<string>): (t: seq<Event<X>>)
    ensures |t| == |keys|
    ensures forall i :: 0 <= i < |keys| ==> t[i] == Step(keys[i])
  {
    if keys == [] then [] else StepTrace(keys[..|keys| - 1]) + [Step(keys[|keys| - 1])]
  }

  /** The calls of one training batch: zero every optimizer, run every
      model forward and backward, step every optimizer. */
  function BatchTrace<X>(keys: seq<string>, inputs: seq<X>): seq<Event<X>>
  {
    ZeroTrace(keys) + ForwardTrace(keys, inputs) + StepTrace(keys)
  }

  function TrainTrace<X>(keys: seq<string>, batches: seq<seq<Sample<X>>>): seq<Event<X>>
  {
    if batches == [] then []
    else TrainTrace(keys, batches[..|batches| - 1]) + BatchTrace(keys, Inputs(batches[|batches| - 1]))
  }

  lemma TrainTraceSnoc<X>(keys: seq<string>, batches: seq<seq<Sample<X>>>, b: nat)
    requires b < |batches|
    ensures TrainTrace(keys, batches[..b + 1]) == TrainTrace(keys, batches[..b]) + BatchTrace(keys, Inputs(batches[b]))
  {
    assert batches[..b + 1][..b] == batches[..b];
  }

  predicate Distinct<T(==)>(s: seq<T>)
  {
    forall i, j :: 0 <= i < j < |s| ==> s[i] != s[j]
  }

  /** Within one batch, every optimizer is zeroed before any model runs. */
  lemma ZeroGradFirst<X>(keys: seq<string>, inputs: seq<X>)
    ensures var t := BatchTrace(keys, inputs);
      forall i, j :: 0 <= i < |t| && 0 <= j < |t| && t[i].ZeroGrad? && !t[j].ZeroGrad? ==> i < j
  {
    var t := BatchTrace(keys, inputs);
    BatchTraceLength(keys, inputs);
    forall i, j | 0 <= i < |t| && 0 <= j < |t| && t[i].ZeroGrad? && !t[j].ZeroGrad?
      ensures i < j
    {
      BatchTraceAt(keys, inputs, i);
      BatchTraceAt(keys, inputs, j);
    }
  }

  /** Within one batch, every optimizer steps only after every model ran. */
  lemma StepLast<X>(keys: seq<string>, inputs: seq<X>)
    ensures var t := BatchTrace(keys, inputs);
      forall i, j :: 0 <= i < |t| && 0 <= j < |t| && t[i].Step? && !t[j].Step? ==> j < i
  {
    var t := BatchTrace(keys, inputs);
    BatchTraceLength(keys, inputs);
    forall i, j | 0 <= i < |t| && 0 <= j < |t| && t[i].Step? && !t[j].Step?
      ensures j < i
    {
      BatchTraceAt(keys, inputs, i);
      BatchTraceAt(keys, inputs, j);
    }
  }

  /** Within one batch, every model runs on the same inputs. */
  lemma SameInputs<X>(keys: seq<string>, inputs: seq<X>)
    ensures var t := BatchTrace(keys, inputs);
      forall i :: 0 <= i < |t| && t[i].Forward? ==> t[i].inputs == inputs
  {
    var t := BatchTrace(keys, inputs);
    BatchTraceLength(keys, inputs);
    forall i | 0 <= i < |t| && t[i].Forward?
      ensures t[i].inputs == inputs
    {
      BatchTraceAt(keys, inputs, i);
    }
  }

  /** Within one batch, each model's optimizer is zeroed once, the model runs
      once and its optimizer steps once. */
  lemma OncePerModel<X>(keys: seq<string>, inputs: seq<X>, a: int)
    requires Distinct(keys) && 0 <= a < |keys|
    ensures var t := BatchTrace(keys, inputs);
      OccursOnce(t, ZeroGrad(keys[a])) && OccursOnce(t, Forward(keys[a], inputs)) && OccursOnce(t, Step(keys[a]))
  {
    var t, n, k := BatchTrace(keys, inputs), |keys|, keys[a];
    BatchTraceLength(keys, inputs);
    BatchTraceAt(keys, inputs, a);
    BatchTraceAt(keys, inputs, n + 2 * a);
    BatchTraceAt(keys, inputs, 3 * n + a);
    forall i | 0 <= i < |t| && t[i] == ZeroGrad(k)
      ensures i == a
    {
      BatchTraceAt(keys, inputs, i);
    }
    forall i | 0 <= i < |t| && t[i] == Forward(k, inputs)
      ensures i == n + 2 * a
    {
      BatchTraceAt(keys, inputs, i);
    }
    forall i | 0 <= i < |t| && t[i] == Step(k)
      ensures i == 3 * n + a
    {
      BatchTraceAt(keys, inputs, i);
    }
  }

  lemma BatchTraceLength<X>(keys: seq<string>, inputs: seq<X>)
    ensures |BatchTrace(keys, inputs)| == 4 * |keys|
  {
  }

  /** The event at each position of a batch's trace. */
  lemma BatchTraceAt<X>(keys: seq<string>, inputs: seq<X>, i: int)
    requires 0 <= i < 4 * |keys|
    ensures var t, n := BatchTrace(keys, inputs), |keys|;
      && |t| == 4 * n
      && (i < n ==> t[i] == ZeroGrad(keys[i]))
      && (n <= i < 3 * n && (i - n) % 2 == 0 ==> t[i] == Forward(keys[(i - n) / 2], inputs))
      && (n <= i < 3 * n && (i - n) % 2 == 1 ==> t[i] == Backward(keys[(i - n) / 2]))
      && (3 * n <= i ==> t[i] == Step(keys[i - 3 * n]))
  {
    var n := |keys|;
    var z, f, s := ZeroTrace<X>(keys), ForwardTrace(keys, inputs), StepTrace<X>(keys);
    var t := BatchTrace(keys, inputs);
    if i < n {
      assert t[i] == z[i];
    } else if i < 3 * n {
      var m := (i - n) / 2;
      assert t[i] == f[i - n];
      assert f[2 * m] == Forward(keys[m], inputs) && f[2 * m + 1] == Backward(keys[m]);
    } else {
      assert t[i] == s[i - 3 * n];
    }
  }

  predicate OccursOnce<T(==)>(t: seq<T>, e: T)
  {
    (exists i :: 0 <= i < |t| && t[i] == e) && (forall i, j :: 0 <= i < |t| && 0 <= j < |t| && t[i] == e && t[j] == e ==> i == j)
  }

  // ---------------------------------------------------------------------------
  // Curve names
  // ---------------------------------------------------------------------------

  /** The keys of `Accs`: one `_train` and one `_test` curve per model. */
  function CurveNames(keys: seq<string>): set<string>
  {
    if keys == [] then {}
    else
      var k := keys[|keys| - 1];
      CurveNames(keys[..|keys| - 1]) + {k + "_train", k + "_test"}
  }

  /** Every model has both curve names. */
  lemma {:induction false} CurveNamesCover(keys: seq<string>)
    ensures forall i :: 0 <= i < |keys| ==> keys[i] + "_train" in CurveNames(keys) && keys[i] + "_test" in CurveNames(keys)
  {
    if keys != [] {
      var front := keys[..|keys| - 1];
      CurveNamesCover(front);
      forall i | 0 <= i < |keys| - 1
        ensures keys[i] + "_train" in CurveNames(keys) && keys[i] + "_test" in CurveNames(keys)
      {
        assert keys[i] == front[i];
      }
    }
  }

  /** Every curve name belongs to a model. */
  lemma {:induction false} CurveNamesOnly(keys: seq<string>, name: string)
    requires name in CurveNames(keys)
    ensures exists i :: 0 <= i < |keys| && (name == keys[i] + "_train" || name == keys[i] + "_test")
  {
    var front := keys[..|keys| - 1];
    if name in CurveNames(front) {
      CurveNamesOnly(front, name);
      var i :| 0 <= i < |front| && (name == front[i] + "_train" || name == front[i] + "_test");
      assert keys[i] == front[i];
    } else {
      assert name == keys[|keys| - 1] + "_train" || name == keys[|keys| - 1] + "_test";
    }
  }

  /** Curve names never collide: different models give different names, and
      a `_train` name is never a `_test` name. */
  lemma CurveNamesDistinct(a: string, b: string)
    ensures a + "_train" != b + "_test"
    ensures a + "_train" == b + "_train" ==> a == b
    ensures a + "_test" == b + "_test" ==> a == b
  {
    var at, bt := a + "_train", b + "_test";
    if |at| == |bt| {
      assert at[|at| - 1] == 'n' && bt[|bt| - 1] == 't';
    }
    if a + "_train" == b + "_train" {
      assert a == (a + "_train")[..|a|];
    }
    if a + "_test" == b + "_test" {
      assert a == (a + "_test")[..|a|];
    }
  }

  /** `{**{key+"_train": [] ...}, **{key+"_test": [] ...}}`. */
  function EmptyCurves(keys: seq<string>): (m: map<string, seq<real>>)
    ensures m.Keys == CurveNames(keys)
    ensures forall name :: name in m ==> m[name] == []
  {
    if keys == [] then map[]
    else
      var k := keys[|keys| - 1];
      EmptyCurves(keys[..|keys| - 1])[k + "_train" := []][k + "_test" := []]
  }

  /** `Accs` has a `_train` and a `_test` curve for every model. */
  predicate HasCurves(keys: seq<string>, accs: map<string, seq<real>>)
  {
    forall i :: 0 <= i < |keys| ==> keys[i] + "_train" in accs && keys[i] + "_test" in accs
  }

  lemma SuffixesApart(keys: seq<string>, suffix: string, other: string)
    requires Distinct(keys)
    requires (suffix, other) == ("_train", "_test") || (suffix, other) == ("_test", "_train")
    ensures forall i, j :: 0 <= i < |keys| && 0 <= j < |keys| && i != j ==> keys[i] + suffix != keys[j] + suffix
    ensures forall i, j :: 0 <= i < |keys| && 0 <= j < |keys| ==> keys[i] + other != keys[j] + suffix
  {
    forall i, j | 0 <= i < |keys| && 0 <= j < |keys|
      ensures i != j ==> keys[i] + suffix != keys[j] + suffix
      ensures keys[i] + other != keys[j] + suffix
    {
      CurveNamesDistinct(keys[i], keys[j]);
      CurveNamesDistinct(keys[j], keys[i]);
    }
  }

  /** n copies of v: `{key: v for key in models}` in the models' order. */
  function Fill<V>(n: nat, v: V): (s: seq<V>)
    ensures |s| == n
    ensures forall i :: 0 <= i < n ==> s[i] == v
  {
    if n == 0 then [] else Fill(n - 1, v) + [v]
  }

  // ---------------------------------------------------------------------------
  // The loop itself
  //
  // `runModels` iterates its dictionaries (the models, trained in place;
  // their modes; their optimizers; the hit counts) in the models' order, so
  // each is a sequence aligned with `keys`: entry i belongs to the model
  // named keys[i].  Only `Accs` is looked up by name.  Each inner loop of
  // the source is one method below; the ghost out-parameter `t` lists the
  // calls made on models and optimizers, in order.
  // ---------------------------------------------------------------------------

  /** `model.train()` / `model.eval()` for every model. */
  method SetModes(training: seq<bool>, b: bool) returns (modes: seq<bool>)
    ensures |modes| == |training|
    ensures forall i :: 0 <= i < |modes| ==> modes[i] == b
  {
    modes := training;
    var i := 0;
    while i < |modes|
      invariant 0 <= i <= |modes| && |modes| == |training|
      invariant forall j :: 0 <= j < i ==> modes[j] == b
    {
      modes := modes[i := b];
      i := i + 1;
    }
  }

  /** `optimizer.zero_grad()` for every optimizer, in order. */
  method ZeroGrads<X>(keys: seq<string>, grads: seq<seq<seq<Sample<X>>>>)
    returns (g: seq<seq<seq<Sample<X>>>>, ghost t: seq<Event<X>>)
    requires |grads| == |keys|
    ensures |g| == |grads|
    ensures forall i :: 0 <= i < |g| ==> g[i] == []
    ensures t == ZeroTrace(keys)
  {
    g, t := grads, [];
    var i := 0;
    while i < |keys|
      invariant 0 <= i <= |keys| && |g| == |grads|
      invariant forall j :: 0 <= j < i ==> g[j] == []
      invariant t == ZeroTrace(keys[..i])
    {
      g := g[i := []];
      t := t + [ZeroGrad(keys[i])];
      assert keys[..i + 1][..i] == keys[..i];
      i := i + 1;
    }
    assert keys[..|keys|] == keys;
  }

  /** The forward/backward loop of one batch: each model in turn runs on the
      batch in its current mode (batch norm follows the inputs), its loss is
      back-propagated into its own gradients only, and its hits are added to
      its own count. */
  method ForwardEach<X, P>(net: Net<X, P>, keys: seq<string>, models: seq<P>, training: seq<bool>,
                           grads: seq<seq<seq<Sample<X>>>>, correct: seq<nat>, batch: seq<Sample<X>>)
    returns (m: seq<P>, g: seq<seq<seq<Sample<X>>>>, c: seq<nat>, ghost t: seq<Event<X>>)
    requires |models| == |keys| && |training| == |keys| && |grads| == |keys| && |correct| == |keys|
    ensures |m| == |keys| && |g| == |keys| && |c| == |keys|
    ensures forall i :: 0 <= i < |keys| ==>
      && m[i] == net.track(models[i], Inputs(batch))
      && g[i] == grads[i] + [batch]
      && c[i] == correct[i] + CountCorrect(net, models[i], training[i], batch)
    ensures t == ForwardTrace(keys, Inputs(batch))
  {
    var inputs := Inputs(batch);
    m, g, c, t := models, grads, correct, [];
    var i := 0;
    while i < |keys|
      invariant 0 <= i <= |keys| && |m| == |keys| && |g| == |keys| && |c| == |keys|
      invariant forall j :: 0 <= j < i ==> m[j] == net.track(models[j], inputs)
      invariant forall j :: 0 <= j < i ==> g[j] == grads[j] + [batch]
      invariant forall j :: 0 <= j < i ==> c[j] == correct[j] + CountCorrect(net, models[j], training[j], batch)
      invariant forall j :: i <= j < |keys| ==> m[j] == models[j] && g[j] == grads[j] && c[j] == correct[j]
      invariant t == ForwardTrace(keys[..i], inputs)
    {
      var hits := CountCorrect(net, m[i], training[i], batch);
      m := m[i := net.track(m[i], inputs)];
      g := g[i := g[i] + [batch]];
      c := c[i := c[i] + hits];
      // forward, then backward
      t := t + [Forward(keys[i], inputs), Backward(keys[i])];
      assert keys[..i + 1][..i] == keys[..i];
      i := i + 1;
    }
    assert keys[..|keys|] == keys;
  }

  /** `optimizer.step()` for every optimizer: each updates its own model
      from that model's gradients. */
  method StepEach<X, P>(net: Net<X, P>, keys: seq<string>, models: seq<P>, grads: seq<seq<seq<Sample<X>>>>)
    returns (m: seq<P>, ghost t: seq<Event<X>>)
    requires |models| == |keys| && |grads| == |keys|
    ensures |m| == |keys|
    ensures forall i :: 0 <= i < |keys| ==> m[i] == net.step(models[i], grads[i])
    ensures t == StepTrace(keys)
  {
    m, t := models, [];
    var i := 0;
    while i < |keys|
      invariant 0 <= i <= |keys| && |m| == |keys|
      invariant forall j :: 0 <= j < i ==> m[j] == net.step(models[j], grads[j])
      invariant forall j :: i <= j < |keys| ==> m[j] == models[j]
      invariant t == StepTrace(keys[..i])
    {
      m := m[i := net.step(m[i], grads[i])];
      t := t + [Step(keys[i])];
      assert keys[..i + 1][..i] == keys[..i];
      i := i + 1;
    }
    assert keys[..|keys|] == keys;
  }

  /** One batch of the training loader: zero every optimizer, run every
      model forward and backward, step every optimizer.  Every model ends
      where `TrainOn` puts it, and its step saw this batch's gradients
      only. */
  method TrainBatch<X, P>(net: Net<X, P>, keys: seq<string>, models: seq<P>, training: seq<bool>,
                          grads: seq<seq<seq<Sample<X>>>>, correct: seq<nat>, batch: seq<Sample<X>>)
    returns (m: seq<P>, g: seq<seq<seq<Sample<X>>>>, c: seq<nat>, ghost t: seq<Event<X>>)
    requires |models| == |keys| && |training| == |keys| && |grads| == |keys| && |correct| == |keys|
    requires forall i :: 0 <= i < |keys| ==> training[i]
    ensures |m| == |keys| && |g| == |keys| && |c| == |keys|
    ensures forall i :: 0 <= i < |keys| ==>
      && m[i] == TrainOn(net, models[i], batch).state
      && c[i] == correct[i] + TrainOn(net, models[i], batch).correct
      && g[i] == [batch]
    ensures t == BatchTrace(keys, Inputs(batch))
  {
    var g0;
    ghost var t0, t1, t2;
    g0, t0 := ZeroGrads(keys, grads);
    var m1;
    m1, g, c, t1 := ForwardEach(net, keys, models, training, g0, correct, batch);
    forall i | 0 <= i < |keys|
      ensures g[i] == [batch]
    {
      assert g[i] == [] + [batch];
    }
    m, t2 := StepEach(net, keys, m1, g);
    t := t0 + t1 + t2;
  }

  /** The training loop of one epoch: every batch of the training loader,
      in order, with the hit counts starting from zero. */
  method TrainLoader<X, P>(net: Net<X, P>, keys: seq<string>, models: seq<P>, training: seq<bool>,
                           grads: seq<seq<seq<Sample<X>>>>, batches: seq<seq<Sample<X>>>)
    returns (m: seq<P>, g: seq<seq<seq<Sample<X>>>>, c: seq<nat>, ghost t: seq<Event<X>>)
    requires |models| == |keys| && |training| == |keys| && |grads| == |keys|
    requires forall i :: 0 <= i < |keys| ==> training[i]
    ensures |m| == |keys| && |g| == |keys| && |c| == |keys|
    ensures forall i :: 0 <= i < |keys| ==>
      && m[i] == TrainPass(net, models[i], batches).state
      && c[i] == TrainPass(net, models[i], batches).correct
    ensures batches == [] ==> g == grads
    ensures batches != [] ==> forall i :: 0 <= i < |keys| ==> g[i] == [batches[|batches| - 1]]
    ensures t == TrainTrace(keys, batches)
  {
    m, g, c, t := models, grads, Fill(|keys|, 0), [];
    var b := 0;
    while b < |batches|
      invariant 0 <= b <= |batches| && |m| == |keys| && |g| == |keys| && |c| == |keys|
      invariant forall i :: 0 <= i < |keys| ==>
        && m[i] == TrainPass(net, models[i], batches[..b]).state
        && c[i] == TrainPass(net, models[i], batches[..b]).correct
      invariant b == 0 ==> g == grads
      invariant b > 0 ==> forall i :: 0 <= i < |keys| ==> g[i] == [batches[b - 1]]
      invariant t == TrainTrace(keys, batches[..b])
    {
      ghost var tb;
      m, g, c, tb := TrainBatch(net, keys, m, training, g, c, batches[b]);
      forall i | 0 <= i < |keys|
        ensures m[i] == TrainPass(net, models[i], batches[..b + 1]).state
        ensures c[i] == TrainPass(net, models[i], batches[..b + 1]).correct
      {
        TrainPassSnoc(net, models[i], batches, b);
      }
      TrainTraceSnoc(keys, batches, b);
      t := t + tb;
      b := b + 1;
    }
    assert batches[..|batches|] == batches;
  }

  /** The test loop of one epoch: every model, in its current mode, counts
      its hits on every batch of the test loader; no model changes. */
  method Evaluate<X, P>(net: Net<X, P>, models: seq<P>, training: seq<bool>, batches: seq<seq<Sample<X>>>)
    returns (correct: seq<nat>)
    requires |training| == |models|
    requires forall i :: 0 <= i < |models| ==> !training[i]
    ensures |correct| == |models|
    ensures forall i :: 0 <= i < |models| ==> correct[i] == TestCount(net, models[i], batches)
  {
    correct := Fill(|models|, 0);
    var b := 0;
    while b < |batches|
      invariant 0 <= b <= |batches| && |correct| == |models|
      invariant forall i :: 0 <= i < |models| ==> correct[i] == TestCount(net, models[i], batches[..b])
    {
      var batch := batches[b];
      assert batches[..b + 1][..b] == batches[..b];
      var i := 0;
      while i < |models|
        invariant 0 <= i <= |models| && |correct| == |models|
        invariant forall j :: 0 <= j < i ==> correct[j] == TestCount(net, models[j], batches[..b + 1])
        invariant forall j :: i <= j < |models| ==> correct[j] == TestCount(net, models[j], batches[..b])
      {
        correct := correct[i := correct[i] + CountCorrect(net, models[i], training[i], batch)];
        i := i + 1;
      }
      b := b + 1;
    }
    assert batches[..|batches|] == batches;
  }

  /** Appends `correct * 100 / total` to the curve `key + suffix` of every
      model; every other curve stays as it is. */
  method Record(keys: seq<string>, accs: map<string, seq<real>>, suffix: string, other: string,
                correct: seq<nat>, total: nat)
    returns (curves: map<string, seq<real>>)
    requires Distinct(keys) && HasCurves(keys, accs) && |correct| == |keys| && total > 0
    requires (suffix, other) == ("_train", "_test") || (suffix, other) == ("_test", "_train")
    ensures curves.Keys == accs.Keys
    ensures forall i :: 0 <= i < |keys| ==> curves[keys[i] + suffix] == accs[keys[i] + suffix] + [Percent(correct[i], total)]
    ensures forall i :: 0 <= i < |keys| ==> curves[keys[i] + other] == accs[keys[i] + other]
    ensures forall n :: n in accs && (forall i :: 0 <= i < |keys| ==> n != keys[i] + suffix) ==> curves[n] == accs[n]
  {
    curves := accs;
    SuffixesApart(keys, suffix, other);
    var i := 0;
    while i < |keys|
      invariant 0 <= i <= |keys|
      invariant curves.Keys == accs.Keys
      invariant forall j :: 0 <= j < i ==> curves[keys[j] + suffix] == accs[keys[j] + suffix] + [Percent(correct[j], total)]
      invariant forall j :: i <= j < |keys| ==> curves[keys[j] + suffix] == accs[keys[j] + suffix]
      invariant forall j :: 0 <= j < |keys| ==> curves[keys[j] + other] == accs[keys[j] + other]
      invariant forall n :: n in accs && (forall j :: 0 <= j < |keys| ==> n != keys[j] + suffix) ==> curves[n] == accs[n]
    {
      var name := keys[i] + suffix;
      curves := curves[name := curves[name] + [Percent(correct[i], total)]];
      i := i + 1;
    }
  }

  /** The two recording loops at the end of an epoch: every model's train
      percentage, then its test percentage; curves not named after a model
      stay as they are. */
  method RecordEpoch(keys: seq<string>, accs: map<string, seq<real>>, trainCorrect: seq<nat>, trainTotal: nat,
                     testCorrect: seq<nat>, testTotal: nat)
    returns (a: map<string, seq<real>>)
    requires Distinct(keys) && HasCurves(keys, accs) && trainTotal > 0 && testTotal > 0
    requires |trainCorrect| == |keys| && |testCorrect| == |keys|
    ensures a.Keys == accs.Keys
    ensures forall i :: 0 <= i < |keys| ==>
      && a[keys[i] + "_train"] == accs[keys[i] + "_train"] + [Percent(trainCorrect[i], trainTotal)]
      && a[keys[i] + "_test"] == accs[keys[i] + "_test"] + [Percent(testCorrect[i], testTotal)]
    ensures forall n :: n in accs && (forall i :: 0 <= i < |keys| ==> n != keys[i] + "_train" && n != keys[i] + "_test") ==> a[n] == accs[n]
  {
    a := Record(keys, accs, "_train", "_test", trainCorrect, trainTotal);
    a := Record(keys, a, "_test", "_train", testCorrect, testTotal);
  }

  /** One epoch: train mode and the training loop, eval mode and the test
      loop, then one entry appended to every curve.  A model's new state and
      new entries come from its own old state only. */
  method Epoch<X, P>(net: Net<X, P>, keys: seq<string>, models: seq<P>, training: seq<bool>,
                     grads: seq<seq<seq<Sample<X>>>>, accs: map<string, seq<real>>,
                     train: seq<Sample<X>>, test: seq<Sample<X>>, batchSize: nat)
    returns (m: seq<P>, modes: seq<bool>, g: seq<seq<seq<Sample<X>>>>, a: map<string, seq<real>>)
    requires Distinct(keys) && batchSize > 0 && |train| > 0 && |test| > 0
    requires |models| == |keys| && |training| == |keys| && |grads| == |keys| && HasCurves(keys, accs)
    ensures |m| == |keys| && |modes| == |keys| && |g| == |keys| && a.Keys == accs.Keys
    ensures forall i :: 0 <= i < |keys| ==> !modes[i]
    ensures forall i :: 0 <= i < |keys| ==>
      var t := TrainPass(net, models[i], Batches(train, batchSize));
      && m[i] == t.state
      && a[keys[i] + "_train"] == accs[keys[i] + "_train"] + [Percent(t.correct, |train|)]
      && a[keys[i] + "_test"] == accs[keys[i] + "_test"] + [Percent(TestCount(net, t.state, Batches(test, |test|)), |test|)]
    ensures forall n :: n in accs && (forall i :: 0 <= i < |keys| ==> n != keys[i] + "_train" && n != keys[i] + "_test") ==> a[n] == accs[n]
    ensures var bs := Batches(train, batchSize);
      bs != [] && forall i :: 0 <= i < |keys| ==> g[i] == [bs[|bs| - 1]]
  {
    modes := SetModes(training, true);
    var trainCorrect;
    ghost var calls;
    m, g, trainCorrect, calls := TrainLoader(net, keys, models, modes, grads, Batches(train, batchSize));
    modes := SetModes(modes, false);
    var testCorrect := Evaluate(net, m, modes, Batches(test, |test|));
    a := RecordEpoch(keys, accs, trainCorrect, |train|, testCorrect, |test|);
  }

  /** `runModels`: trains and tests every model for `epochSize` epochs and
      returns the accuracy curves, together with the models' final states
      (the source trains the caller's model objects in place).  Every model
      gets a new optimizer first, so every curve is the one `Run` gives the
      model alone, started from `reset` of its state: a second call never
      carries on with the optimizer of the first. */
  method RunModels<X, P>(net: Net<X, P>, keys: seq<string>, models: seq<P>, epochSize: int, batchSize: int,
                         train: seq<Sample<X>>, test: seq<Sample<X>>)
    returns (r: Result<map<string, seq<real>>, RunError>, trained: seq<P>)
    requires Distinct(keys) && |models| == |keys|
    ensures r.Err? <==> batchSize <= 0 || |test| == 0 || (epochSize > 0 && |train| == 0 && keys != [])
    ensures r.Err? ==> r.error == (if batchSize <= 0 then BatchSizeError else if |test| == 0 then EmptyTestSet else ZeroDivision)
    ensures r.Ok? ==> r.value.Keys == CurveNames(keys) && HasCurves(keys, r.value) && |trained| == |keys|
    ensures r.Ok? ==> forall i :: 0 <= i < |keys| ==>
      var h := Run(net, net.reset(models[i]), if epochSize > 0 then epochSize else 0, train, test, batchSize);
      && r.value[keys[i] + "_train"] == h.train
      && r.value[keys[i] + "_test"] == h.test
      && trained[i] == h.state
  {
    trained := models;
    if batchSize <= 0 {
      return Err(BatchSizeError), trained;
    }
    if |test| == 0 {
      return Err(EmptyTestSet), trained;
    }
    if epochSize > 0 && |train| == 0 && keys != [] {
      return Err(ZeroDivision), trained;
    }
    var accs := EmptyCurves(keys);
    CurveNamesCover(keys);
    trained := seq(|keys|, i requires 0 <= i < |keys| => net.reset(models[i]));
    var training := Fill(|keys|, true);
    var grads: seq<seq<seq<Sample<X>>>> := Fill(|keys|, []);
    // With no models and no training data an epoch has nothing to train,
    // test or record (no percentage is ever divided), so its epochs are
    // skipped.
    var epochs := if epochSize > 0 && |train| > 0 then epochSize else 0;
    var epoch := 0;
    while epoch < epochs
      invariant 0 <= epoch <= epochs
      invariant Runnable(epoch, train, test, batchSize)
      invariant |trained| == |keys| && |training| == |keys| && |grads| == |keys|
      invariant accs.Keys == CurveNames(keys) && HasCurves(keys, accs)
      invariant forall i :: 0 <= i < |keys| ==>
        var h := Run(net, net.reset(models[i]), epoch, train, test, batchSize);
        && accs[keys[i] + "_train"] == h.train
        && accs[keys[i] + "_test"] == h.test
        && trained[i] == h.state
    {
      ghost var before := trained;
      trained, training, grads, accs := Epoch(net, keys, trained, training, grads, accs, train, test, batchSize);
      forall i | 0 <= i < |keys|
        ensures trained[i] == Run(net, net.reset(models[i]), epoch + 1, train, test, batchSize).state
      {
        assert before[i] == Run(net, net.reset(models[i]), epoch, train, test, batchSize).state;
      }
      epoch := epoch + 1;
    }
    return Ok(accs), trained;
  }
}
