/**
 Sequences of requests applied to one fractal session, one after another, as
 the application's single main-actor queue applies them. These lemmas state
 the buffer discipline of the session over a whole history: the buffer only
 ever grows by the generator's outputs, and an erase is the only way to lose
 points.
 */
module SessionHistory {
  import opened KochFractal

  /** One request reaching the session. */
  datatype Request =
    | Calculate(iterations: Option<int>, divisor: Option<int>)
    | Erase
    | SetEnable(state: bool)

  /** The effect of one request. */
  function Apply<P>(s: Session<P>, generate: Kernel<P>, req: Request): Session<P> {
    match req
    case Calculate(n, d) => CalculateKoch(s, generate, n, d)
    case Erase => EraseData(s)
    case SetEnable(b) => SetButtonEnable(s, b)
  }

  /** The effect of a history of requests, oldest first. */
  function Run<P>(s: Session<P>, generate: Kernel<P>, reqs: seq<Request>): Session<P>
    decreases |reqs|
  {
    if reqs == [] then s else Run(Apply(s, generate, reqs[0]), generate, reqs[1..])
  }

  /** The points one request contributes: the generator's output for the
      defaulted and range-checked inputs of a calculation, nothing otherwise. */
  function Contribution<P>(generate: Kernel<P>, req: Request): seq<P> {
    match req
    case Calculate(n, d) =>
      var (n', d') := NormalizeInputs(n, d);
      KernelOutput(generate, KernelRequest(n', d'))
    case _ => []
  }

  /** The points a history contributes, in order. */
  function Produced<P>(generate: Kernel<P>, reqs: seq<Request>): seq<P>
    decreases |reqs|
  {
    if reqs == [] then [] else Contribution(generate, reqs[0]) + Produced(generate, reqs[1..])
  }

  /** A single calculation appends exactly its contribution. */
  lemma ApplyCalculate<P>(s: Session<P>, generate: Kernel<P>, req: Request)
    requires req.Calculate?
    ensures Apply(s, generate, req).vertices == s.vertices + Contribution(generate, req)
    ensures Apply(s, generate, req).enableButton == s.enableButton
  {
  }

  /** Running two histories in turn is running their concatenation. */
  lemma {:induction false} RunAppend<P>(s: Session<P>, generate: Kernel<P>, a: seq<Request>, b: seq<Request>)
    ensures Run(s, generate, a + b) == Run(Run(s, generate, a), generate, b)
    decreases |a|
  {
    if a == [] {
      assert a + b == b;
    } else {
      assert (a + b)[1..] == a[1..] + b;
      RunAppend(Apply(s, generate, a[0]), generate, a[1..], b);
    }
  }

  /** Without an erase, the buffer is the old buffer followed by everything
      the history produced: nothing is lost, reordered or invented. */
  lemma {:induction false} RunWithoutErase<P>(s: Session<P>, generate: Kernel<P>, reqs: seq<Request>)
    requires Erase !in reqs
    ensures Run(s, generate, reqs).vertices == s.vertices + Produced(generate, reqs)
    decreases |reqs|
  {
    if reqs != [] {
      var s' := Apply(s, generate, reqs[0]);
      assert s'.vertices == s.vertices + Contribution(generate, reqs[0]) by {
        match reqs[0]
        case Calculate(_, _) => ApplyCalculate(s, generate, reqs[0]);
        case SetEnable(_) =>
      }
      assert Erase !in reqs[1..] by {
        forall i | 0 <= i < |reqs[1..]|
          ensures reqs[1..][i] != Erase
        {
          assert reqs[1..][i] == reqs[i + 1];
        }
      }
      RunWithoutErase(s', generate, reqs[1..]);
    }
  }

  /** The buffer never shrinks unless erased: the old buffer stays a prefix. */
  lemma BufferAppendOnly<P>(s: Session<P>, generate: Kernel<P>, reqs: seq<Request>)
    requires Erase !in reqs
    ensures |s.vertices| <= |Run(s, generate, reqs).vertices|
    ensures Run(s, generate, reqs).vertices[..|s.vertices|] == s.vertices
  {
    RunWithoutErase(s, generate, reqs);
  }

  /** After the last erase of a history, the buffer holds exactly the points
      produced since, whatever it held before. */
  lemma AfterLastErase<P>(s: Session<P>, generate: Kernel<P>, before: seq<Request>, after: seq<Request>)
    requires Erase !in after
    ensures Run(s, generate, before + [Erase] + after).vertices == Produced(generate, after)
  {
    RunAppend(s, generate, before + [Erase], after);
    RunAppend(s, generate, before, [Erase]);
    RunWithoutErase(Run(s, generate, before + [Erase]), generate, after);
  }

  /** The enable flag after a history is the state of its last enable
      request, or unchanged when there is none. */
  function LastEnable(initial: bool, reqs: seq<Request>): bool
    decreases |reqs|
  {
    if reqs == [] then initial
    else if reqs[|reqs| - 1].SetEnable? then reqs[|reqs| - 1].state
    else LastEnable(initial, reqs[..|reqs| - 1])
  }

  lemma {:induction false} RunEnableFlag<P>(s: Session<P>, generate: Kernel<P>, reqs: seq<Request>)
    ensures Run(s, generate, reqs).enableButton == LastEnable(s.enableButton, reqs)
    decreases |reqs|
  {
    if reqs != [] {
      var init := reqs[..|reqs| - 1];
      var last := reqs[|reqs| - 1];
      assert reqs == init + [last];
      RunAppend(s, generate, init, [last]);
      RunEnableFlag(s, generate, init);
      assert Run(Run(s, generate, init), generate, [last]) == Apply(Run(s, generate, init), generate, last);
    }
  }

  /** The application's calculate button: disable the controls, run one
      calculation with the parsed iteration count and the angle field, then
      enable the controls again. The controls end enabled and the buffer
      grows by exactly the one calculation's output. */
  lemma Batch<P>(s: Session<P>, generate: Kernel<P>, iterations: int, angle: Option<int>)
    ensures Run(s, generate, [SetEnable(false), Calculate(Some(iterations), angle), SetEnable(true)]).enableButton
    ensures Run(s, generate, [SetEnable(false), Calculate(Some(iterations), angle), SetEnable(true)]).vertices
      == s.vertices + Contribution(generate, Calculate(Some(iterations), angle))
  {
    var reqs := [SetEnable(false), Calculate(Some(iterations), angle), SetEnable(true)];
    RunWithoutErase(s, generate, reqs);
    RunEnableFlag(s, generate, reqs);
    assert reqs[1..][1..][1..] == [];
    assert Produced(generate, reqs[1..][1..]) == [];
    assert Produced(generate, reqs[1..]) == Contribution(generate, reqs[1]);
    assert Produced(generate, reqs) == Contribution(generate, reqs[1]);
  }
}
