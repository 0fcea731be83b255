/**
 A model of the fractal session of the Koch-Snowflake application: the object
 that validates a request (iteration count, angle divisor), asks the vertex
 generator for the fractal's points and appends them to a vertex buffer that
 the view draws. The buffer only grows, except when it is erased.

 The vertex generator itself is not modelled: it is the parameter `generate`, an
 arbitrary total function from (iterations, divisor) to a point sequence over
 an opaque point type `P`. The seed geometry (start corner and side length)
 is a fixed constant of the session and is folded into `generate`.
 */
module KochFractal {

  /** Swift's `Int?`: a value that may be missing. */
  datatype Option<+T> = None | Some(value: T)

  /** The vertex generator, seen from the session: given the iteration count
      and the angle divisor, the ordered vertices of the fractal. */
  type Kernel<P> = (int, int) -> seq<P>

  /** The observable state of one session: the vertex buffer the view traces
      and the flag that enables the controls. */
  datatype Session<P> = Session(vertices: seq<P>, enableButton: bool)

  /** The arguments the session hands to the vertex generator. */
  datatype KernelCall = KernelCall(iterations: int, divisor: int)

  const MaxIterations: int := 15
  const MaxDivisor: int := 50
  const DefaultIterations: int := 0
  const DefaultDivisor: int := 3

  /** A freshly created session: empty buffer, controls enabled. */
  function Initial<P>(): (s: Session<P>)
    ensures s.vertices == [] && s.enableButton
  {
    Session([], true)
  }

  /** The requests the generator accepts: 0..15 iterations, divisor 1..50. */
  predicate InRange(iterations: int, divisor: int) {
    0 <= iterations <= MaxIterations && 1 <= divisor <= MaxDivisor
  }

  /** Input defaulting of `calculateKoch`: the pair is used as given only when
      both halves are present; otherwise both fall back to (0, 3). */
  function NormalizeInputs(iterations: Option<int>, divisor: Option<int>): (r: (int, int))
    ensures iterations.Some? && divisor.Some? ==> r == (iterations.value, divisor.value)
    ensures iterations.None? || divisor.None? ==> r == (DefaultIterations, DefaultDivisor)
    ensures iterations.None? || divisor.None? ==> InRange(r.0, r.1)
  {
    if iterations.Some? && divisor.Some? then
      (iterations.value, divisor.value)
    else
      (DefaultIterations, DefaultDivisor)
  }

  /** The guard chain of `calculateKochFractalVertices`: four early exits, in
      the order of the source, and otherwise one call of the generator with
      the arguments unchanged. `None` means the generator is not called. */
  function KernelRequest(iterations: int, divisor: int): (r: Option<KernelCall>)
    ensures r.Some? <==> InRange(iterations, divisor)
    ensures r.Some? ==> r.value.iterations == iterations && r.value.divisor == divisor
  {
    if iterations < 0 then None
    else if iterations > MaxIterations then None
    else if divisor <= 0 then None
    else if divisor > MaxDivisor then None
    else Some(KernelCall(iterations, divisor))
  }

  /** What the generator returns for a request, or the empty list when the
      guards reject it. */
  function KernelOutput<P>(generate: Kernel<P>, request: Option<KernelCall>): seq<P> {
    match request
    case None => []
    case Some(c) => generate(c.iterations, c.divisor)
  }

  /** `updateData`: append the new points to the buffer. */
  function UpdateData<P>(s: Session<P>, pathData: seq<P>): (r: Session<P>)
    ensures |r.vertices| == |s.vertices| + |pathData|
    ensures r.vertices[..|s.vertices|] == s.vertices
    ensures r.vertices[|s.vertices|..] == pathData
    ensures r.enableButton == s.enableButton
  {
    s.(vertices := s.vertices + pathData)
  }

  /** `eraseData`: the only operation that shrinks the buffer. */
  function EraseData<P>(s: Session<P>): (r: Session<P>)
    ensures r.vertices == []
    ensures r.enableButton == s.enableButton
  {
    s.(vertices := [])
  }

  /** `setButtonEnable`: set the control flag, leave the buffer alone. */
  function SetButtonEnable<P>(s: Session<P>, state: bool): (r: Session<P>)
    ensures r.enableButton == state
    ensures r.vertices == s.vertices
  {
    s.(enableButton := state)
  }

  /** `calculateKochFractalVertices`: run the guards, call the generator if
      they pass, and append whatever came back (possibly nothing). */
  function CalculateVertices<P>(s: Session<P>, generate: Kernel<P>, iterations: int, divisor: int): (r: Session<P>)
    ensures InRange(iterations, divisor) ==> r.vertices == s.vertices + generate(iterations, divisor)
    ensures !InRange(iterations, divisor) ==> r == s
    ensures r.enableButton == s.enableButton
  {
    UpdateData(s, KernelOutput(generate, KernelRequest(iterations, divisor)))
  }

  /** `calculateKoch`: default the inputs, then calculate. */
  function CalculateKoch<P>(s: Session<P>, generate: Kernel<P>, iterations: Option<int>, divisor: Option<int>): (r: Session<P>)
    ensures iterations.Some? && divisor.Some? && InRange(iterations.value, divisor.value) ==>
      r.vertices == s.vertices + generate(iterations.value, divisor.value)
    ensures iterations.Some? && divisor.Some? && !InRange(iterations.value, divisor.value) ==>
      r == s
    ensures iterations.None? || divisor.None? ==>
      r.vertices == s.vertices + generate(DefaultIterations, DefaultDivisor)
    ensures r.enableButton == s.enableButton
  {
    var (n, d) := NormalizeInputs(iterations, divisor);
    CalculateVertices(s, generate, n, d)
  }

  /** The generator is consulted with exactly the caller's values when both
      are present and in range, with (0, 3) when either is missing, and not at
      all when a present pair is out of range. */
  lemma CalculateKochKernelCall(iterations: Option<int>, divisor: Option<int>)
    ensures iterations.Some? && divisor.Some? ==>
      KernelRequest(NormalizeInputs(iterations, divisor).0, NormalizeInputs(iterations, divisor).1)
        == (if InRange(iterations.value, divisor.value)
            then Some(KernelCall(iterations.value, divisor.value)) else None)
    ensures iterations.None? || divisor.None? ==>
      KernelRequest(NormalizeInputs(iterations, divisor).0, NormalizeInputs(iterations, divisor).1)
        == Some(KernelCall(DefaultIterations, DefaultDivisor))
  {
  }

  /** Erasing twice is erasing once, and a calculation right after an erase
      leaves exactly the new points, with no residue of the old buffer. */
  lemma EraseIdempotent<P>(s: Session<P>, generate: Kernel<P>, iterations: Option<int>, divisor: Option<int>)
    ensures EraseData(EraseData(s)) == EraseData(s)
    ensures iterations.Some? && divisor.Some? && InRange(iterations.value, divisor.value) ==>
      CalculateKoch(EraseData(s), generate, iterations, divisor).vertices == generate(iterations.value, divisor.value)
    ensures iterations.Some? && divisor.Some? && !InRange(iterations.value, divisor.value) ==>
      CalculateKoch(EraseData(s), generate, iterations, divisor).vertices == []
    ensures iterations.None? || divisor.None? ==>
      CalculateKoch(EraseData(s), generate, iterations, divisor).vertices == generate(DefaultIterations, DefaultDivisor)
  {
  }
}
