# Koch-Snowflake fractal session, modelled in Dafny

This project models the part of the Koch-Snowflake application that has
logic of its own. That part is the fractal session, `KochFractal`, together
with the shape that draws the session's vertices.

- `KochFractal.calculateKoch` defaults a missing input pair to (0 iterations, divisor 3).
- `calculateKochFractalVertices` rejects iteration counts outside 0–15 and angle divisors outside 1–50.
- For an accepted pair it calls the vertex generator `KochFractalCalculator` with the values unchanged.
- `updateData` appends the generator's output to the vertex buffer. Only `eraseData` empties the buffer.
- `setButtonEnable` sets the flag that enables the controls.
- `KochView.KochFractalShape.path(in:)` turns the buffer into a path: a move to the first vertex, then a line to each later vertex.

The vertex generator is not part of this model. It is a parameter `generate`
of type `Kernel<P> = (int, int) -> seq<P>`. It may be any total function from
(iterations, divisor) to points. The point type `P` is opaque, because the
modelled code only copies points and never computes with them. The seed
geometry is the fixed start corner and side length 550 that the session
passes to the generator. It is folded into `generate`.

Files:
- `koch_fractal.dfy` (module `KochFractal`): the session state and its transitions.
- `koch_view.dfy` (module `KochView`): the point list to path conversion.
- `session_history.dfy` (module `SessionHistory`): histories of requests applied one after another. It also has the application's calculate-button sequence.

Each main-actor call is modelled as one immediate, sequential state
transition.

Two details of the code matter for the model:
- The range check is done in `calculateKochFractalVertices` before the generator is called. A failed check appends an empty list (Shared/KochFractal.swift:99-108).
- `eraseData` starts a new `Task` that hops to the main actor, so the removal runs later. The model applies it at once, in the order the requests arrive (see "## Left out").

## Model

| member | source | states |
|---|---|---|
| KochFractal.Initial | Shared/KochFractal.swift:14-33 | A new session has an empty vertex buffer and its controls enabled |
| KochFractal.NormalizeInputs | Shared/KochFractal.swift:41-55 | If both inputs are present, they are used unchanged. If either is missing, both become (0, 3), and that default pair passes the range check |
| KochFractal.KernelRequest | Shared/KochFractal.swift:99-110 | The generator is called exactly when 0 <= iterations <= 15 and 1 <= divisor <= 50, and then with exactly those two values |
| KochFractal.CalculateVertices | Shared/KochFractal.swift:71-116 | For an in-range pair the new buffer is the old buffer followed by the generator's output. For an out-of-range pair the session is unchanged. The enable flag is never touched |
| KochFractal.CalculateKoch | Shared/KochFractal.swift:41-62 | A present in-range pair appends the generator's output for that pair. A present out-of-range pair changes nothing. A missing input appends exactly the output for (0, 3) |
| KochFractal.CalculateKochKernelCall | Shared/KochFractal.swift:46-110 | After defaulting, the generator receives the caller's values, or (0, 3) when an input is missing. A present out-of-range pair means it is not called at all |
| KochFractal.UpdateData | Shared/KochFractal.swift:125-127 | The old buffer stays a prefix, the appended points follow it in order, the length is the sum, and the flag is unchanged |
| KochFractal.EraseData | Shared/KochFractal.swift:133-139 | The buffer becomes empty and the flag is unchanged |
| KochFractal.EraseIdempotent | Shared/KochFractal.swift:133-139 | Erasing twice equals erasing once. A calculation right after an erase leaves exactly its own points, with nothing of the old buffer left |
| KochFractal.SetButtonEnable | Shared/KochFractal.swift:153-173 | The flag becomes the requested state and the buffer is unchanged |
| KochView.Path | Shared/KochView.swift:39-61 | An empty list gives an empty path. Otherwise the first command is a move to the first point and command i is a line to point i, so a single point gives only the move. The result is a polyline whose vertices are exactly the input list |
| KochView.PolylineDeterminedByVertices | Shared/KochView.swift:45-58 | Two polylines through the same vertex list are the same path, so the result of `Path` is the only polyline through its input |
| SessionHistory.RunWithoutErase | Shared/KochFractal.swift:125-127 | Over any history without an erase, the buffer is the old buffer followed by each calculation's defaulted, range-checked output, in request order |
| SessionHistory.BufferAppendOnly | Shared/KochFractal.swift:125-127 | Without an erase, the buffer never shrinks and the old buffer stays its prefix |
| SessionHistory.AfterLastErase | Shared/KochFractal.swift:133-139 | After the last erase of a history, the buffer holds exactly the points produced since that erase |
| SessionHistory.RunEnableFlag | Shared/KochFractal.swift:153-173 | After a history, the enable flag equals the state of the last enable request, or the initial flag if there was none |
| SessionHistory.Batch | Shared/ContentView.swift:114-168 | The calculate button disables the controls, runs one calculation and enables them again. Afterwards the controls are enabled and the buffer has grown by exactly that one calculation's output |

## Left out

- `KochFractalCalculator`, the vertex generator, is not part of this model. It is not in the modelled files, and it is floating-point geometry. It is an uninterpreted parameter, so nothing is claimed about its point count or its spike angles.
- The seed coordinates (`tan`, `CGFloat` and the 600×600 centring in `calculateKochFractalVertices`) are floating-point constants. They are treated as fixed inputs of the generator.
- Swift `Int` is 64 bits wide. The session only compares iteration counts and divisors and never does arithmetic on them, so unbounded `int` gives the same answer for every representable input.
- `MainActor`, `Task.init` and `MainActor.run` dispatch in `eraseData` and `setButtonEnable` is concurrency plumbing. Each call is modelled as an immediate transition in request order.
- The `withTaskGroup` fan-out in `ContentView.calculateKoch` runs one session, and its other sessions are commented out. It is modelled only as the sequential batch in `SessionHistory.Batch`.
- SwiftUI layout, text fields and the force-unwrapped parse `Int(totalIterationsString)!` are user-interface glue. The parse crashes on bad text, and the model starts from an already parsed count.
- `print` timing logs, `timeString` and `updateTimeString`, and the unused `iterationsFromParent`, `angleFromParent`, `piDivisorForAngle`, `angle`, `x`, `y` and `pi` fields are not modelled, because they do not affect the buffer or the flag. `calculateKochFractalVertices` shadows `x` and `y` with locals, and `pi` is never read.
- Stroke colour, line width, frame and background in `KochView.body`, and the preview data, are presentation only.
