# FluidSim2D in Dafny

A model of the core of FluidSim2D, a real-time 2D fluid simulation that runs on the GPU. The
program keeps the velocity and pressure fields in double-buffered framebuffers and advances the
flow once per frame with a fixed sequence of full-screen shader passes:

- boundaries and advection;
- an optional mouse or droplet impulse;
- vorticity confinement;
- diffusion, which is a Jacobi solve;
- projection, which is a divergence pass, a pressure Jacobi solve, a gradient pass and a subtraction.

After these passes it renders the velocity front and paces the loop with a frame limiter.

The model covers the CPU side of that machinery:

- **Framebuffers** (`framebuffers.dfy`): `CStdFramebuffer` and `CStdSwappableFramebuffer`. A
  framebuffer stands for its identity. A swap exchanges the front and back references and never
  copies contents.
- **Trace** (`trace.dfy`): the log of what one frame asks the GPU to do. Each draw records its
  program, the framebuffer it renders into, the framebuffers its samplers read and its shape. Each
  front/back swap is recorded as well. Pure functions give the log of every region of
  `MainProgram::Run`. Lemmas prove two things about these logs: no draw reads its own render
  target, and each double buffer is swapped a known number of times.
- **Pipeline** (`pipeline.dfy`): `MainProgram` as a class. The OpenGL state the loop depends on is
  a value of type `Gl`: the bound draw framebuffer, the texture units, the unit each sampler
  uniform names, and the event log. Every region of the render loop is a method, and its
  postcondition ties the new log to the function in `Trace`. `Run` loops over one input per frame.
  It proves that pressure keeps its front, that pressure is swapped exactly `NumJacobiRounds` times
  per frame, that velocity is swapped 36 times per frame plus once per frame whose impulse is active, and
  that feedback-freedom is kept.
- **FrameLimiter** (`fps_limiter.dfy`): `FPSLimiter` as a class. It is proved against the
  single-step function `Step`. Lemmas cover the counter cycle, the one-millisecond adjustment and
  the dead band.
- **Impulses** (`impulses.dfy`): the force clamp, `RandomPosition` and the droplet generator of
  `DoDroplets`.
- **Geometry** (`geometry.dfy`): the border loop of `InitBorder`.
- **Shaders** (`shaders.dfy`): `CStdShader`/`CStdGLShader`. This covers the macro table, the
  preamble that `PrepareSource` splices in after the `#version` line, and `Compile`'s error cases.
  The "#version" rule is section 3.3 of the OpenGL Shading Language specification.
- **ShaderPrograms** (`shader_programs.dfy`): `CStdShaderProgram`/`CStdGLShaderProgram`. This
  covers the shader list, the current-program pointer, `Clear`, and the location caches of
  `SetAttribute`.

Three details of the code as written, which the model follows:

- The divergence pass writes into velocity's back buffer, not into a separate scratch buffer
  (FluidSim2D.cpp:351-355).
- The gradient pass writes into pressure's back buffer without a swap (FluidSim2D.cpp:360-366).
- `lastTime` is declared inside the loop body (FluidSim2D.cpp:256-263). The time step is therefore the fixed first step on
  every iteration, and `Pipeline.MainProgram.Frame` states this.

## Model

| member | source | states |
|---|---|---|
| Geometry.InitBorder | FluidSim2D/FluidSim2D/FluidSim2D.cpp:469-480 | the four border lines form a closed loop top→right→bottom→left; top and bottom are horizontal, left and right vertical, each mirrors the other, and all lie strictly inside the outermost ring of grid cells |
| Framebuffers.Framebuffer.constructor | FluidSim2D/FluidSim2D/Shader.cpp:354-372 | a framebuffer has the size it was created with |
| Framebuffers.SwappableFramebuffer.constructor | FluidSim2D/FluidSim2D/Shader.cpp:397-400 | two fresh, distinct buffers of the given size; the first is front, the second back |
| Framebuffers.SwappableFramebuffer.GetFront | FluidSim2D/FluidSim2D/Shader.h:327 | the front is one of the two owned buffers and never the back |
| Framebuffers.SwappableFramebuffer.GetBack | FluidSim2D/FluidSim2D/Shader.h:328 | the back is one of the two owned buffers |
| Framebuffers.SwappableFramebuffer.SwapBuffers | FluidSim2D/FluidSim2D/Shader.cpp:412-415 | front and back exchange; the pair still owns one front and one back |
| Framebuffers.FrontAfterParity | FluidSim2D/FluidSim2D/FluidSim2D.cpp:496-502 | after an even number of swaps the original front is in front again, after an odd number the original back |
| Trace.Samplers | FluidSim2D/FluidSim2D/FluidSim2D.cpp:279-387 | every program the loop draws with samples one or two textures |
| Trace.ImpulseProgram | FluidSim2D/FluidSim2D/FluidSim2D.cpp:301 | the radial program is chosen exactly when the impulse is radial, the directional one otherwise |
| Trace.NumJacobiRoundsIsEven | FluidSim2D/FluidSim2D/FluidSim2D.cpp:36 | `30 & ~0x1` is 30, an even round count |
| Trace.JacobiRoundsSnoc | FluidSim2D/FluidSim2D/FluidSim2D.cpp:496-502 | the log of n+1 rounds is the log of n rounds followed by round n, which renders into the buffer that is back after n swaps while reading the one in front and the right-hand side |
| Trace.JacobiRoundsSwaps | FluidSim2D/FluidSim2D/FluidSim2D.cpp:496-502 | n Jacobi rounds swap their own pair exactly n times and no other double buffer |
| Trace.JacobiRoundsSafe | FluidSim2D/FluidSim2D/FluidSim2D.cpp:496-502 | when the right-hand side is neither buffer of the pair, no Jacobi round reads the buffer it writes |
| Trace.SwapsCountsOccurrences | FluidSim2D/FluidSim2D/FluidSim2D.cpp:251-395 | the swap count of a log is the number of swap events for that pair it contains |
| Trace.SwapsConcat | FluidSim2D/FluidSim2D/FluidSim2D.cpp:251-395 | swap counts add up over consecutive parts of the loop |
| Trace.NoFeedbackConcat | FluidSim2D/FluidSim2D/FluidSim2D.cpp:251-395 | a log is free of feedback exactly when both of its parts are |
| Trace.DrawsDoNotSwap | FluidSim2D/FluidSim2D/FluidSim2D.cpp:435-465 | a run of draws swaps no double buffer |
| Trace.BoundsSwaps | FluidSim2D/FluidSim2D/FluidSim2D.cpp:435-467 | SetBounds swaps velocity exactly once and no other pair |
| Trace.BoundsFacts | FluidSim2D/FluidSim2D/FluidSim2D.cpp:435-467 | SetBounds' copy and four line draws read the front and write the back, so none reads its own target; it swaps once |
| Trace.SolveFacts | FluidSim2D/FluidSim2D/FluidSim2D.cpp:488-503 | a Poisson solve swaps its pair exactly NumJacobiRounds times and no other pair; with a scratch buffer distinct from the pair and the initial value, no draw reads its own target |
| Trace.AdvectionFacts | FluidSim2D/FluidSim2D/FluidSim2D.cpp:274-288 | the advection region (bounds, then advect) is free of feedback and swaps velocity exactly twice |
| Trace.VorticityFacts | FluidSim2D/FluidSim2D/FluidSim2D.cpp:321-341 | curl, bounds and confinement are free of feedback when the vorticity buffer is not a velocity buffer, and they swap velocity exactly twice |
| Trace.ProjectionSwaps | FluidSim2D/FluidSim2D/FluidSim2D.cpp:349-379 | projection swaps velocity exactly twice and pressure exactly NumJacobiRounds times |
| Trace.ProjectionSafe | FluidSim2D/FluidSim2D/FluidSim2D.cpp:349-379 | with distinct buffers, no projection draw reads its own target: the pressure solve reads the divergence in velocity's back through the scratch copy, and the subtraction reads pressure's back |
| Trace.StepNoFeedback | FluidSim2D/FluidSim2D/FluidSim2D.cpp:274-379 | with the six framebuffers distinct, no simulation draw of a frame reads its own render target, whichever impulse is active |
| Trace.StepSwaps | FluidSim2D/FluidSim2D/FluidSim2D.cpp:274-379 | a simulation step swaps velocity 36 times plus one for an active impulse, pressure NumJacobiRounds times, and nothing else |
| Trace.FrameNoFeedback | FluidSim2D/FluidSim2D/FluidSim2D.cpp:274-389 | one whole iteration, render included, has no draw that reads its own target |
| Trace.FrameSwaps | FluidSim2D/FluidSim2D/FluidSim2D.cpp:274-389 | one whole iteration swaps velocity 36 (+1 if active) times and pressure NumJacobiRounds times |
| Impulses.Clamp | FluidSim2D/FluidSim2D/FluidSim2D.cpp:294 | std::clamp: the result lies in [lo, hi], equals v inside the range and the violated bound outside it |
| Impulses.ClampIsNearest | FluidSim2D/FluidSim2D/FluidSim2D.cpp:294 | the clamped value is the point of [lo, hi] closest to v |
| Impulses.ClampForce | FluidSim2D/FluidSim2D/FluidSim2D.cpp:293-294 | each force component lies in ±gridScale, equals the mouse delta when the delta is in range, and is never larger in magnitude than the delta |
| Impulses.RandomPosition | FluidSim2D/FluidSim2D/FluidSim2D.cpp:555-558 | a whole-numbered position inside [0, width) × [0, height), equal to the random values when they are already in range |
| Impulses.NextDropDelay | FluidSim2D/FluidSim2D/FluidSim2D.cpp:415-416 | the next threshold is a whole number of milliseconds in [501, 1499], strictly between Delay/2 and 3·Delay/2, at least Delay for an even sign draw and at most Delay for an odd one |
| Impulses.DropletStep | FluidSim2D/FluidSim2D/FluidSim2D.cpp:405-433 | a drop fires exactly when the accumulated time reaches the threshold; the three flags are always equal; the accumulator ends below the threshold; a drop resets it, draws a new threshold and places both positions on the grid with delta = current − last; no drop keeps the positions and only adds dt·1000 |
| FrameLimiter.Initial | FluidSim2D/FluidSim2D/FPSLimiter.cpp:7-13 | the counter starts at 4, no sample is taken yet, simFrameTime·fps = 1000 and the delay is the whole part of 60% of the frame time |
| FrameLimiter.Sleep | FluidSim2D/FluidSim2D/FPSLimiter.cpp:17-18 | a call sleeps exactly when the delay is non-zero, for fpsDelay milliseconds |
| FrameLimiter.FPSLimiter.constructor | FluidSim2D/FluidSim2D/FPSLimiter.cpp:7-13 | the object's fields are the initial state for fps |
| FrameLimiter.FPSLimiter.AverageFPS | FluidSim2D/FluidSim2D/FPSLimiter.h:10 | the reported rate times the average frame time is 1000 |
| FrameLimiter.FPSLimiter.Regulate | FluidSim2D/FluidSim2D/FPSLimiter.cpp:15-39 | the sleep is the one the old state asks for, and the new fields are one Step of the old ones at that clock reading |
| FrameLimiter.StepKeepsInv | FluidSim2D/FluidSim2D/FPSLimiter.cpp:15-39 | each call keeps the delay non-negative and the counter in 1..4, and moves the delay by at most one |
| FrameLimiter.SampleAdjusts | FluidSim2D/FluidSim2D/FPSLimiter.cpp:24-37 | a sample with an earlier time stamp sets the average to elapsed/4 and raises the delay iff the frames ran ≥ 1 ms fast, lowers it iff they ran ≥ 1 ms slow and it was positive, and keeps it otherwise |
| FrameLimiter.FirstSampleOnlyRecords | FluidSim2D/FluidSim2D/FPSLimiter.cpp:20-38 | the first sample only stores the time stamp and resets the counter |
| FrameLimiter.CounterCycles | FluidSim2D/FluidSim2D/FPSLimiter.cpp:20-38 | over n calls the counter cycles 4..1 and the number of samples taken is (n + 4 − c) / 4 from counter c |
| FrameLimiter.DelayDriftBounded | FluidSim2D/FluidSim2D/FPSLimiter.cpp:20-38 | over any sequence of calls the delay stays non-negative and moves by at most the number of samples taken |
| FrameLimiter.FourCallsMoveDelayByAtMostOne | FluidSim2D/FluidSim2D/FPSLimiter.cpp:20-38 | any four consecutive calls take exactly one sample and move the delay by at most 1 ms |
| FrameLimiter.AverageZeroUntilSecondSample | FluidSim2D/FluidSim2D/FPSLimiter.cpp:7-38 | from a new limiter the average frame time stays 0 for the first seven calls |
| FrameLimiter.CallsSnoc | FluidSim2D/FluidSim2D/FPSLimiter.cpp:15-39 | running the calls for one more clock reading is one more Step |
| FrameLimiter.SleepsSnoc | FluidSim2D/FluidSim2D/FPSLimiter.cpp:15-39 | the sleeps for one more clock reading are the earlier sleeps plus the sleep of the state those calls reached |
| FrameLimiter.SleepsAt | FluidSim2D/FluidSim2D/FPSLimiter.cpp:15-39 | the k-th sleep of a run of calls is the sleep of the state after the first k calls |
| Shaders.GlShaderKind | FluidSim2D/FluidSim2D/Shader.cpp:91-121 | the type switch fails with "Invalid shader type" exactly for the two tessellation types; otherwise the stage is the one for that type |
| Shaders.GlShaderKindInverse | FluidSim2D/FluidSim2D/Shader.cpp:91-121 | the switch is a bijection between the four supported types and the GL stages |
| Shaders.Find | FluidSim2D/FluidSim2D/Shader.cpp:162 | std::string::find: the first occurrence at or after the start, or none when there is no occurrence |
| Shaders.FindChar | FluidSim2D/FluidSim2D/Shader.cpp:169 | find for one character: its first index at or after the start, or none |
| Shaders.InsertionPoint | FluidSim2D/FluidSim2D/Shader.cpp:162-170 | the insertion point is one past the first newline after the first "#version"; there is none without "#version" or without a newline after it |
| Shaders.DefineLineSeq | FluidSim2D/FluidSim2D/Shader.cpp:175-182 | one "#define key value" line per macro key, in walk order |
| Shaders.PreambleLayout | FluidSim2D/FluidSim2D/Shader.cpp:173-189 | the preamble is the define lines, then the includes in insertion order, then "#line 1" |
| Shaders.PreambleDefinesEveryMacro | FluidSim2D/FluidSim2D/Shader.cpp:175-182 | whatever order the macro table is walked in, every macro's define line occurs in the preamble |
| Shaders.Splice | FluidSim2D/FluidSim2D/Shader.cpp:162-191 | the splice succeeds exactly when there is an insertion point, and it adds exactly the block's length |
| Shaders.SpliceKeepsSource | FluidSim2D/FluidSim2D/Shader.cpp:169-191 | the block sits at the insertion point, removing it gives the source back, and "#version" and the rest of its line stay in front of it |
| Shaders.NoVersionFails | FluidSim2D/FluidSim2D/Shader.cpp:162-167 | source text without "#version" cannot be prepared |
| Shaders.SpliceAsWritten | FluidSim2D/FluidSim2D/Shader.cpp:169-191 | as written, the splice fails only when "#version" is missing |
| Shaders.SpliceAsWrittenAgrees | FluidSim2D/FluidSim2D/Shader.cpp:169-191 | where a newline follows "#version", the code as written and the corrected splice agree |
| Shaders.SpliceAsWrittenMisplacesPreamble | FluidSim2D/FluidSim2D/Shader.cpp:169-191 | for "#version 330" with no newline the code as written puts the preamble before "#version", while the corrected splice fails |
| Shaders.Shader.constructor | FluidSim2D/FluidSim2D/Shader.h:34 | a new shader has the given type and source, no includes, no macros, no error and no GL name |
| Shaders.Shader.SetMacro | FluidSim2D/FluidSim2D/Shader.cpp:3-6 | the macro is inserted or overwritten and the other macros are unchanged |
| Shaders.Shader.UnsetMacro | FluidSim2D/FluidSim2D/Shader.cpp:8-11 | the key is removed and the other macros are unchanged; an absent key is ignored |
| Shaders.Shader.SetSource | FluidSim2D/FluidSim2D/Shader.cpp:13-16 | the source is replaced |
| Shaders.Shader.AddInclude | FluidSim2D/FluidSim2D/Shader.cpp:18-21 | the include is appended after the existing ones |
| Shaders.Shader.SetType | FluidSim2D/FluidSim2D/Shader.cpp:23-26 | the type is replaced |
| Shaders.Shader.Clear | FluidSim2D/FluidSim2D/Shader.cpp:149-158 | the GL shader is released and source, macros, includes and error message are emptied |
| Shaders.Shader.DefineBlock | FluidSim2D/FluidSim2D/Shader.cpp:175-182 | the loop builds exactly the concatenated define lines |
| Shaders.Shader.AppendAll | FluidSim2D/FluidSim2D/Shader.cpp:184-187 | the loop appends every include in order |
| Shaders.Shader.PrepareSource | FluidSim2D/FluidSim2D/Shader.cpp:160-196 | the prepared text is the source with the preamble spliced in after the "#version" line, or the version error when there is no insertion point |
| Shaders.Shader.Compile | FluidSim2D/FluidSim2D/Shader.cpp:83-147 | an invalid type, a failed glCreateShader, a missing "#version", and a failed compile (the info log, or "Unknown error" when it is empty) each give their own error; otherwise the prepared text is compiled; a recompile clears the old message |
| ShaderPrograms.GlContext.constructor | FluidSim2D/FluidSim2D/Shader.cpp:36 | initially no program is current |
| ShaderPrograms.CacheLookup | FluidSim2D/FluidSim2D/Shader.h:160-187 | a cached key hits without asking GL; on a miss, -1 fails and leaves the cache alone, and any other location is cached and used |
| ShaderPrograms.CacheLookupKeepsCache | FluidSim2D/FluidSim2D/Shader.h:160-187 | a lookup keeps -1 out of the cache, adds at most the looked-up key, never changes a cached location, and succeeds exactly when it sets the value it now caches |
| ShaderPrograms.CachedKeyAlwaysHits | FluidSim2D/FluidSim2D/Shader.h:164-171 | once a key is cached, later lookups of it succeed with the same location whatever GL would answer |
| ShaderPrograms.ShaderProgram.constructor | FluidSim2D/FluidSim2D/Shader.h:190-195 | a new program has no GL name, no shaders, empty caches and no group |
| ShaderPrograms.ShaderProgram.EnsureProgram | FluidSim2D/FluidSim2D/Shader.cpp:265-272 | the GL program is created once, on first use, and kept after that |
| ShaderPrograms.ShaderProgram.AddShader | FluidSim2D/FluidSim2D/Shader.cpp:38-53 | a null shader is refused; an attached shader is accepted without a second attach; a new one is attached once and appended; the list never holds duplicates |
| ShaderPrograms.ShaderProgram.Select | FluidSim2D/FluidSim2D/Shader.cpp:60-67 | afterwards this program is current; glUseProgram is issued only when it was not current already |
| ShaderPrograms.ShaderProgram.Deselect | FluidSim2D/FluidSim2D/Shader.cpp:69-76 | afterwards no program is current; glUseProgram(0) is issued only when one was current |
| ShaderPrograms.ShaderProgram.Clear | FluidSim2D/FluidSim2D/Shader.cpp:246-263 | every attached shader is detached in list order, the GL program is deleted if it exists, and the caches and the list are emptied |
| ShaderPrograms.ShaderProgram.SetAttribute | FluidSim2D/FluidSim2D/Shader.h:160-187 | the result and the new cache are those of the lookup of group + key; GL is queried only on a miss and a value is set only when a location was found; the other cache is unchanged |
| ShaderPrograms.ShaderProgram.EnterGroup | FluidSim2D/FluidSim2D/Shader.h:147 | later keys are prefixed by the group name and a dot |
| ShaderPrograms.ShaderProgram.LeaveGroup | FluidSim2D/FluidSim2D/Shader.h:148 | later keys have no prefix |
| Pipeline.TimeStep | FluidSim2D/FluidSim2D/FluidSim2D.cpp:256-263 | the time step is the fixed first step when no earlier time stamp is known, otherwise the elapsed time less the polling time |
| Pipeline.Gl.Bind | FluidSim2D/FluidSim2D/Shader.cpp:382-395 | afterwards draws go to the given framebuffer (the window for null); units, samplers and log are unchanged |
| Pipeline.Gl.DrawQuad | FluidSim2D/FluidSim2D/FluidSim2D.cpp:191-195 | the log grows by exactly one event: a draw into the bound framebuffer reading what the program's samplers name, or a draw shown in the window when none is bound; the rest of the state is unchanged |
| Pipeline.Gl.DrawLine | FluidSim2D/FluidSim2D/FluidSim2D.cpp:451-464 | the log grows by exactly one line draw into the bound framebuffer reading what the program's samplers name; the rest of the state is unchanged |
| Pipeline.Gl.BindTexture | FluidSim2D/FluidSim2D/FluidSim2D.cpp:482-486 | afterwards the sampler reads exactly the bound framebuffer; every sampler naming another unit reads what it read before; target and log are unchanged |
| Pipeline.Gl.CopyBuffers | FluidSim2D/FluidSim2D/FluidSim2D.cpp:183-189 | one copy draw into the destination that reads only the source; the destination stays bound and the source stays on unit 0 |
| Pipeline.MainProgram.constructor | FluidSim2D/FluidSim2D/FluidSim2D.cpp:122-135 | the six framebuffers are distinct; the border, the grid scale and the limiter state are the initial ones; unit 0 holds the last created buffer and the default framebuffer is bound |
| Pipeline.MainProgram.DistinctFrontBack | FluidSim2D/FluidSim2D/FluidSim2D.cpp:127-130 | the current fronts and backs of both pairs, the vorticity buffer and the scratch buffer are six distinct framebuffers |
| Pipeline.MainProgram.SetBounds | FluidSim2D/FluidSim2D/FluidSim2D.cpp:435-467 | the log grows by a copy of velocity's front into its back, the four border lines drawn into the back while reading the front, and one swap |
| Pipeline.MainProgram.SolvePoissonSystem | FluidSim2D/FluidSim2D/FluidSim2D.cpp:488-503 | the log grows by the copy of the initial value into the scratch buffer and NumJacobiRounds rounds; the pair ends with its original front in front |
| Pipeline.MainProgram.JacobiLoop | FluidSim2D/FluidSim2D/FluidSim2D.cpp:496-502 | the loop appends exactly the NumJacobiRounds rounds, and the front is the one after that many swaps |
| Pipeline.MainProgram.JacobiIteration | FluidSim2D/FluidSim2D/FluidSim2D.cpp:498-501 | one round renders into the back while reading the front as "x" and the scratch copy as "b", then swaps; "b" stays bound |
| Pipeline.MainProgram.Advection | FluidSim2D/FluidSim2D/FluidSim2D.cpp:274-288 | the log grows by the bounds pass and an advection draw that reads the velocity front twice (quantity and velocity), then a swap |
| Pipeline.MainProgram.ApplyForce | FluidSim2D/FluidSim2D/FluidSim2D.cpp:290-318 | an active impulse draws the chosen impulse program into the back while reading the front, then swaps; the clamped force is set only for the directional program; an inactive impulse changes nothing |
| Pipeline.MainProgram.DrawCurl | FluidSim2D/FluidSim2D/FluidSim2D.cpp:321-327 | the curl draw renders into the vorticity buffer while reading the velocity front |
| Pipeline.MainProgram.Confine | FluidSim2D/FluidSim2D/FluidSim2D.cpp:331-341 | confinement renders into velocity's back while reading its front and the curl, then swaps |
| Pipeline.MainProgram.VorticityConfinement | FluidSim2D/FluidSim2D/FluidSim2D.cpp:321-341 | the log grows by curl, bounds and confinement; the velocity pair ends as it began |
| Pipeline.MainProgram.DrawDivergence | FluidSim2D/FluidSim2D/FluidSim2D.cpp:350-355 | the divergence renders into velocity's back while reading its front |
| Pipeline.MainProgram.SubtractGradient | FluidSim2D/FluidSim2D/FluidSim2D.cpp:360-374 | the gradient renders into pressure's back without a swap; the subtraction renders into velocity's back while reading velocity's front and pressure's back, then swaps |
| Pipeline.MainProgram.Projection | FluidSim2D/FluidSim2D/FluidSim2D.cpp:349-379 | the log grows by divergence, the pressure solve against velocity's back, gradient, subtraction and bounds; both pairs end as they began |
| Pipeline.MainProgram.Render | FluidSim2D/FluidSim2D/FluidSim2D.cpp:382-389 | the velocity front is drawn into the window's own framebuffer |
| Pipeline.MainProgram.DoDroplets | FluidSim2D/FluidSim2D/FluidSim2D.cpp:405-433 | the droplet statics and the impulse state change as one DropletStep |
| Pipeline.MainProgram.Simulate | FluidSim2D/FluidSim2D/FluidSim2D.cpp:274-379 | the log grows by the step's events in source order; velocity's front changes exactly when an impulse is active; pressure ends as it began |
| Pipeline.MainProgram.Frame | FluidSim2D/FluidSim2D/FluidSim2D.cpp:254-393 | one iteration: dt is the fixed first step; droplets run only when switched on; the log grows by the frame's events; the limiter takes one Step and the sleep is the one its old state asks for |
| Pipeline.MainProgram.CountedFrame | FluidSim2D/FluidSim2D/FluidSim2D.cpp:254-393 | one iteration keeps feedback-freedom, adds NumJacobiRounds pressure swaps and 36 velocity swaps plus one exactly when the frame's impulse is active (with droplets off, the polled impulse), and keeps pressure's front |
| Pipeline.MainProgram.Run | FluidSim2D/FluidSim2D/FluidSim2D.cpp:251-395 | over n iterations: no draw reads its own target; pressure is swapped n·NumJacobiRounds times and keeps its front; velocity is swapped exactly 36n + a times, where a ≤ n counts the iterations with an active impulse (with droplets off, ActiveCount of the inputs); the limiter's state is the calls at the given clock readings and the sleeps are exactly Sleeps of them |

## Left out

- GPU numerics: the shader bodies (advection, curl, Jacobi, divergence, gradient and the rest) are not modelled. A draw is recorded as program, target, sampled framebuffers and shape.
- Scalar uniforms are not tracked: dissipation, gs, rdv, delta_t, scale, radius and position. Only the directional impulse's clamped "force" is tracked. SetBounds' `scale` and SolvePoissonSystem's `alpha`/`beta` parameters are therefore absent from the model.
- The sampler uniforms named in each draw are taken to exist in the shaders. Shader sources are loaded from files that are not part of this model.
- OpenGL and GLFW calls are left out: glViewport, glClear, glfwSwapBuffers, glfwPollEvents, the debug callback and window handling. The OpenGL state after a region is stated only as far as the log needs it.
- `main`, `Load2DShaders`, `LoadShader`, `CStdGLShaderProgram::Link` and `SetObjectLabel` are not modelled. They load files and talk to the driver.
- `ImpulseState.h`, `MainProgram::ProcessInput` and `ImpulseState::Update` are not part of this model. Each frame takes the polled impulse state as input.
- Impulses.ImpulseState.IsActive: ImpulseState's definition lies outside the modelled files; IsActive is taken to be `forceActive`.
- The vec3 positions of ImpulseState are modelled as 2D vectors. Their z component is always 0.
- DoDroplets reads `std::rand()` values, and the model takes them as parameters. In `std::pow(-1, rand()%2) * (rand()%500)` the evaluation order of the two calls is unsequenced. The model fixes sign first, then magnitude.
- Floats are modelled as exact reals. One consequence: in single precision `int(1000.0f/60 * 0.6)` is 9, while FrameLimiter.Initial computes 10 with reals.
- FrameLimiter.FPSLimiter.AverageFPS requires a non-zero average. In the source, a zero average returns infinity.
- The `int` overflow of `fpsDelay` after about 2^31 upward adjustments is not modelled.
- The clock is a parameter in milliseconds, and the sleep is returned rather than performed.
- The render loop runs until the window closes. This is modelled as one input per iteration over a finite sequence.
- Exceptions are modelled as `Result`/`Option` values.
- Iteration order over a `std::unordered_map` is unspecified. It is passed in as an `order` that enumerates the macro keys.
- Shaders.Shader.Compile: when the source has no "#version", the source deletes the new GL shader but keeps its stale name. The model keeps `handle == created` there, and it records no deletion of the replaced shader.
- Shaders.Shader.Clear: `CStdShader::Clear` (Shader.cpp:28-34) is covered by the same member as the GL override.
- ShaderPrograms.ShaderProgram.Clear: like the source, it does not reset the current-program pointer. A cleared program can therefore remain current.
- ShaderPrograms.ShaderProgram.SetAttribute: the value passed to the setter function is not modelled, only the location it is sent to.
- ShaderPrograms.ShaderProgram.EnsureProgram: a failed `glCreateProgram` (name 0) is excluded by the requires; the source only asserts against it (Shader.cpp:271).
- ShaderPrograms.ShaderProgram.AddShader: inherits the same requires from EnsureProgram, so a failed `glCreateProgram` is excluded there too.
- Pipeline.Gl.DrawLine requires a bound framebuffer. SetBounds always draws its lines into velocity's back.

## Findings

| source | as written | input that shows it | evidently intended | confidence | as-written member | corrected member |
|---|---|---|---|---|---|---|
| FluidSim2D/FluidSim2D/Shader.cpp:169-191 | the result of `find('\n')` after "#version" is only checked by `assert`, so in a release build `npos + 1` wraps to 0 and the preamble is inserted at the very start of the source | source text `#version 330` with no trailing newline | throw the "#version" error, as for a missing directive | not executed | Shaders.SpliceAsWrittenMisplacesPreamble | Shaders.Shader.PrepareSource |
