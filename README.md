# Portfolio site core, modelled in Dafny

The site is a single-page portfolio. The logic that can be stated and
proved comes from four places, and each is one module here:

- **Particles** (`particles.dfy`, from `src/lib/webglParticles.ts`): the
  animated background. A 256 x 256 grid of particles keeps its positions and
  velocities in two RGBA float textures. Every frame a position shader
  integrates and clamps each particle into a cube of half-side 140, and a
  velocity shader blends each velocity 35 % of the way toward a target.
  The target couples the position axes crosswise through `sin`. The model
  also covers the two texture fill loops, the mesh's reference buffer, the
  frame clock (`deltaTime` clamped to 0.05, `time` accumulated), the mount
  with its failure branch, and teardown.
- **Navbar** (`navbar.dfy`, from `src/components/Navbar.tsx`): the bar hides
  on a downward scroll past 120 px, with a 5 px dead band. It has a mobile
  menu and a "Resume" button. The button asks the MetaKeep wallet SDK for a
  Solana address before it navigates to the resume, and the bar polls for
  a late-loading SDK script. Also modelled: the shortened wallet shown and
  the button label.
- **HeroOrbit** (`hero_orbit.dfy`, from `src/components/HeroOrbit.tsx`): the
  cursor parallax. A pointer position is clamped and scaled into a shift of
  at most 18 px and a tilt of at most 2.5 degrees. Writes are coalesced to
  at most one pending animation frame, which applies the latest target.
- **Footer** (`footer.dfy`, from `src/components/Footer.tsx`): the telephone
  link, `tel:` followed by the phone number with all whitespace removed.

`common.dfy` holds `Option`, `Min`, `Max` and `Abs`.

Inputs from the host are parameters of the model: `sin`, `Math.random`,
`MathUtils.randFloatSpread`, `clock.getDelta()`, the handles that
`requestAnimationFrame` returns, `window.scrollY`, `innerWidth`, the
pointer position and bounding rectangle, whether `window.MetaKeep` is
present, and how `getWallet()` settles. Outside effects are recorded and not
performed: location changes, console messages, interval start and stop,
and `setSdk` go to effect logs, and the particle mount's console error is
its `errorLogged` result. The GPU values are modelled as
`real`. `GPUComputationRenderer` is not part of this model. Its `compute()`
is modelled the way the library double-buffers: both shaders read the
previous frame's textures, so a new position uses the old velocity.

Three behaviours of the code worth knowing:

- A rejected `getWallet()` call only logs an error (`Navbar.tsx:184-186`).
  It does not fall back to a resume download. `Navbar.ConnectEffects` and
  `Navbar.DownloadIffVerifiedOrFallback` state exactly that.
- The cleanup of `initWebGLParticles` is not idempotent. A second call
  dereferences `renderer!` (`webglParticles.ts:268`) after the first call
  set it to null (`:276`), so it throws. `Particles.ParticleSystem.Teardown`
  returns `ok == false` for that call.
- The simulation step does not update the velocity first and then move by
  the new velocity. Both variables are computed from the previous frame's
  state.

## Model

| member | source | states |
|---|---|---|
| `Particles.ClampScalar` | src/lib/webglParticles.ts:32 | GLSL clamp lands in [lo, hi], is the identity inside it and snaps to the nearer end outside |
| `Particles.PositionStep` | src/lib/webglParticles.ts:31-32 | the new position lies in the cube [-bounds, bounds]^3, and equals pos + v·dt whenever that is already inside |
| `Particles.ZeroDeltaKeepsPosition` | src/lib/webglParticles.ts:31-32 | a zero step leaves an in-cube position unchanged, whatever the velocity |
| `Particles.Mix` | src/lib/webglParticles.ts:54 | GLSL mix(x, y, a) moves the fraction a of the way from x to y |
| `Particles.MixBetween` | src/lib/webglParticles.ts:54 | for a in [0, 1] the blend lies between its two end points, in either order |
| `Particles.Target` | src/lib/webglParticles.ts:45-52 | target x depends only on (p.x, p.y), y only on (p.y, p.z), z only on (p.z, p.x), with p = pos·0.01, plus time; each is scaled by speed 0.8 and 20 |
| `Particles.VelocityStep` | src/lib/webglParticles.ts:53-54 | new velocity = current + 0.35·(target − current), so each component lies between the current and the target value |
| `Particles.TargetBounded` | src/lib/webglParticles.ts:45-52 | for a position inside the cube and a sine in [-1, 1], every target component lies within 18.688 |
| `Particles.VelocityStaysBounded` | src/lib/webglParticles.ts:45-56 | velocities within any bound M ≥ 18.688 stay within M after a step: the velocity is damped, not only blended |
| `Particles.Compute` | src/lib/webglParticles.ts:142-149 | one compute pass keeps the grid size, puts every particle in the cube, and computes each particle's position and velocity from its own previous state |
| `Particles.ComputeZeroDelta` | src/lib/webglParticles.ts:31-32 | a compute pass with deltaTime 0 leaves every in-cube position unchanged |
| `Particles.FrameDelta` | src/lib/webglParticles.ts:243 | the simulated step never exceeds 0.05, equals the clock delta below that, and is non-negative for a non-negative clock delta |
| `Particles.TimeAfterBounds` | src/lib/webglParticles.ts:243-245 | with non-negative clock deltas the time uniform never decreases and grows by at most 0.05 per frame |
| `Particles.TimeAfterSnoc` | src/lib/webglParticles.ts:245 | one more frame adds exactly its clamped step to the time uniform |
| `Particles.PositionTexelRange` | src/lib/webglParticles.ts:101-103 | for Math.random in [0, 1), each initial position component (r − 0.5)·140 lies in [-70, 70) |
| `Particles.FillPositionTexture` | src/lib/webglParticles.ts:98-106 | the loop steps by 4: each texel's x, y, z come from that texel's three random draws scaled into the cube, w is 1, and writes past the end are dropped |
| `Particles.FillVelocityTexture` | src/lib/webglParticles.ts:108-116 | the loop steps by 4: each x, y, z is that texel's own randFloatSpread(4) draw and w is 1 |
| `Particles.TexelVectors` | src/lib/webglParticles.ts:28-29 | texel i of an RGBA buffer is read as the vector of floats 4i, 4i+1 and 4i+2 |
| `Particles.FilledPositionsInCube` | src/lib/webglParticles.ts:100-105 | a filled position texture starts every particle inside the cube |
| `Particles.TexelInjective` | src/lib/webglParticles.ts:169-171 | for i < 65536, (i mod 256, i div 256) is a cell of the grid, and distinct i give distinct cells |
| `Particles.ReferenceInjective` | src/lib/webglParticles.ts:168-173 | the stored coordinates lie in [0, 1)², their z is 0, and distinct particles get distinct coordinates |
| `Particles.CreateReferences` | src/lib/webglParticles.ts:166-173 | the buffer has 3·256·256 floats, and particle i's triple is its cell divided by 256 with z = 0 |
| `Particles.ParticleSystem.constructor` | src/lib/webglParticles.ts:151-154 | a mounted system starts alive, with the uniforms time 0 and deltaTime 0.016 set by `initCompute`, frame handle 0 (`:199`) and no observer |
| `Particles.ParticleSystem.Animate` | src/lib/webglParticles.ts:241-258 | after teardown nothing changes, the clock history included; otherwise deltaTime is the clamped clock delta, time grows by it before the compute pass, the state is one compute pass, and a frame is requested; the cube invariant and the clock history are kept |
| `Particles.ParticleSystem.Observe` | src/lib/webglParticles.ts:262-263 | the resize observer is attached |
| `Particles.ParticleSystem.Teardown` | src/lib/webglParticles.ts:265-277 | the frame is cancelled and the observer disconnected; a first call detaches the canvas and drops the renderer; a second call throws (ok is false) and leaves the container alone |
| `Particles.InitWebGLParticles` | src/lib/webglParticles.ts:195-264 | the console error is logged exactly when the renderer constructor throws; then a no-op cleanup is returned and the container is untouched; otherwise the canvas is appended once, the observer is attached, and exactly one frame has run on the textures the fill loops wrote: its state is one compute pass over them, with deltaTime and time both the clamped first delta and that frame's handle recorded |
| `Navbar.OnScroll` | src/components/Navbar.tsx:32-42 | a move under 5 px changes nothing, not even lastScrollY; otherwise lastScrollY becomes currentY and the bar is hidden exactly when it moved down past 120; an upward move of 5 or more always shows it |
| `Navbar.OnScrollKeepsFold` | src/components/Navbar.tsx:36-41 | the invariant that the bar is hidden only while lastScrollY is past 120 survives every scroll event |
| `Navbar.OnScrollIdempotent` | src/components/Navbar.tsx:33-41 | a repeated scroll event to the same offset changes nothing more |
| `Navbar.ScrollTraceKeepsFold` | src/components/Navbar.tsx:32-43 | over any sequence of scroll events the fold invariant holds, and lastScrollY is always the initial value or one of the offsets seen |
| `Navbar.NextMenuOpen` | src/components/Navbar.tsx:47-66 | only the toggle opens the menu, and it negates it; close, Escape while open and a resize to 768 px or more close it; other keys and narrower resizes change nothing |
| `Navbar.ToggleTwice` | src/components/Navbar.tsx:142 | toggling twice restores the menu state |
| `Navbar.BodyOverflow` | src/components/Navbar.tsx:71-82 | page scrolling is locked ("hidden") exactly while the menu is open |
| `Navbar.AcceptedAddress` | src/components/Navbar.tsx:180 | a response verifies an address exactly when its status is SUCCESS and its solAddress is present and non-empty |
| `Navbar.ConnectEffects` | src/components/Navbar.tsx:164-189 | with a wallet, or without an SDK, exactly one download and no getWallet call; otherwise getWallet is called once, first, and there is one download if the response verifies an address and none otherwise; every navigation goes to `/Resume.pdf` |
| `Navbar.WalletAfterConnect` | src/components/Navbar.tsx:177-188 | the wallet becomes the verified address after a successful request and is unchanged after a failure, a missing address or a rejection |
| `Navbar.DownloadIffVerifiedOrFallback` | src/components/Navbar.tsx:164-189 | a click downloads the resume exactly when a wallet is verified afterwards or there was no SDK |
| `Navbar.SliceFirst` | src/components/Navbar.tsx:193 | `slice(0, n)` is the prefix of length min(n, length) |
| `Navbar.SliceLast` | src/components/Navbar.tsx:193 | for n > 0, `slice(-n)` is the suffix of length min(n, length); `slice(-0)` is the whole string |
| `Navbar.FormattedWallet` | src/components/Navbar.tsx:192-194 | null exactly without a non-empty wallet; otherwise its first min(6, length) characters, "…" and its last min(4, length), so "abcdefg" shows as "abcdef…defg" |
| `Navbar.ButtonLabel` | src/components/Navbar.tsx:191 | the label is "Connecting…" exactly while connecting, and "Resume" otherwise |
| `Navbar.NavbarState.constructor` | src/components/Navbar.tsx:22-27 | the bar starts shown at offset 0, menu closed, not connecting, with no wallet and no SDK |
| `Navbar.NavbarState.HandleScroll` | src/components/Navbar.tsx:32-42 | the refs change exactly as OnScroll says, keeping the fold invariant |
| `Navbar.NavbarState.HandleMenuEvent` | src/components/Navbar.tsx:47-69 | isMenuOpen changes exactly as NextMenuOpen says for toggle, close, keydown and resize |
| `Navbar.NavbarState.SetSdk` | src/components/Navbar.tsx:115 | the sdk state now holds an instance |
| `Navbar.NavbarState.BeginConnect` | src/components/Navbar.tsx:164-179 | up to the await: download with a wallet, warn and download without an SDK, otherwise set isConnecting and call getWallet |
| `Navbar.NavbarState.FinishConnect` | src/components/Navbar.tsx:179-188 | after the request settles, isConnecting is false in every case; only a verified address is stored and downloaded, and a rejection is logged |
| `Navbar.NavbarState.Connect` | src/components/Navbar.tsx:164-189 | a whole click produces exactly ConnectEffects and WalletAfterConnect, and ends with isConnecting false |
| `Navbar.SdkPoll.AttemptInit` | src/components/Navbar.tsx:102-118 | returns true exactly when window.MetaKeep is present; the waiting warning is logged only the first time; the SDK is stored only while mounted |
| `Navbar.SdkPoll.constructor` | src/components/Navbar.tsx:91-131 | the effect runs once on mount: it only warns without an app id; it stores the SDK if present; otherwise it warns once, starts the interval and leaves the SDK unset |
| `Navbar.SdkPoll.Mount` | src/components/Navbar.tsx:91-131 | the same mount logic on a fresh instance, with the SDK touched only when it is present, keeping the invariants: at most one waiting warning, at most one stored SDK, the interval only while searching |
| `Navbar.SdkPoll.Tick` | src/components/Navbar.tsx:126-131 | an interval tick retries and clears the interval after the first success, without another warning |
| `Navbar.SdkPoll.Unmount` | src/components/Navbar.tsx:133-138 | unmount marks the effect unmounted and clears a running interval; no setSdk can follow |
| `HeroOrbit.Clamp` | src/components/HeroOrbit.tsx:97 | maps every value into [-1, 1] and is the identity on [-1, 1] |
| `HeroOrbit.Normalize` | src/components/HeroOrbit.tsx:95-96 | a pointer inside the section maps into [-1, 1], its centre maps to 0, and the sign tells which side of the centre it is on |
| `HeroOrbit.TargetFor` | src/components/HeroOrbit.tsx:98-103 | shifts lie in [-18, 18] and tilts in [-2.5, 2.5]; tiltY has the sign of shiftX and tiltX the opposite sign of shiftY, in the fixed ratio 2.5 : 18 |
| `HeroOrbit.TargetAt` | src/components/HeroOrbit.tsx:94-103 | a pointer at the section's centre gives the zero target, and each shift has the sign of the pointer's offset from the centre |
| `HeroOrbit.HeroCursor.constructor` | src/components/HeroOrbit.tsx:30-38 | the target starts at zero, with no pending frame and nothing written |
| `HeroOrbit.HeroCursor.SetPointerFine` | src/components/HeroOrbit.tsx:55-62 | the pointer-precision flag follows the media query |
| `HeroOrbit.HeroCursor.QueueCursorFlush` | src/components/HeroOrbit.tsx:87-90 | a frame is requested, and added to the history of requests, only when none is pending, so at most one request is ever outstanding |
| `HeroOrbit.HeroCursor.FlushCursor` | src/components/HeroOrbit.tsx:77-85 | clears the pending marker and, while mounted, writes the current (latest) target |
| `HeroOrbit.HeroCursor.HandlePointerMove` | src/components/HeroOrbit.tsx:92-105 | without a fine pointer or a mounted section nothing changes; otherwise the target is TargetAt and a flush is queued |
| `HeroOrbit.HeroCursor.HandlePointerLeave` | src/components/HeroOrbit.tsx:107-110 | all four targets become 0 and a flush is queued |
| `HeroOrbit.HeroCursor.Unmount` | src/components/HeroOrbit.tsx:64-70 | a pending frame is cancelled, and nothing stays outstanding |
| `HeroOrbit.LastMoveWins` | src/components/HeroOrbit.tsx:77-105 | two moves before one frame request only the first move's frame, the second move's handle is never requested, and that frame writes the second target and leaves nothing pending |
| `Footer.StripWhitespace` | src/components/Footer.tsx:8 | the result contains no whitespace character and is no longer than the input |
| `Footer.TelHref` | src/components/Footer.tsx:8 | the href begins with "tel:", and what follows is the stripped phone string, free of whitespace |
| `Footer.StripClean` | src/components/Footer.tsx:8 | a string without whitespace is left as it is |
| `Footer.StripIdempotent` | src/components/Footer.tsx:8 | stripping twice is stripping once |
| `Footer.StripConcat` | src/components/Footer.tsx:8 | stripping distributes over concatenation, so the kept characters keep their order |
| `Footer.StripCounts` | src/components/Footer.tsx:8 | every non-whitespace character occurs as often in the result as in the input, and whitespace not at all |
| `Footer.ShownPhoneStripped` | src/content/portfolio.ts:8 | the shown phone "+91 88549 28428" strips to "+918854928428" |
| `Footer.ShownPhoneHref` | src/components/Footer.tsx:8 | the shown phone number gives the href "tel:+918854928428" |

## Left out

- Rendering is not modelled: the vertex and fragment shaders for the point sprites (`webglParticles.ts:60-90`), point size, depth colour, falloff, additive blending and the camera lerp (`:253`). They are floating-point graphics with no contract beyond the real-number abstraction.
- Three.js and the GPU runtime are not modelled: `WebGLRenderer`, `GPUComputationRenderer`, `DataTexture`, `Clock`, `ResizeObserver` and `requestAnimationFrame`. Their results are inputs of the model, and reals stand in for 32-bit floats, so rounding is not modelled.
- `setRendererSize` and the resize callback (`webglParticles.ts:218-224`) are not modelled. `clientWidth / clientHeight || 1` is NaN and Infinity behaviour that reals cannot express.
- The throw of `initCompute` when `gpuCompute.init()` reports an error (`webglParticles.ts:158-161`) is not modelled. It is not caught and escapes `initWebGLParticles`.
- Particles.FillVelocityTexture: does not bound the initial velocities, because `randFloatSpread` is not part of this model.
- Particles.Target: the `speed` uniform is fixed at 0.8 because `initCompute` sets it once and nothing changes it. Particles.VelocityStep fixes `drag` at 0.35 for the same reason.
- Particles.ParticleSystem.Teardown: does not claim idempotence, because the source's second call throws.
- HeroOrbit.Normalize: requires a rectangle of positive width and height, because a zero-size rectangle gives NaN or Infinity, which reals cannot express. A pointer cannot be over a zero-size section anyway.
- HeroOrbit.TargetAt: requires a positive-size rectangle for the same reason. HeroOrbit.HeroCursor.HandlePointerMove requires it only when the move is handled, that is with a fine pointer and a mounted section; otherwise the rectangle is never read.
- The hero's reveal and parallax-release timers (`HeroOrbit.tsx:40-53`) and its JSX are not modelled. They are fixed UI timers and markup.
- `scrollToMedia` (`Navbar.tsx:144-156`) is not modelled. It is a layout and scrolling effect on the browser.
- React's state updates are applied at once in the model. Batching and re-rendering are not modelled, and the `typeof window === "undefined"` server-rendering guards are not modelled.
- Navbar.NavbarState.BeginConnect: requires that no request is in flight, because both buttons are `disabled={isConnecting}` and so cannot start a second one.
- The 200 ms timing of the SDK poll is not modelled. Each tick is an event the host delivers while the interval runs.
- `ParticleHero.tsx` (the motion gate), `page.tsx`, `layout.tsx`, `card.tsx`, `portfolio.ts` (except the phone number), `utils.ts` and the type declarations are not part of this model. They are composition, static data and thin wrappers.
- JavaScript strings are UTF-16 code units, while the model's characters are Unicode scalar values. The two agree on every whitespace character and on the ASCII strings involved.
