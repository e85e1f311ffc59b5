# NexusMed landing page — a verified model of its logic

The NexusMed landing page is a single-page React site with a three.js background.
Three pieces of it carry real logic, and this project models those three in Dafny and
proves what they promise.

- **The bilingual text layer** (`Language`). This covers the Slovak and English string
  tables, the current language (Slovak at start), and the stored preference under
  `nexusmed-lang`. Only `"sk"` or `"en"` is accepted as a stored value. Toggling flips
  the language and stores it. The lookup `t(key)` returns the table entry, or the key
  itself when the entry is missing or empty. The provider is a class over a
  `map<string, string>` that stands for the browser's storage.
- **The arithmetic of the 3D scene**:
  - `Helix`: the DNA helix builder, a loop over 60 samples that builds two strands
    and 15 base-pair connectors.
  - `CameraControl`: the camera controller. It clamps the scroll progress, computes a
    target from it, and moves 2% of the way to that target each frame.
  - `Bodies`: the per-frame formulas of the pills, molecules, glass orbs and the
    scene group. Each pill keeps a clock of its own.
  - `Easing`: the easing step `pos += (target - pos) * k` that the camera and the
    cursor share, with its contraction and convergence facts.
  - All of this is over `real`. `Math.sin`, `Math.cos` and `Math.PI` are the fields of
    a `SceneMath.Trig` value given as a parameter. A property that needs one of their
    laws assumes it explicitly: `Bounded` (values in [-1, 1]) or `Laws` (the half-turn
    shift, sin² + cos² = 1, and the values at 0, π/2 and π).
- **The page state machine** (`Page`):
  - five modal flags, the selected feature, the success message and the scroll
    progress;
  - every handler, each stated as "this field changes, nothing else does";
  - the scroll-progress formula;
  - the eased custom cursor (`Cursor`).
  - `PageText` ties the page's hard-coded confirmation text to the English table.

The JavaScript object literal `translations` is modelled as `Merge` of its sections,
in source order. A later key overrides an earlier one, as in an object literal. This
keeps each section a small map that the verifier can handle.

## Model

| member | source | states |
|---|---|---|
| `Language.Parse` | src/context/LanguageContext.jsx:266 | accepts exactly "sk" and "en", giving the language whose code it is; every other string is rejected |
| `Language.SavedLanguage` | src/context/LanguageContext.jsx:265-266 | a preference is found if and only if the key is stored with value "sk" or "en", and it is the language of that code |
| `Language.Toggled` | src/context/LanguageContext.jsx:272 | the new language always differs from the old, so sk becomes en and en becomes sk |
| `Language.ToggledTwice` | src/context/LanguageContext.jsx:272 | toggling twice gives back the original language |
| `Language.PreferenceRoundTrip` | src/context/LanguageContext.jsx:265-274 | storing a language's code under `nexusmed-lang` and reading it back gives that language, whatever else the storage holds |
| `Language.Merge` | src/context/LanguageContext.jsx:3-256 | a key is in the merged table if and only if some section defines it |
| `Language.MergeKeepsLastDefinition` | src/context/LanguageContext.jsx:3-256 | a key that no later section redefines keeps the text of the section that defines it |
| `Language.Lookup` | src/context/LanguageContext.jsx:279-281 | the entry when it is present and non-empty, otherwise the key itself; the result is empty only for the empty key |
| `Language.Translate` | src/context/LanguageContext.jsx:279-281 | the same fallback over the current language's table |
| `Language.SectionsAgree` | src/context/LanguageContext.jsx:4-255 | section by section, the Slovak and English tables define the same keys, and no text is empty |
| `Language.TablesAgree` | src/context/LanguageContext.jsx:4-255 | the two full tables have equal key sets, and none of their texts is empty |
| `Language.DefinedKeysTranslate` | src/context/LanguageContext.jsx:279-281 | for a key defined in either table, the lookup in either language returns that language's non-empty text, never the key |
| `Language.SlovakLabel` | src/context/LanguageContext.jsx:128 | `t('language')` is "SK" in Slovak |
| `Language.EnglishLabel` | src/context/LanguageContext.jsx:254 | `t('language')` is "EN" in English |
| `Language.LanguageProvider.constructor` | src/context/LanguageContext.jsx:260-261 | a provider starts in Slovak with the storage it is given |
| `Language.LanguageProvider.RestoreSaved` | src/context/LanguageContext.jsx:263-269 | a stored "sk" or "en" becomes the language; a missing, empty or other value leaves it unchanged; storage is not written |
| `Language.LanguageProvider.ToggleLanguage` | src/context/LanguageContext.jsx:271-277 | the language flips, and the storage gains the new code under the key with no other entry changed |
| `Language.LanguageProvider.T` | src/context/LanguageContext.jsx:279-281 | the provider's lookup in its current language: the entry when present and non-empty, otherwise the key; empty only for the empty key |
| `Language.ToggleTwiceThenReload` | src/context/LanguageContext.jsx:263-274 | after two toggles the language is back, the store holds its code, and a fresh provider restoring from that store starts in the same language |
| `Easing.Ease` | src/components/Scene3D.jsx:258-260 | one step leaves (1 - k) of the signed offset to the target, and a coordinate at its target stays there |
| `Easing.EaseNoOvershoot` | src/components/Scene3D.jsx:258-260 | for k in [0, 1] the step lands between the position and the target, and the distance shrinks by exactly 1 - k |
| `Easing.EaseStaysWithin` | src/components/Scene3D.jsx:258-260 | an interval holding the position and the target also holds the eased position |
| `Easing.EaseNClosedForm` | src/components/Scene3D.jsx:258-260 | after n steps toward a fixed target, the offset is (1 - k)^n times the initial offset |
| `Easing.EaseNDistance` | src/components/Scene3D.jsx:258-260 | after n steps the distance is (1 - k)^n times the initial distance |
| `Easing.EaseNApproaches` | src/components/Scene3D.jsx:258-260 | no step moves farther from the target |
| `Easing.PowBernoulli` | src/components/Scene3D.jsx:258-260 | Bernoulli's inequality in the form (1 - k)^n (1 + n k) <= 1 for k in [0, 1] |
| `Easing.EaseNConverges` | src/components/Scene3D.jsx:258-260 | after n steps the distance times 1 + n k is at most the initial distance, so the coordinate converges to the target |
| `Helix.SampleY` | src/components/Scene3D.jsx:55-56 | sample 0 is at height -4, and every one of the 60 samples lies in [-4, 4) |
| `Helix.SampleAngle` | src/components/Scene3D.jsx:55-57 | sample i is at angle (i / 60) × 4π, two full turns over the 60 samples (a definition; its properties are in the lemmas below) |
| `Helix.Strand1Point` | src/components/Scene3D.jsx:55-64 | the point of strand 1 at sample i is at that sample's height, at radius 0.8 and the sample's angle |
| `Helix.Strand2Point` | src/components/Scene3D.jsx:55-70 | the point of strand 2 at sample i is at that sample's height, at radius 0.8 and the sample's angle plus π |
| `Helix.ConnectorsBefore` | src/components/Scene3D.jsx:72-77 | the connectors pushed before index n: one more, joining the two points of sample i, at every i that is a multiple of 4 (a definition; `Helix.ConnectorsBeforeShape` states its shape) |
| `Helix.SamplesClimb` | src/components/Scene3D.jsx:55-56 | heights rise by exactly 8/60 per sample, so they strictly increase |
| `Helix.BuildHelix` | src/components/Scene3D.jsx:48-81 | the loop's arrays are exactly the first 60 samples of each strand and the connectors of those samples; hence 60 points per strand, the i-th on each strand at its formula, and 15 connectors, the c-th joining point 4c of strand 1 to point 4c of strand 2 |
| `Helix.PrefixPoints` | src/components/Scene3D.jsx:54-70 | the j-th point appended to either strand is that strand's sample j |
| `Helix.ConnectorsBeforeShape` | src/components/Scene3D.jsx:72-77 | the samples before index n carry ceil(n/4) connectors, the c-th joining the two points of sample 4c |
| `Helix.ConnectorAt` | src/components/Scene3D.jsx:72-77 | a sample index i that is a multiple of 4 carries the connector at position i/4, which joins that sample's two points |
| `Helix.StrandsOpposite` | src/components/Scene3D.jsx:57-70 | strand 2's point is strand 1's point turned by π: x and z negated, same height |
| `Helix.OnCylinder` | src/components/Scene3D.jsx:57-70 | every point of both strands lies at radius 0.8 from the vertical axis |
| `Helix.PairSpan` | src/components/Scene3D.jsx:57-70 | the two points of a sample are the diameter (1.6) apart |
| `Helix.HelixBody.constructor` | src/components/Scene3D.jsx:46-81 | the helix's geometry is the one the builder describes, and it starts unrotated |
| `Helix.HelixBody.Frame` | src/components/Scene3D.jsx:83-87 | rotation about y becomes 0.2 × elapsed time; nothing else changes |
| `Bodies.PillClock` | src/components/Scene3D.jsx:13 | a pill's clock advances by delta × speed: speed 0 or delta 0 freezes it, and positive speed and delta move it forward |
| `Bodies.PillTiltX` | src/components/Scene3D.jsx:15 | the tilt about x stays within 0.3 of the base tilt |
| `Bodies.PillTiltZ` | src/components/Scene3D.jsx:16 | the tilt about z stays within 0.2 of the base tilt |
| `Bodies.PillBobY` | src/components/Scene3D.jsx:17 | the height stays within 0.3 of the base height |
| `Bodies.Pill.constructor` | src/components/Scene3D.jsx:8-10 | a pill starts at its base pose with its clock at the random phase given |
| `Bodies.Pill.Frame` | src/components/Scene3D.jsx:12-19 | the clock advances, and only rotation.x, rotation.z and position.y are written, from the new clock; the pill stays in its band with x, z and rotation.y untouched |
| `Bodies.Molecule.constructor` | src/components/Scene3D.jsx:165 | a molecule group sits at the position it is given, unrotated |
| `Bodies.Molecule.Frame` | src/components/Scene3D.jsx:140-145 | rotation about x and y become 0.3 and 0.2 × elapsed time; rotation about z is unchanged |
| `Bodies.OrbBobY` | src/components/Scene3D.jsx:211 | an orb's height stays within 0.2 of its base height, and it is the base height at time 0 |
| `Bodies.GlassOrb.constructor` | src/components/Scene3D.jsx:217 | an orb's mesh starts at the position it is given, which is its base position, inside its band |
| `Bodies.GlassOrb.Frame` | src/components/Scene3D.jsx:209-213 | only position.y is written, and it stays within its band |
| `Bodies.GroupSpin` | src/components/Scene3D.jsx:275 | the group spins at 0.05 × elapsed time, plus an offset of up to π/2 for scroll progress in [0, 1] that is 0 at progress 0 |
| `Bodies.SceneGroup.constructor` | src/components/Scene3D.jsx:291 | the scene group starts unrotated |
| `Bodies.SceneGroup.Frame` | src/components/Scene3D.jsx:272-277 | only rotation.y is written |
| `CameraControl.ClampProgress` | src/components/Scene3D.jsx:250 | the progress is in [0, 1]: 0 for a missing, zero or negative input, 1 for an input at or above 1, the input itself in between |
| `CameraControl.TargetZ` | src/components/Scene3D.jsx:253 | the target depth is in [8, 14]: 14 at progress 0 and 8 at progress 1 |
| `CameraControl.TargetX` | src/components/Scene3D.jsx:254 | the sideways target is within ±5, and 0 at both ends of the page |
| `CameraControl.TargetY` | src/components/Scene3D.jsx:255 | the target height is within ±2: 2 at the top and 0 at the bottom |
| `CameraControl.Target` | src/components/Scene3D.jsx:250-255 | every target lies in the box [-5, 5] × [-2, 2] × [8, 14] |
| `CameraControl.TargetEnds` | src/components/Scene3D.jsx:250-255 | the target is (0, 2, 14) with no progress or progress 0, and (0, 0, 8) at progress 1 |
| `CameraControl.Camera.constructor` | src/components/Scene3D.jsx:327 | the camera starts at (0, 0, 14) |
| `CameraControl.Camera.Frame` | src/components/Scene3D.jsx:249-263 | each coordinate takes one 2% easing step toward the clamped target, and the camera never leaves the target box |
| `CameraControl.FrameStep` | src/components/Scene3D.jsx:258-260 | one frame leaves exactly 0.98 of the distance on each axis without overshooting, and a coordinate at its target stays put |
| `Page.FeatureModalTitle` | src/App.jsx:126 | the selected feature's title when there is one and it is non-empty, otherwise "Feature Details"; never empty |
| `Page.ScrollProgress` | src/App.jsx:45-49 | never above 1; 0 when nothing can be scrolled; otherwise exactly scrollY over the scrollable height for every offset up to that height, negative ones included (no lower clamp), and 1 beyond it; non-negative for a non-negative offset |
| `Page.NoLowerClamp` | src/App.jsx:48 | scrolling 10 above the top of a page with 100 to scroll gives progress -0.1 |
| `Page.App.constructor` | src/App.jsx:13-23 | all five dialogs start closed, no feature is selected, the message is empty and the progress is 0 |
| `Page.App.OpenContact` | src/App.jsx:82-91 | the contact dialog opens; nothing else changes |
| `Page.App.CloseContact` | src/App.jsx:109 | the contact dialog closes; nothing else changes |
| `Page.App.OpenDemo` | src/App.jsx:86 | the demo dialog opens; nothing else changes |
| `Page.App.CloseDemo` | src/App.jsx:101 | the demo dialog closes; nothing else changes |
| `Page.App.OpenStory` | src/App.jsx:88 | the story dialog opens; nothing else changes |
| `Page.App.CloseStory` | src/App.jsx:117 | the story dialog closes; nothing else changes |
| `Page.App.LearnMore` | src/App.jsx:68-71 | the feature is selected and its dialog opens; nothing else changes |
| `Page.App.CloseFeature` | src/App.jsx:125 | the feature dialog closes and the selection is kept; nothing else changes |
| `Page.App.FeatureToContact` | src/App.jsx:135-138 | the feature dialog closes and the contact dialog opens; nothing else changes |
| `Page.App.SubmitContact` | src/App.jsx:61-65 | the contact dialog closes, the fixed confirmation is set and the success dialog opens; nothing else changes |
| `Page.App.CloseSuccess` | src/App.jsx:148-153 | the success dialog closes; nothing else changes |
| `Page.App.OnScroll` | src/App.jsx:45-49 | the progress becomes the scroll-progress formula of the new offsets; nothing else changes |
| `Page.App.FeatureTitle` | src/App.jsx:126 | the feature dialog's title, the selected title when non-empty, never empty |
| `Page.LearnMoreThenClose` | src/App.jsx:68-125 | after "learn more" and closing, the dialog is closed but the feature is still selected, and its title is still the one shown |
| `PageText.EnglishSuccessText` | src/App.jsx:63 | the hard-coded confirmation is exactly the English table's `successMessage` |
| `Cursor.CursorEffect.constructor` | src/App.jsx:171-174 | mouse and ring both start at (0, 0) |
| `Cursor.CursorEffect.MouseMove` | src/App.jsx:176-183 | the mouse position becomes the event's; the ring does not move |
| `Cursor.CursorEffect.Animate` | src/App.jsx:186-191 | the ring moves 10% of the way to the mouse on each axis, so each distance shrinks to exactly 0.9 of its value; the mouse is unchanged |
| `Cursor.RingCatchesUp` | src/App.jsx:186-191 | with the mouse at rest, n frames leave exactly 0.9^n of the distance, 0.9^n (1 + n/10) <= 1, and the distance left times 1 + n/10 is at most the initial distance |

The class invariants (`Valid`) are preserved by every method that changes state.
`Page.App.Valid` says the feature dialog is open only with a feature selected, and the
message is empty or the fixed confirmation. `Bodies.Pill.Valid` and
`Bodies.GlassOrb.Valid` say each body keeps to its band. `CameraControl.Camera.Valid`
says the camera stays in the target box.

## Left out

- Rendering is not modelled because it is foreign library code. This covers meshes,
  materials, the tube curves through the strand points, the connector quaternions and
  lengths, the molecule's atoms and bonds, fog and lights, the drei `Float` wobble and
  the `Sparkles` particle field.
- The scene composition is not modelled: which pills, molecules and orbs appear, with
  what base pose, scale, colour and speed. The model takes each body's base pose and
  speed as constructor parameters.
- `Math.sin`, `Math.cos` and `Math.PI` are abstract. Properties that need their laws
  assume `Trig.Bounded` or `Trig.Laws`.
- IEEE double rounding and NaN are not modelled: all arithmetic is over exact reals. In
  particular, `scrollProgress || 0` treats NaN as 0, and the model has no NaN.
- The damping is per frame, as the source has it, and is not scaled by frame time.
- `Math.random()` (the pill's initial phase) is the constructor parameter `phase`, in
  [0, 100).
- The camera's `lookAt(0, 0, 0)` is not state of the model. The camera's orientation
  is fixed by it and is not tracked.
- Browser input and output are not modelled:
  - Lenis smooth scrolling and its animation loop;
  - the `requestAnimationFrame` loops, and the renderer's frame loop that calls each
    `Frame` method;
  - event listener registration and removal;
  - the style and class writes of the cursor and its dot;
  - the hover classes set through `querySelectorAll`.
- The dot of the custom cursor is drawn at the mouse. It holds no state of its own.
- The cursor effect's early return when its elements are not mounted is not
  modelled. Like every `if (ref.current)` guard in the scene, the model assumes the
  elements exist.
- `document.documentElement.lang` is not modelled, and neither is the real
  `localStorage`. Storage is a map field of the provider.
- React context, state and hook plumbing are not modelled, and neither is the
  `useLanguage` guard. The provider is a plain object, and the page is a class whose
  handlers update its fields.
- A JavaScript object also inherits keys (such as `toString`) that `t` would return as
  non-strings. The model's tables hold only the keys written in the source.
- The presentational components (the modal, navigation bar, hero, features, about and
  contact sections) are static markup and transitions. The feature record keeps only
  the four fields the feature dialog reads.
