# BannerBae core in Dafny

BannerBae is a LinkedIn-banner editor. A configuration record holds the texts,
show flags, colours, anchor positions, dimensions, font, template id and
decorative-shape settings. A preview effect paints the record onto a canvas.
The editor changes the record one field at a time, by overlaying one of six
built-in templates, or by picking a colour palette.

This project models that core as pure functions.

- **Types** (`types.dfy`): the `BannerConfig` record, the `Position` and
  `ShapesStyle` enumerations, and a key-indexed view of the record. `Key` has
  one constructor per field and `Value` is the union of the field types.
  `Merge` overlays a partial record (`Partial<BannerConfig>`) onto a
  configuration.
- **Canvas** (`canvas.dfy`): the canvas as a log of draw commands, not pixels.
  Two pieces of context state persist between calls: the global alpha and the
  text shadow. `Replay` stamps every draw with the state in force when it
  runs. A freshly resized canvas starts at alpha 1 with no shadow.
- **Layout** (`layout.dfy`): the three position switches of the render effect.
  Each maps (anchor, width, height, font size) to a baseline point and an
  alignment.
- **TextStack** (`text_stack.dfy`): the gated, stacked text blocks. The info
  block steps down and the contact block steps up.
- **Patterns** (`patterns.dfy`): `drawDecorativeShapes`, all five styles.
  `Math.random`, `Math.sin` and `Math.cos` are passed in as parameters.
- **Renderer** (`renderer.dfy`): the render effect as one list of canvas
  operations, replayed into a command log.
- **Templates** (`templates.dfy`): the six-entry template table, value for
  value.
- **Editor** (`editor.dfy`): these operations of the generator component:
  - `handleConfigChange`;
  - runs of such updates;
  - `applyTemplate` and the Reset button;
  - the initial configuration;
  - the three dimension sliders.
- **Palette** (`palette.dfy`): the colour panel, meaning the four colour
  inputs and the palette selection. The palette table is a parameter.

Arithmetic is exact (`real` for coordinates, `int` for the dimensions).

The code does not keep every baseline on the canvas. At the largest font and
the smallest height, a bottom info anchor puts the first info line above the
top edge (`Layout.InfoBottomCanLeaveCanvas`). So at the font extremes, not
every anchor keeps its baseline on the canvas.

## Model

| member | source | states |
|---|---|---|
| `Types.Merge` | lib/types.ts:40-44 | Overlaying a well-typed partial record gives every field it sets that value. Every other field keeps the configuration's value. |
| `Types.Extensionality` | lib/types.ts:11-38 | Two configurations that agree on every field are equal: the record is exactly its 26 fields. |
| `Types.IndexOf` | components/banner-generator.tsx:90 | A lookup by id fails iff no entry has the id. Otherwise it returns the first position holding it. |
| `Layout.Padding` | components/banner-preview.tsx:45 | The margin is at least 30 and at least 0.8 of the font size, and equals one of the two. |
| `Layout.NameAnchor` | components/banner-preview.tsx:54-80 | Follows the shared column rule: left anchors at the padding, right anchors at width minus padding, centre at half the width, with the matching alignment. Baselines: top is padding + fontSize, centre is height/2, bottom is height − padding − fontSize. Inside the slider ranges, x keeps the padding from both sides and y is strictly inside the canvas. |
| `Layout.InfoAnchor` | components/banner-preview.tsx:100-126 | Same column rule. Baselines: top is padding + 2·fontSize, centre is height/2 + lineHeight, bottom is height − padding − 3·fontSize. Inside the slider ranges, x keeps the padding from both sides. |
| `Layout.ContactAnchor` | components/banner-preview.tsx:156-182 | Same column rule. Baselines: top is padding + 4·fontSize; centre and bottom are both height − padding. Inside the slider ranges, x keeps the padding from both sides. |
| `Layout.CenterDiffersPerRole` | components/banner-preview.tsx:54-182 | "center" is a different point per role: the name sits above both the info block and the contact block. |
| `Layout.InfoBottomCanLeaveCanvas` | components/banner-preview.tsx:116-119 | At width 800, height 200 and font size 72, a bottom info anchor has a negative baseline. |
| `TextStack.Stack` | components/banner-preview.tsx:131-150 | A stacked block draws one line per candidate that passes its gate, and no other lines. |
| `TextStack.StackPlacement` | components/banner-preview.tsx:131-150 | The k-th drawn line is the k-th candidate that passes its gate, exactly k steps from the start, so skipped lines leave no gap. |
| `TextStack.SameShownSameStack` | components/banner-preview.tsx:131-150 | Candidate lists with the same shown texts stack into the same lines. |
| `Canvas.Replay` | components/banner-preview.tsx:83-94 | The log is never longer than the op list. A run of draws alone logs one command per draw, in order, each carrying the alpha and shadow in force when the run starts. |
| `Canvas.ReplayLogsDraws` | components/banner-preview.tsx:83-94 | State changes (alpha, shadow) log nothing. Every op list logs exactly one command per draw, in order, with that draw's mark and colour. |
| `Canvas.ReplayAppend` | components/banner-preview.tsx:30-202 | Running two op lists in sequence is the first run's log followed by the second run from the state the first left. |
| `Patterns.LoopIndicesSpec` | components/banner-preview.tsx:260 | A `for (i = start; i < limit; i += step)` loop visits exactly start + k·step for consecutive k, stopping at the first index at or past the limit. |
| `Patterns.GeometricOps` | components/banner-preview.tsx:215-238 | `geometric` draws three shapes, none of them text. The first is a primary wedge (0,0),(0.2w,0),(0,0.3h). The second is an accent wedge (w,h),(0.8w,h),(w,0.7h). The third is a secondary disc centred at (0.8w,0.2h) with radius 0.1h. On any canvas no more than twice as tall as it is wide, every shape stays on the canvas. |
| `Patterns.CircleOps` | components/banner-preview.tsx:240-253 | `circles` draws exactly five discs: primary at even index, accent at odd. When the random values lie in [0,1), the radius is in [20, 20 + 0.2·height) and the centre is on the canvas. |
| `Patterns.LinesOps` | components/banner-preview.tsx:255-274 | `lines` draws one stroke per visit of the 40-pixel loop, then one per visit of the 80-pixel loop. The first group is primary and the second accent; there is no text. |
| `Patterns.LinesLayout` | components/banner-preview.tsx:255-274 | `lines` draws ceil(w/40) primary strokes (40k,0)→(40k+h,h), then ceil(w/80) accent strokes (80k,h)→(80k+h,0). |
| `Patterns.DotsOps` | components/banner-preview.tsx:276-290 | `dots` draws one dot per pair of visits of the two 30-pixel loops, and no text. |
| `Patterns.DotsGrid` | components/banner-preview.tsx:276-290 | `dots` draws, column by column, a dot of radius 4 at every (30a, 30b) inside the canvas. It is primary exactly when a + b is even. |
| `Patterns.CheckerParity` | components/banner-preview.tsx:284 | (30a + 30b) mod 60 = 0 exactly when a + b is even, so the colour test is a checkerboard. |
| `Patterns.WavesOps` | components/banner-preview.tsx:292-317 | `waves` draws one stroke per row 20 + 40k below the height, then one per row 40 + 40k. Every stroke has width 2. The first group is primary, through the points (x, row + 15·sin(0.02x)). The second is accent, through (x, row + 10·cos(0.02x)). x runs over 0, 10, 20, … below the width. There is no text. |
| `Patterns.WaveAmplitude` | components/banner-preview.tsx:300-302 | With a sine bounded by 1, each wave point stays within its amplitude of its row. |
| `Patterns.PatternOps` | components/banner-preview.tsx:214-318 | Whatever the style, the pattern only draws and never draws text. The style fixes the count: 3 for geometric, 5 for circles, and the loop counts of lines, dots and waves. |
| `Patterns.DecorativeShapes` | components/banner-preview.tsx:212-320 | The decoration sets alpha to 0.1 first and back to 1.0 last, and in between only draws. |
| `Patterns.DeterministicPatterns` | components/banner-preview.tsx:214-318 | Geometric, lines and dots do not depend on the numeric sources. Waves depends only on sin and cos. |
| `Renderer.Render` | components/banner-preview.tsx:19-203 | The log is, in order: the background at full alpha; the decoration at alpha 0.1; the name with the drop shadow; the info lines; the contact lines; the accent rule. Every stage but the name is drawn without shadow. |
| `Renderer.InitialShowsEverything` | components/banner-generator.tsx:39-66 | The banner the editor opens with shows all four info lines and both contact lines. With the geometric decoration, its log has twelve commands. |
| `Renderer.RenderLength` | components/banner-preview.tsx:30-202 | The log has 3 + the decoration + the shown info lines + the shown contact lines commands. |
| `Renderer.RenderEnds` | components/banner-preview.tsx:31-202 | The first command fills (0,0,width,height) in the background colour. The last strokes (0,10)→(width,10) at width 4 in the accent colour. The name is drawn right after the decoration in the primary colour, with no gate. |
| `Renderer.RenderPens` | components/banner-preview.tsx:82-94 | Only the name command carries a shadow. Alpha is 0.1 exactly on the decoration commands and 1.0 on all others. Every text is drawn at alpha 1.0 and no earlier than the name. |
| `Renderer.FadedDecoration` | components/banner-preview.tsx:212-320 | Every decoration command is drawn at alpha 0.1, without shadow, and none is text. |
| `Renderer.InfoPlacement` | components/banner-preview.tsx:128-150 | The info stage draws the k-th shown info text at infoY + k·0.8·lineHeight, at the info anchor's x and alignment, at 0.7 of the font size, in the secondary colour. |
| `Renderer.ContactPlacement` | components/banner-preview.tsx:184-194 | The contact stage draws the k-th shown contact text at contactY − k·0.7·lineHeight, at 0.6 of the font size, in the accent colour. |
| `Renderer.InfoTexts` | components/banner-preview.tsx:133-150 | The info texts are designation, company, skills and tagline, in that order. Each is kept iff its flag is on and it is non-empty. Skills needs only non-emptiness. |
| `Renderer.ContactTexts` | components/banner-preview.tsx:187-194 | The contact texts are the email, then the phone, each kept iff its flag is on and it is non-empty. |
| `Renderer.PhoneBaseline` | components/banner-preview.tsx:187-194 | A drawn phone is the last contact command. It sits at anchor − 0.7·lineHeight when the email was drawn, and on the anchor otherwise. |
| `Renderer.LookDecidesRender` | components/banner-preview.tsx:19-203 | Two configurations with the same look render the same log. The look is the name, the shown texts, colours, dimensions, anchors, font, and the shapes setting. |
| `Renderer.HiddenInfoKeepsLook` | components/banner-preview.tsx:133-150 | Changing a hidden designation, company or tagline does not change the look. |
| `Renderer.HiddenContactKeepsLook` | components/banner-preview.tsx:187-194 | Changing a hidden email or phone does not change the look. |
| `Renderer.UnusedFieldsKeepLook` | components/banner-preview.tsx:34-37 | The template id never affects the look. The pattern style does not affect it while shapes are off. |
| `Renderer.EnvOnlyForPatterns` | components/banner-preview.tsx:240-317 | The random source matters only to a shown `circles` pattern. Sine and cosine matter only to a shown `waves` pattern. |
| `Templates.Preset` | lib/templates.ts:9-19 | A template row's partial configuration sets exactly the nine presentation fields, to the row's values. |
| `Templates.DefaultTemplates` | lib/templates.ts:5-96 | The table has six templates with ids professional, modern, creative, minimal, bold and tech, in order. Each is well typed, sets exactly the nine presentation fields, and has a font size in [16, 72]. |
| `Templates.DistinctIds` | lib/templates.ts:5-96 | No two templates share an id. |
| `Templates.TemplatesSparePresentationOnly` | lib/templates.ts:9-94 | No template sets a text, a show flag, a dimension, a shape setting or the template id. |
| `Templates.MinimalSharesCenter` | lib/templates.ts:59-60 | "minimal" puts both the name and the info block at the centre. |
| `Editor.ChangeField` | components/banner-generator.tsx:76-78 | A single-key update gives field k the new value and leaves every other field unchanged. |
| `Editor.LastChangeWins` | components/banner-generator.tsx:76-78 | Updating a field twice is updating it once with the second value. |
| `Editor.ChangeToSameIsIdentity` | components/banner-generator.tsx:76-78 | Writing a field's current value is the identity. |
| `Editor.DistinctChangesCommute` | components/banner-generator.tsx:76-78 | Updates to different fields commute. |
| `Editor.ApplyChanges` | components/banner-generator.tsx:76-78 | After a run of functional updates, each field holds the value of the last update to it, or its old value when no update touches it. |
| `Editor.LastWriteSpec` | components/banner-generator.tsx:76-78 | An untouched field keeps its value. A touched field holds a value one of the updates wrote, whatever it held before. |
| `Editor.ApplyChangesTwice` | components/banner-generator.tsx:76-78 | Running the same updates twice is running them once. |
| `Editor.FindTemplate` | components/banner-generator.tsx:90 | The lookup fails iff no template has the id. Otherwise it returns the first position with that id. |
| `Editor.ApplyFrom` | components/banner-generator.tsx:89-98 | An id no template carries leaves the configuration unchanged. |
| `Editor.ApplyKnown` | components/banner-generator.tsx:91-96 | A known template overwrites exactly the fields its partial configuration sets, and the template id becomes the requested id even if the template sets one. Every other field keeps its value. |
| `Editor.ApplyFromRecordsId` | components/banner-generator.tsx:94-95 | After a successful lookup the recorded template id is the requested id. Otherwise it is unchanged. |
| `Editor.ApplyFromTwice` | components/banner-generator.tsx:89-98 | Applying the same template twice equals applying it once. |
| `Editor.ApplyTemplate` | components/banner-generator.tsx:89-98 | On the built-in table, an unknown id leaves the configuration unchanged. |
| `Editor.ApplyTemplateKnown` | components/banner-generator.tsx:89-98 | A built-in id overwrites exactly the fields that template's configuration sets with its values, records the id, and leaves every other field as it was. |
| `Editor.ApplyTemplateKeepsContent` | components/banner-generator.tsx:89-98 | A built-in template keeps every text, show flag, dimension and shape setting. |
| `Editor.Reset` | components/banner-generator.tsx:796 | Reset keeps the recorded template id. With an unknown id it changes nothing. |
| `Editor.ResetRestores` | components/banner-generator.tsx:796 | With a built-in recorded id, Reset puts back every field that template's configuration sets, keeps the id, and leaves every other field as it was. |
| `Editor.ResetTwice` | components/banner-generator.tsx:796 | Pressing Reset twice equals pressing it once. |
| `Editor.ApplyHeldTemplate` | components/banner-generator.tsx:89-98 | Applying a template whose values and id a configuration already holds is the identity. |
| `Editor.InitialInDomain` | components/banner-generator.tsx:39-66 | The initial width, height and font size are values their sliders offer. |
| `Editor.InitialCarriesProfessional` | lib/templates.ts:6-20 | The first template is "professional", and the initial configuration already holds each of its nine values. |
| `Editor.ProfessionalIsInitial` | components/banner-generator.tsx:39-66 | Applying "professional" to the initial configuration, or pressing Reset at start, is the identity. The initial configuration is inside the slider ranges. |
| `Editor.Slide` | components/banner-generator.tsx:423-480 | Moving the font-size, width or height slider to a value it offers sets that field and nothing else, and keeps the configuration inside the slider ranges. |
| `Editor.TemplatesKeepDomain` | lib/templates.ts:5-96 | Applying any built-in template keeps the configuration inside the slider ranges. |
| `Palette.ColorInput` | components/color-palette.tsx:56-120 | Each colour input changes only its own colour field, to the picked colour. |
| `Palette.SlotsCoverColorKeys` | components/color-palette.tsx:56-120 | The four inputs report to exactly the four colour fields. |
| `Palette.FindPalette` | components/color-palette.tsx:29 | The lookup fails iff no palette has the id. Otherwise it returns the first position with that id. |
| `Palette.PaletteChanges` | components/color-palette.tsx:32-35 | A palette issues exactly four updates: primary, secondary, accent, background, each with the palette's colour. |
| `Palette.Updates` | components/color-palette.tsx:29-36 | An unknown id issues no update, and only an unknown id does. |
| `Palette.SelectPalette` | components/color-palette.tsx:27-37 | The clicked id is recorded whether or not the lookup succeeds. An unknown id changes no field. No field outside the four colours ever changes. |
| `Palette.PaletteWrites` | components/color-palette.tsx:32-35 | After a palette's updates, each colour field holds the palette's colour. Every other field holds what it held. |
| `Palette.SelectKnownPalette` | components/color-palette.tsx:31-36 | Selecting a known id sets each colour field to the colour of the first palette with that id. |
| `Palette.PaletteIsFourInputs` | components/color-palette.tsx:32-35 | A palette's updates equal the four colour inputs reporting the palette's colours in order. |
| `Palette.SelectPaletteTwice` | components/color-palette.tsx:27-37 | Selecting the same palette twice equals selecting it once. |

## Left out

- Rasterisation: pixels are left out. This covers font metrics, shadow blur and alpha compositing. The model stops at the command log, and colours and font families are opaque strings.
- Patterns.CircleOps: `Math.random` is a parameter. The bounds are proved only for values in [0, 1), because its real values cannot be modelled.
- Patterns.WavesOps: `Math.sin` and `Math.cos` are parameters, because floating-point trigonometry is out of scope. The strokes are stated through whatever functions are passed in, and `Patterns.WaveAmplitude` bounds them for any sine bounded by 1.
- The early returns when the canvas or its 2D context is missing (banner-preview.tsx:20-24) are browser plumbing and are not modelled.
- The canvas resize (banner-preview.tsx:27-28) is modelled only as starting from a fresh context.
- `handleDownload` is left out because it is browser I/O. So are the JSX, the tabs, `isMounted` and the position-preview grid.
- The palette table (lib/color-palettes) is not part of this model; it is a parameter of every palette operation.
- The font list (lib/fonts) is not part of this model; the font family is an opaque string.
- Coordinates, sizes and alpha are exact `real` numbers, not IEEE doubles. The source's running baselines (`y += lineHeight * 0.8`, `y -= lineHeight * 0.7`) accumulate rounding error. The model's `y + k·step` does not.
- Types.BannerConfig: width, height and fontSize are integers. Every writer produces whole numbers: the initial configuration, the templates and the step-1 sliders. Fractional values are not modelled.
- Editor.ChangeField: requires the value to have the field's type. The handler accepts `any`, but every caller passes a value of the field's type.
- Editor.ApplyChanges: assumes the four `onColorChange` calls of one click reach the state one after another. This is how React composes functional updates; the batching itself is not modelled.
- Editor.Slide: covers only values the slider offers. The slider widget's own clamping and keyboard handling are not modelled.
- Layout.NameAnchor: the bound that keeps y inside the canvas is stated for the name anchor only. The info and contact blocks can leave the canvas, as `Layout.InfoBottomCanLeaveCanvas` shows.
