# Flipbox renderer model

A Dafny model of the renderer behind the Ultimate Flipbox Addon's Elementor widget. The widget shows a list of flip cards. Each card has a front side and, when switched on, a back side. A side shows up to four elements in a configurable order: an icon (or image, or text), a title, a description and a button.

The markup exists twice:

- **The frontend copy** is PHP that echoes HTML on the server. Its entry points are `Ufae_Frontend_Output::render` and `Ufae_Frontend_Loop`.
- **The editor copy** is PHP that prints an Underscore template. Elementor's editor evaluates that template in JavaScript for the live preview. Its entry points are `Ufae_Editor_Output::render` and `Ufae_Editor_Loop`.

The model follows both copies branch by branch:

- **Settings and items** are maps from keys to `Value`s (text, integer, object or list). PHP `isset`/`empty` and JavaScript truthiness are each defined on their own terms (`Values`).
- **Output** is the sequence of markup fragments the code writes. Interpolated values are tagged with their escaper (`esc_html`, `esc_attr`, `esc_url`, `{{ }}`) or marked raw (`{{{ }}}`, or handed to `addRenderAttribute` as is). `esc_html`, PHP `trim`, `explode` and the `\b(icon|title|desc|button)\b` test are given exact definitions, because their results feed the order logic (`Strings`, `ElementOrder`).
- **Classes:**
  - `FrontendLoop.FrontendLoop` holds the two side orders and the current item.
  - `FrontendOutput.FrontendOutput` holds the loop object and the container's render-attribute bag.
  - `EditorLoop.EditorLoop` and `EditorOutput.EditorOutput` play the same roles for the template.
  - `Markup.Page` is the output stream.
  - `Markup.RenderAttributes` is the render-attribute bag.

  Every method is proved to append exactly the fragments given by a specification function. Properties are then proved about those functions.

What is proved:

- **Element order** (`ElementOrder`):
  - Both copies resolve a side's `element_position` setting by one reference definition. The frontend trims the setting first; the editor does not.
  - The result is always a permutation of the four elements: listed tokens first, then the missing ones in the predefined order.
  - Writing an order out and reading it back gives the same order.
- **Page structure** (`Outline`, `Blocks`, `Shell`):
  - Every frontend page, and every editor page whose raw values carry no markup, is well nested.
  - There is one card per list item, with the item's id.
  - Each card has its sides as the curtain animation and the back switch decide: front, two front duplicates, back.
  - Each side holds exactly the enabled, non-empty elements, in the resolved order, each once.
  - The frontend copy interpolates nothing unescaped.
- **Differences between the copies** (`Agreement`):
  - The two copies produce the same card, side and element structure, and container attributes with the same text, under stated conditions on the settings.
  - Where those conditions fail, concrete settings show them disagreeing. Examples: `"0"`, an empty image object, a position string with a leading blank, an empty slide count.
- **Raw interpolation in the editor:** exactly which item values the editor interpolates raw, element by element and in order (`EditorOutline`).

## Model

| member | source | states |
|---|---|---|
| Values.TruthinessDiffers | widget/ufae-editor/class-ufae-editor-loop.php:205 | PHP `isset && !empty` and JavaScript truthiness disagree exactly on "0", the empty object and the empty list |
| Values.SameText | widget/ufae-editor/class-ufae-editor-loop.php:41 | text and integers print the same in PHP and in a template interpolation |
| Strings.Trim | widget/ufae-frontend/class-ufae-frontend-loop.php:260 | `trim` leaves no strippable character at either end |
| Strings.LTrimCutsBlanks | widget/ufae-frontend/class-ufae-frontend-loop.php:260 | `ltrim` keeps a suffix of its input and the part it cuts consists of strippable characters only |
| Strings.RTrimCutsBlanks | widget/ufae-frontend/class-ufae-frontend-loop.php:260 | `rtrim` keeps a prefix of its input and the part it cuts consists of strippable characters only |
| Strings.TrimIsMiddle | widget/ufae-frontend/class-ufae-frontend-loop.php:260 | `trim` returns the middle of its input, cutting a run of strippable characters at each end and nothing else |
| Strings.TrimOfTrimmed | widget/ufae-frontend/class-ufae-frontend-loop.php:260 | trimming text with no blank at either end returns it unchanged |
| Strings.EscHtmlSafe | widget/ufae-frontend/class-ufae-frontend-loop.php:260 | `esc_html` output contains no `<`, `>`, `"` or `'` |
| Strings.EscHtmlConcat | widget/ufae-frontend/class-ufae-frontend-loop.php:260 | `esc_html` works character by character (it distributes over concatenation) |
| Strings.SplitConcat | widget/ufae-frontend/class-ufae-frontend-loop.php:264 | `explode` on a separator between two texts gives the pieces of each side |
| Strings.SplitJoin | widget/ufae-frontend/class-ufae-frontend-loop.php:264 | `explode(',', implode(',', xs))` gives `xs` back when no piece contains a comma |
| Strings.SplitEscHtml | widget/ufae-frontend/class-ufae-frontend-loop.php:260-264 | splitting the escaped setting on commas gives the escaped pieces of the raw setting |
| Strings.TrimEscapedPrefix | widget/ufae-frontend/class-ufae-frontend-loop.php:239-241 | trimming the escaped custom attribute only strips blanks before its name |
| ElementOrder.Parse | widget/ufae-frontend/class-ufae-frontend-loop.php:267 | a piece is an element exactly when it is that element's name (`in_array(..., true)`) |
| ElementOrder.Dedup | widget/ufae-frontend/class-ufae-frontend-loop.php:264 | `array_unique` keeps the same members, each once |
| ElementOrder.FirstIndex | widget/ufae-frontend/class-ufae-frontend-loop.php:264 | the position of a value's first occurrence |
| ElementOrder.DedupKeepsFirstOrder | widget/ufae-frontend/class-ufae-frontend-loop.php:264 | `array_unique` and `new Set` keep values in the order of their first occurrences |
| ElementOrder.KeepTokensMembers | widget/ufae-frontend/class-ufae-frontend-loop.php:266-270 | an element is kept exactly when its name is one of the pieces |
| ElementOrder.KeepTokensDedup | widget/ufae-frontend/class-ufae-frontend-loop.php:264-270 | removing duplicate pieces before or after filtering to elements gives the same list |
| ElementOrder.KnownElements | widget/ufae-frontend/class-ufae-frontend-loop.php:266-270 | the loop that keeps the predefined names computes the reference filter |
| ElementOrder.MissingFromMembers | widget/ufae-frontend/class-ufae-frontend-loop.php:272 | `array_diff` against the predefined order keeps exactly the elements not yet listed |
| ElementOrder.CompletedIsPermutation | widget/ufae-frontend/class-ufae-frontend-loop.php:272 | a listed prefix without duplicates, completed by `array_merge`, holds each element exactly once |
| ElementOrder.CoreOrderIsPermutation | widget/ufae-frontend/class-ufae-frontend-loop.php:263-275 | every position string resolves to a permutation of icon, title, desc, button |
| ElementOrder.ParseEscHtml | widget/ufae-frontend/class-ufae-frontend-loop.php:260 | escaping a piece never makes or unmakes an element name |
| ElementOrder.CoreOrderEscHtml | widget/ufae-frontend/class-ufae-frontend-loop.php:260 | escaping the position string before resolving it does not change the order |
| ElementOrder.NoWordTokenGivesDefault | widget/ufae-frontend/class-ufae-frontend-loop.php:263 | a string without an element name as a whole word resolves to the predefined order |
| ElementOrder.ShortHasNoWordToken | widget/ufae-frontend/class-ufae-frontend-loop.php:263 | text shorter than four characters (such as "" and "0") contains no element name |
| ElementOrder.EmptyGivesDefault | widget/ufae-frontend/class-ufae-frontend-loop.php:263 | an empty position string gives the predefined order |
| ElementOrder.DuplicatesAndUnknownsExample | widget/ufae-frontend/class-ufae-frontend-loop.php:264-272 | "button,button,x" with an unknown x resolves to button, icon, title, desc |
| ElementOrder.CompletedButton | widget/ufae-frontend/class-ufae-frontend-loop.php:272 | the order that lists only the button is completed to button, icon, title, desc |
| ElementOrder.MissingButton | widget/ufae-editor/class-ufae-editor-loop.php:115-119 | appending the predefined elements not yet listed after "button" appends icon, title, desc |
| ElementOrder.LeadingSpaceNotToken | widget/ufae-frontend/class-ufae-frontend-loop.php:267 | a piece starting with a blank (as after ", ") is never an element name |
| ElementOrder.SpacedPairIgnoresSecond | widget/ufae-frontend/class-ufae-frontend-loop.php:264-270 | in "a, b" only the first element counts and the rest follow in the predefined order |
| ElementOrder.KeepTokensOfNames | widget/ufae-frontend/class-ufae-frontend-loop.php:266-270 | the names of an order filter back to that order |
| ElementOrder.FormatThenResolve | widget/ufae-frontend/class-ufae-frontend-loop.php:254-277 | writing any order as a comma-separated list and resolving it gives the same order back |
| Markup.Page.Echo | widget/ufae-frontend/class-ufae-frontend-output.php:91 | echoing appends the fragments to the output, and nothing else changes |
| Markup.RenderAttributes.Add | widget/ufae-frontend/class-ufae-frontend-output.php:66-77 | `add_render_attribute` merges each key's values into the bag |
| Markup.AddEntriesLookup | widget/ufae-frontend/class-ufae-frontend-output.php:79-89 | after a batch of additions, each key holds its old values followed by the added ones in order |
| Markup.AddEntriesUnique | widget/ufae-frontend/class-ufae-frontend-output.php:79-89 | keys stay unique in a render-attribute bag |
| Markup.RawValuesEmpty | widget/ufae-editor/class-ufae-editor-loop.php:350 | a fragment list interpolates nothing raw exactly when every value in it is escaped |
| Blocks.CardPlanSize | widget/ufae-frontend/class-ufae-frontend-loop.php:94-101 | a card has one side without the back, four with curtain and back, else two |
| Blocks.PlanOutline | widget/ufae-frontend/class-ufae-frontend-loop.php:94-101 | the sides of a card appear in the order front, curtain duplicates, back, each with its own elements, well nested |
| Blocks.SideWrappedMarks | widget/ufae-frontend/class-ufae-frontend-loop.php:120-150 | a side's three wrappers around its elements make one side of that kind, nested, with the elements unchanged |
| Blocks.CardWrappedMarks | widget/ufae-frontend/class-ufae-frontend-loop.php:91-104 | a card's three wrappers make one card with the item's id around its sides |
| Blocks.ElementBlock | widget/ufae-frontend/class-ufae-frontend-loop.php:166-182 | an element's wrapper around plain, balanced content makes one block of that element |
| Shell.PlaceholderLevels | widget/ufae-frontend/class-ufae-frontend-output.php:106-110 | the three slider placeholders are empty siblings |
| Shell.SliderLevels | widget/ufae-frontend/class-ufae-frontend-output.php:93-103 | the horizontal layout nests the cards two levels deeper inside the swiper wrappers |
| Shell.ShellLevels | widget/ufae-frontend/class-ufae-frontend-output.php:91-112 | the page is the wrapper, then the container (with placeholders after it when horizontal), then the cards at a fixed depth |
| Shell.ShellMarks | widget/ufae-frontend/class-ufae-frontend-output.php:91-112 | the shell adds no card, side or element of its own |
| Shell.ShellEscaped | widget/ufae-frontend/class-ufae-frontend-output.php:91-112 | the shell interpolates nothing raw around escaped cards |
| FrontendLoop.ArrayFilter | widget/ufae-frontend/class-ufae-frontend-loop.php:264 | `array_filter` keeps exactly the pieces other than "" and "0" |
| FrontendLoop.KeepTokensArrayFilter | widget/ufae-frontend/class-ufae-frontend-loop.php:264-270 | dropping "" and "0" never changes which elements are kept |
| FrontendLoop.GuardedOrder | widget/ufae-frontend/class-ufae-frontend-loop.php:263-275 | with or without the guard, the stored order is the reference resolution of the escaped string |
| FrontendLoop.FrontendOrderResolves | widget/ufae-frontend/class-ufae-frontend-loop.php:254-277 | a side's order is the reference resolution of the trimmed setting and is a permutation |
| FrontendLoop.FrontendOrderOwnSetting | widget/ufae-frontend/class-ufae-frontend-loop.php:259 | a side's order depends on its own position setting only |
| FrontendLoop.ButtonEnableYes | widget/ufae-frontend/class-ufae-frontend-loop.php:226-229 | the escaped switch equals 'yes' exactly when the item stores the text 'yes' |
| FrontendLoop.CustomAttributeText | widget/ufae-frontend/class-ufae-frontend-loop.php:239-241 | the trimmed custom attribute is the escaped name without leading blanks, then `="value"` |
| FrontendLoop.FrontShown | widget/ufae-frontend/class-ufae-frontend-loop.php:124-146 | an element is shown exactly when it is in the order, switched on and has content |
| FrontendLoop.FrontendLoop.constructor | widget/ufae-frontend/class-ufae-frontend-loop.php:55-73 | both side orders start as the predefined order and are then updated from the settings |
| FrontendLoop.FrontendLoop.UpdateElementOrder | widget/ufae-frontend/class-ufae-frontend-loop.php:254-277 | each side's order is replaced when its setting passes the guard and kept otherwise |
| FrontendLoop.FrontendLoop.UpdateSideOrder | widget/ufae-frontend/class-ufae-frontend-loop.php:259-275 | one pass of the side loop updates that side's order only |
| FrontendLoop.FrontendLoop.FlipboxItems | widget/ufae-frontend/class-ufae-frontend-loop.php:82-105 | one item appends exactly that item's card, and the orders are unchanged |
| FrontendLoop.FrontendLoop.RenderCardSides | widget/ufae-frontend/class-ufae-frontend-loop.php:94-101 | the side calls append the front, the two curtain duplicates when the animation is curtain and the back is on, then the back when on |
| FrontendLoop.FrontendLoop.RenderSidesContent | widget/ufae-frontend/class-ufae-frontend-loop.php:115-151 | a side is its three wrappers around its enabled elements in the side's order |
| FrontendLoop.FrontendLoop.RenderElements | widget/ufae-frontend/class-ufae-frontend-loop.php:124-146 | the loop appends the blocks of the enabled elements in order |
| FrontendLoop.FrontendLoop.RenderElement | widget/ufae-frontend/class-ufae-frontend-loop.php:132-145 | the switch dispatches to the element's renderer |
| FrontendLoop.FrontendLoop.RenderIcon | widget/ufae-frontend/class-ufae-frontend-loop.php:160-185 | icon, image with a URL, or text, in the item's icon type, else nothing |
| FrontendLoop.FrontendLoop.RenderTitle | widget/ufae-frontend/class-ufae-frontend-loop.php:194-201 | a filled title is written in the title tag (h3 by default), escaped |
| FrontendLoop.FrontendLoop.RenderDesc | widget/ufae-frontend/class-ufae-frontend-loop.php:210-216 | a filled description is written as an escaped paragraph |
| FrontendLoop.FrontendLoop.RenderButton | widget/ufae-frontend/class-ufae-frontend-loop.php:225-247 | a button with text and switch 'yes' is a link when a URL is filled, else a plain button |
| FrontendOutline.FrontIconOutline | widget/ufae-frontend/class-ufae-frontend-loop.php:160-185 | the icon block is written exactly when the icon is present, as one block, escaped |
| FrontendOutline.IconTextOutline | widget/ufae-frontend/class-ufae-frontend-loop.php:179-183 | the text icon is one escaped block |
| FrontendOutline.FrontTitleOutline | widget/ufae-frontend/class-ufae-frontend-loop.php:194-201 | the title block is written exactly when the title is filled, as one escaped block |
| FrontendOutline.FrontDescOutline | widget/ufae-frontend/class-ufae-frontend-loop.php:210-216 | the description block is written exactly when the description is filled, as one escaped block |
| FrontendOutline.AnchorAttrsPlain | widget/ufae-frontend/class-ufae-frontend-loop.php:241 | the anchor has the plain `ufae-button` class and only escaped attributes |
| FrontendOutline.ButtonInner | widget/ufae-frontend/class-ufae-frontend-loop.php:233-245 | inside its wrapper the link or button is balanced, unmarked and escaped |
| FrontendOutline.FrontButtonOutline | widget/ufae-frontend/class-ufae-frontend-loop.php:225-247 | the button block is written exactly when the button is present, as one escaped block |
| FrontendOutline.FrontElementOutline | widget/ufae-frontend/class-ufae-frontend-loop.php:132-145 | an element writes exactly one block of its own kind when it has content, else nothing |
| FrontendOutline.FrontElementsOutline | widget/ufae-frontend/class-ufae-frontend-loop.php:124-146 | a side's contents are the blocks of exactly the shown elements, in order, escaped |
| FrontendOutline.FrontSideOutline | widget/ufae-frontend/class-ufae-frontend-loop.php:115-151 | a side is one side block of its kind and wrapper class holding the shown elements |
| FrontendOutline.FrontShownDistinct | widget/ufae-frontend/class-ufae-frontend-loop.php:124-146 | an order without repeats shows each element at most once |
| FrontendOutline.CardOpenMarks | widget/ufae-frontend/class-ufae-frontend-loop.php:91 | the card's opening tag carries the item's id and is escaped |
| FrontendOutline.FrontCardSidesOutline | widget/ufae-frontend/class-ufae-frontend-loop.php:92-104 | a card's sides follow the card plan and hold the shown elements of each side |
| FrontendOutline.FrontCardOutline | widget/ufae-frontend/class-ufae-frontend-loop.php:82-105 | one item writes one card with its id, its planned sides and their elements, balanced and escaped |
| FrontendOutline.FrontCardLevel | widget/ufae-frontend/class-ufae-frontend-loop.php:91-104 | a card has a single top-level tag, the item's card opening |
| FrontendOutline.ResolvedCardSides | widget/ufae-frontend/class-ufae-frontend-loop.php:115-146 | with the resolved order, a side shows each enabled element with content exactly once |
| FrontendOutput.ContainerAttributes | widget/ufae-frontend/class-ufae-frontend-output.php:66-89 | the container gets its id, its two or three classes, the animation and transition, and the slide count when horizontal |
| FrontendOutput.AnimationAttrDefaults | widget/ufae-frontend/class-ufae-frontend-output.php:59-61 | the animation defaults to flip-left; the direction is added for flip only |
| FrontendOutput.FrontCardsLevel | widget/ufae-frontend/class-ufae-frontend-output.php:96-100 | the item loop writes one top-level card per item, in order |
| FrontendOutput.FrontCardsMarks | widget/ufae-frontend/class-ufae-frontend-output.php:96-100 | the cards carry the items' ids in order and are escaped |
| FrontendOutput.FrontPageOutline | widget/ufae-frontend/class-ufae-frontend-output.php:91-112 | the page nests wrapper, container, optional slider and one card per list item, balanced and escaped |
| FrontendOutput.FrontendOutput.constructor | widget/ufae-frontend/class-ufae-frontend-output.php:46-50 | the output owns a fresh loop object on the same settings |
| FrontendOutput.FrontendOutput.Render | widget/ufae-frontend/class-ufae-frontend-output.php:55-113 | render fills the container's attributes and writes the page |
| FrontendOutput.FrontendOutput.AddContainerAttributes | widget/ufae-frontend/class-ufae-frontend-output.php:66-89 | the container bag receives the base attributes and, when horizontal, the slider ones |
| FrontendOutput.FrontendOutput.RenderCards | widget/ufae-frontend/class-ufae-frontend-output.php:96-100 | the item loop appends one card per item |
| FrontendOutput.FrontendOutput.RenderShellStart | widget/ufae-frontend/class-ufae-frontend-output.php:91-95 | the wrapper, the container and, when horizontal, the swiper wrappers are opened |
| FrontendOutput.FrontendOutput.RenderShellEnd | widget/ufae-frontend/class-ufae-frontend-output.php:101-112 | the swiper wrappers, container and wrapper are closed, with the placeholders when horizontal |
| EditorLoop.JsFilter | widget/ufae-editor/class-ufae-editor-loop.php:105 | `filter(Boolean)` keeps exactly the non-empty pieces |
| EditorLoop.KeepTokensJsFilter | widget/ufae-editor/class-ufae-editor-loop.php:105-111 | dropping empty pieces never changes which elements are kept |
| EditorLoop.EditorResolveIsCore | widget/ufae-editor/class-ufae-editor-loop.php:104-119 | with or without the guard, the template's order is the reference resolution of the raw string |
| EditorLoop.EditorOrderResolves | widget/ufae-editor/class-ufae-editor-loop.php:99-119 | a side's order is the reference resolution of the untrimmed setting and is a permutation |
| EditorLoop.EditorOrderOwnSetting | widget/ufae-editor/class-ufae-editor-loop.php:99 | a side's order depends on its own position setting only |
| EditorLoop.EditorButtonEnableYes | widget/ufae-editor/class-ufae-editor-loop.php:335-338 | the switch equals 'yes' exactly when the item stores the text 'yes' |
| EditorLoop.EditorShown | widget/ufae-editor/class-ufae-editor-loop.php:128-165 | an element is shown exactly when it is in the order, switched on and has content |
| EditorLoop.EditorLoop.FlipboxItems | widget/ufae-editor/class-ufae-editor-loop.php:29-68 | the template writes one card per element of `ufae_lists`, or nothing when it is not a list |
| EditorLoop.EditorLoop.RenderCards | widget/ufae-editor/class-ufae-editor-loop.php:36-66 | the `_.each` over the items appends their cards in order |
| EditorLoop.EditorLoop.RenderCard | widget/ufae-editor/class-ufae-editor-loop.php:37-64 | one item appends exactly that item's card |
| EditorLoop.EditorLoop.RenderCardSides | widget/ufae-editor/class-ufae-editor-loop.php:45-61 | the side blocks append the front, the two curtain duplicates when the animation is curtain and the back is on, then the back when on |
| EditorLoop.EditorLoop.ElementOrderOf | widget/ufae-editor/class-ufae-editor-loop.php:99-119 | the two order-building loops compute the side's resolved order |
| EditorLoop.EditorLoop.RenderSidesContent | widget/ufae-editor/class-ufae-editor-loop.php:79-175 | a side is its three wrappers around its enabled elements in the side's order |
| EditorLoop.EditorLoop.RenderElements | widget/ufae-editor/class-ufae-editor-loop.php:128-165 | the loop appends the blocks of the enabled elements in order |
| EditorLoop.EditorLoop.RenderElement | widget/ufae-editor/class-ufae-editor-loop.php:135-164 | the switch dispatches to the element's template |
| EditorLoop.EditorLoop.RenderIcon | widget/ufae-editor/class-ufae-editor-loop.php:186-230 | icon, image with a URL, or text, in the item's icon type, else nothing |
| EditorLoop.EditorLoop.RenderTitle | widget/ufae-editor/class-ufae-editor-loop.php:241-271 | a truthy title is written in the title tag (h3 by default) |
| EditorLoop.EditorLoop.RenderDesc | widget/ufae-editor/class-ufae-editor-loop.php:281-306 | a truthy description is written as a paragraph |
| EditorLoop.EditorLoop.RenderButton | widget/ufae-editor/class-ufae-editor-loop.php:316-357 | a button with text and switch 'yes' is a link when a URL is truthy, else a plain button |
| EditorOutline.EditorIconOutline | widget/ufae-editor/class-ufae-editor-loop.php:204-228 | the icon block is written exactly when the icon is present, as one block |
| EditorOutline.EditorIconRaw | widget/ufae-editor/class-ufae-editor-loop.php:204-228 | the image URL and title, or the icon text, are interpolated raw; the glyph interpolates nothing |
| EditorOutline.EditorImageRaw | widget/ufae-editor/class-ufae-editor-loop.php:216-219 | the image's URL and alt text are interpolated raw |
| EditorOutline.EditorIconTextRaw | widget/ufae-editor/class-ufae-editor-loop.php:221-224 | the icon text is interpolated raw |
| EditorOutline.EditorTitleOutline | widget/ufae-editor/class-ufae-editor-loop.php:259-269 | the title block is written exactly when the title is truthy, as one block |
| EditorOutline.EditorTitleRaw | widget/ufae-editor/class-ufae-editor-loop.php:264-266 | only the title tag is interpolated raw (twice); the title itself is escaped |
| EditorOutline.EditorDescOutline | widget/ufae-editor/class-ufae-editor-loop.php:299-304 | the description block is written exactly when the description is truthy, as one block |
| EditorOutline.EditorDescRaw | widget/ufae-editor/class-ufae-editor-loop.php:302-303 | the description is interpolated raw |
| EditorOutline.EditorAnchorClass | widget/ufae-editor/class-ufae-editor-loop.php:350 | the anchor has the plain `ufae-button` class |
| EditorOutline.EditorButtonInner | widget/ufae-editor/class-ufae-editor-loop.php:338-354 | inside its wrapper the link or button is balanced and unmarked |
| EditorOutline.EditorButtonRaw | widget/ufae-editor/class-ufae-editor-loop.php:338-354 | a shown button with a link interpolates raw its URL, target, rel, custom attribute and text, in that order; one without a link interpolates its text only |
| EditorOutline.EditorButtonOutline | widget/ufae-editor/class-ufae-editor-loop.php:334-355 | the button block is written exactly when the button is present, as one block |
| EditorOutline.EditorElementOutline | widget/ufae-editor/class-ufae-editor-loop.php:135-164 | an element writes exactly one block of its own kind when it has content, else nothing |
| EditorOutline.EditorElementsOutline | widget/ufae-editor/class-ufae-editor-loop.php:128-165 | a side's contents are the blocks of exactly the shown elements, in order |
| EditorOutline.EditorSideOutline | widget/ufae-editor/class-ufae-editor-loop.php:124-170 | a side is one side block of its kind and wrapper class holding the shown elements |
| EditorOutline.EditorShownDistinct | widget/ufae-editor/class-ufae-editor-loop.php:128-165 | an order without repeats shows each element at most once |
| EditorOutline.EditorResolvedSide | widget/ufae-editor/class-ufae-editor-loop.php:99-165 | with the resolved order, a side shows each enabled element with content exactly once |
| EditorOutline.EditorCardOpenRaw | widget/ufae-editor/class-ufae-editor-loop.php:38-41 | the card's opening tag interpolates raw the item's `_id`, the slide class and the front-only class |
| EditorOutline.EditorCardOpenMarks | widget/ufae-editor/class-ufae-editor-loop.php:41 | the card's opening tag carries the item's id |
| EditorOutline.EditorCardSidesOutline | widget/ufae-editor/class-ufae-editor-loop.php:42-63 | a card's sides follow the card plan and hold the shown elements of each side |
| EditorOutline.EditorCardOutline | widget/ufae-editor/class-ufae-editor-loop.php:37-64 | one item writes one card with its id, its planned sides and their elements, balanced |
| EditorOutline.EditorCardLevel | widget/ufae-editor/class-ufae-editor-loop.php:41-64 | a card has a single top-level tag, the item's card opening |
| EditorOutput.EditorContainerAttributes | widget/ufae-editor/class-ufae-editor-output.php:54-61 | the container gets its two or three classes, the animation and transition, and the slide count when horizontal, all handed to `addRenderAttribute` unescaped |
| EditorOutput.EditorAnimationDefaults | widget/ufae-editor/class-ufae-editor-output.php:48-52 | the animation defaults to flip-left; the direction is added for flip only |
| EditorOutput.EditorCardsLevel | widget/ufae-editor/class-ufae-editor-loop.php:36-66 | the item loop writes one top-level card per item, in order |
| EditorOutput.EditorCardsBalanced | widget/ufae-editor/class-ufae-editor-loop.php:36-66 | the cards are well nested |
| EditorOutput.EditorCardsMarks | widget/ufae-editor/class-ufae-editor-loop.php:36-66 | the cards carry the items' ids in order |
| EditorOutput.EditorPageOutline | widget/ufae-editor/class-ufae-editor-output.php:43-84 | the template nests wrapper, container, optional slider and one card per list item, balanced |
| EditorOutput.EditorOutput.constructor | widget/ufae-editor/class-ufae-editor-output.php:32-34 | the output owns a fresh loop object |
| EditorOutput.EditorOutput.Render | widget/ufae-editor/class-ufae-editor-output.php:41-87 | render fills the view's container attributes and writes the template's page |
| EditorOutput.EditorOutput.AddContainerAttributes | widget/ufae-editor/class-ufae-editor-output.php:54-61 | the view's bag receives the base attributes and, when horizontal, the slider ones |
| EditorOutput.EditorOutput.RenderContainerStart | widget/ufae-editor/class-ufae-editor-output.php:64-67 | the container and, when horizontal, the swiper wrappers are opened |
| EditorOutput.EditorOutput.RenderShellEnd | widget/ufae-editor/class-ufae-editor-output.php:73-84 | the swiper wrappers, container and wrapper are closed, with the placeholders when horizontal |
| Agreement.EnabledAgree | widget/ufae-editor/class-ufae-editor-loop.php:129 | the two element switches agree exactly when the switch is unset, 'yes', 'no' or '' |
| Agreement.PresentAgree | widget/ufae-editor/class-ufae-editor-loop.php:205-221 | on item values both emptiness notions judge alike, an element has content in both copies or in neither |
| Agreement.ImageWithoutUrl | widget/ufae-editor/class-ufae-editor-loop.php:216 | an image setting without a URL hides the frontend icon but not the editor's |
| Agreement.ShownAgree | widget/ufae-editor/class-ufae-editor-loop.php:128-165 | on plain switches and such items both copies show the same elements of an order |
| Agreement.OrdersAgree | widget/ufae-editor/class-ufae-editor-loop.php:99-119 | for a text position setting with nothing to trim, both copies resolve the same order |
| Agreement.LeadingBlankPosition | widget/ufae-frontend/class-ufae-frontend-loop.php:260 | " title" orders the title first on the server but gives the predefined order in the editor |
| Agreement.CurtainAgrees | widget/ufae-editor/class-ufae-editor-loop.php:47 | both copies see the curtain animation on the same settings |
| Agreement.CardSidesAgree | widget/ufae-editor/class-ufae-editor-loop.php:45-61 | both copies plan the same sides for every card |
| Agreement.CardOutlinesAgree | widget/ufae-editor/class-ufae-editor-loop.php:37-64 | on settings read alike a card has the same id, sides and elements in both copies |
| Agreement.ItemIdsAgree | widget/ufae-editor/class-ufae-editor-loop.php:41 | items with text or integer ids get the same ids in both copies |
| Agreement.PageCardsAgree | widget/ufae-editor/class-ufae-editor-output.php:70 | both pages hold the cards of the same items, in order |
| Agreement.AnimationAgrees | widget/ufae-editor/class-ufae-editor-output.php:48-54 | on settings read alike the animation attribute prints the same |
| Agreement.TransitionAgrees | widget/ufae-editor/class-ufae-editor-output.php:50 | on settings read alike the transition time prints the same |
| Agreement.SlideViewAgrees | widget/ufae-editor/class-ufae-editor-output.php:60 | a set, truthy slide count prints the same in both copies |
| Agreement.ContainersAgree | widget/ufae-editor/class-ufae-editor-output.php:54-61 | the server's container is the id followed by the editor's attributes, key by key with the same texts |
| Agreement.EmptySlideView | widget/ufae-editor/class-ufae-editor-output.php:60 | an empty slide count prints as '' on the server and as 2 in the editor |

## Left out

- Output is modelled as a sequence of tags, text and attribute bags rather than characters. The template's whitespace and the HTML comments inside it are not modelled.
- `esc_attr`, `esc_url` and the template's `{{ }}` escaping are recorded as which escaper a value goes through; their character mappings are not modelled. `esc_html` is modelled with entity escaping of `& < > " '` (no check of existing entities), because its result feeds the order logic and the button switch.
- `Icons_Manager::render_icon` and `elementor.helpers.renderIcon` are a fragment that stands for the icon; the icon library is not part of this model.
- `get_render_attribute_string`, `getRenderAttributeString` and `addRenderAttribute` belong to Elementor, which is not part of this model. The bag is printed as an opaque tag (`OpenBag`), and merging values under a key is modelled as appending them.
- The Underscore template engine is not modelled. The editor copy is modelled as the JavaScript its `<# #>` blocks and interpolations run.
- The editor reads `settings.widget_id` but never uses it. The model has no widget id on the editor side.
- The widget id, which the frontend obtains from `get_id()`, is a parameter.
- EditorLoop.EditorPosition: a non-text position setting makes `order_settings.match` throw in JavaScript; the model reads it as ''.
- EditorLoop.EditorCustomAttr: a non-text custom attribute makes `.split` throw in JavaScript; the model writes no custom attribute.
- FrontendLoop.CustomAttribute: an array-valued custom attribute makes `explode` throw in PHP 8; the model writes no custom attribute.
- FrontendLoop.PositionText: an array-valued position setting makes `trim` throw in PHP 8; the model reads it as the text "Array".
- Values.ListItems: an associative array in `ufae_lists` is iterated by PHP's `foreach` but not by the template; the model reads only lists, so a page of such items is not modelled.
- Values.AsBag: an item that is not an array or object is read as an empty item, so both copies write a card wrapper with an empty id and sides without elements. That matches the template, where every key reads `undefined`, and PHP for an integer item, where every offset warns and reads null. For a text item PHP 8 raises an error at the first key read (widget/ufae-frontend/class-ufae-frontend-loop.php:91) and the frontend render stops; the model does not capture that stop.
- Values.JsConcat: settings hold no stored `null`. A stored null and a missing key behave alike everywhere except in the editor's `'ufae-layout-' + layout` (widget/ufae-editor/class-ufae-editor-output.php:54), which prints `null` for the former and `undefined` for the latter; the model prints `undefined`.
- EditorOutput.EditorPageOutline: the balance of an editor page is proved with raw values as atomic text. A raw value that carries markup (a `<div>` in a description, say) is pasted into the template unescaped and can unbalance the page; `EditorOutline` lists every such value.
- Values.Value: floating-point numbers and booleans are not modelled.
