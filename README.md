# Half-media block, media container and empty-element check, in Dafny

This project models three small pieces of a block editor's presentation code:

- the **half-media layout block** (`core/half-media`): its attribute set and
  defaults, the updates its edit-mode handlers pass to `setAttributes`
  (alignment on mount, media selection, resize, media position), which
  resize handle the edit view enables, what the edit view shows, and the
  markup `save` derives (container classes, inline background colour, and a
  figure holding an image, a video or nothing);
- the **media container**, which shows the chosen image, the chosen video or
  a placeholder, decided by the media type and URL;
- **`isEmptyElement`**, which decides whether a rendered value counts as empty
  for a slot.

Files and modules:

| file | module | contents |
|---|---|---|
| `js_value.dfy` | `JsValue` | JavaScript values and their truthiness (ToBoolean, section 7.1.2 of ECMA-262), `Option`, property keys |
| `class_names.dfy` | `ClassNames` | the `classnames` library as the block calls it: per argument, the keys whose final values are truthy |
| `colors.dfy` | `Colors` | the editor's `getColorClass` |
| `slot_fill_utils.dfy` | `SlotFillUtils` | `isEmptyElement` |
| `media_container.dfy` | `MediaContainer` | the container's three views and `render` |
| `half_media.dfy` | `HalfMedia` | attributes, patches and their merge, the handlers, `enablePositions`, the edit view, and a `Block` class whose methods apply the handlers to the attribute record |
| `half_media_save.dfy` | `HalfMediaSave` | `save`, the two discrepancies listed under Findings, and lemmas that compare the edit view with the saved markup |

Each handler is a function returning the patch it passes to `setAttributes`. A
patch is the sequence of its `key: value` entries. `Merge` applies a patch the
way the host's shallow merge does. The `Block` class keeps the attribute record
and updates it in place through these patches. Its methods state the whole new
record.

Absent attributes, props and media fields are `None` (JavaScript `undefined`).
`Present` is the truthiness of such a string: it is set and it is not empty.

## Model

| member | source | states |
|---|---|---|
| `SlotFillUtils.IsEmptyElement` | packages/components/src/slot-fill/utils.js:9-19 | total on every value; empty exactly for undefined, null, false, `''`, `0n` and `[]`, so every number, `0` and NaN included, is non-empty, as are non-empty strings, `true`, symbols and objects |
| `SlotFillUtils.EmptyVersusFalsy` | packages/components/src/slot-fill/utils.js:10-18 | emptiness differs from falsiness only for `0`, NaN (falsy, not empty) and `[]` (truthy, empty) |
| `SlotFillUtils.ArrayByLength` | packages/components/src/slot-fill/utils.js:14-16 | an array is empty iff its length is 0, whatever it holds: `[null]` is non-empty although `null` is empty |
| `MediaContainer.Render` | packages/editor/src/components/media-container/index.js:76-87 | image view iff the type is `'image'` and the URL is non-empty; video view iff the type is `'video'` and the URL is non-empty; otherwise the placeholder, always with its own class and the accepted types; the image view carries the URL and alt, the video view the URL; exactly the image and video views carry the edit toolbar, on the current media id |
| `MediaContainer.RenderToolbarEditButton` | packages/editor/src/components/media-container/index.js:16-37 | the edit button on the current media id offering images and videos; stated by `Render`'s toolbar clauses |
| `MediaContainer.RenderImage` | packages/editor/src/components/media-container/index.js:39-47 | the toolbar and an image with the URL and alt; stated by `Render` |
| `MediaContainer.RenderVideo` | packages/editor/src/components/media-container/index.js:49-57 | the toolbar and a video with the URL; stated by `Render` |
| `MediaContainer.RenderPlaceholder` | packages/editor/src/components/media-container/index.js:59-74 | the placeholder with its class and accepted types, without toolbar; stated by `Render` and `PlaceholderCases` |
| `MediaContainer.PlaceholderCases` | packages/editor/src/components/media-container/index.js:78-86 | an absent or empty type or URL gives the placeholder; an unknown type gives it even with a URL |
| `ClassNames.ClassListMember` | packages/block-library/src/layout-half-media-text/index.js:149-152 | `classnames` applied to an object literal keeps a class exactly when the literal's value under that key is truthy; a key written twice holds the last value written |
| `ClassNames.ClassList` | packages/block-library/src/layout-half-media-text/index.js:149-152 | the classes of one object-literal argument of `classnames`; stated by `ClassListMember` |
| `Colors.GetColorClass` | packages/block-library/src/layout-half-media-text/index.js:216 | a colour class exists iff the slug is set and non-empty; when it exists, it is non-empty and ends in `-<context>` |
| `HalfMedia.Defaults` | packages/block-library/src/layout-half-media-text/index.js:41-75 | a fresh attribute set: width 300, mediaPosition `'left'`, mediaAlt `''`; colours, media id, URL, type and align undefined (`None`) |
| `HalfMedia.MountPatch` | packages/block-library/src/layout-half-media-text/index.js:95-101 | the mount update names at most align; it is non-empty iff wide controls are on and align is unset or empty, and then sets align to `'wide'` |
| `HalfMedia.SelectMediaPatch` | packages/block-library/src/layout-half-media-text/index.js:103-111 | the select-media update names exactly mediaAlt, mediaId, mediaType and mediaUrl |
| `HalfMedia.ResizePatch` | packages/block-library/src/layout-half-media-text/index.js:120-124 | the resize update names only width, and moves it by exactly the delta |
| `HalfMedia.ChangePositionPatch` | packages/block-library/src/layout-half-media-text/index.js:181 | the toolbar update names only mediaPosition and sets it to the value passed, on any attribute set |
| `HalfMedia.MergeLeavesOtherKeys` | packages/block-library/src/layout-half-media-text/index.js:104-110 | `setAttributes` leaves every attribute the patch does not name unchanged |
| `HalfMedia.Merge` | packages/block-library/src/layout-half-media-text/index.js:104-110 | `setAttributes` as called at lines 97, 105, 121 and 181: a shallow merge of the update; stated by `MergeLeavesOtherKeys` and the effect lemmas |
| `HalfMedia.Block.SetAttributes` | packages/block-library/src/layout-half-media-text/index.js:104-110 | the host's `setAttributes` on the block: the new attributes are the old ones merged with the update; the four handlers go through it |
| `HalfMedia.MountEffect` | packages/block-library/src/layout-half-media-text/index.js:95-101 | on mount, align becomes `'wide'` when wide controls are on and align is unset or empty; otherwise the attributes are unchanged |
| `HalfMedia.MountIdempotent` | packages/block-library/src/layout-half-media-text/index.js:95-101 | mounting a second time changes nothing |
| `HalfMedia.SelectMediaEffect` | packages/block-library/src/layout-half-media-text/index.js:103-111 | the patch names exactly mediaAlt, mediaId, mediaType and mediaUrl; after it those four hold the chosen media's values and every other attribute is unchanged |
| `HalfMedia.ResizeEffect` | packages/block-library/src/layout-half-media-text/index.js:120-124 | after a resize the width is the old width plus the delta, and no other attribute changes |
| `HalfMedia.ResizeComposes` | packages/block-library/src/layout-half-media-text/index.js:120-124 | two resizes equal one by the summed delta; resizing back by the same amount restores the attributes |
| `HalfMedia.EnablePositions` | packages/block-library/src/layout-half-media-text/index.js:125-128 | right handle iff the position is `'left'`; left handle iff it is `'right'`; never both; exactly one iff the position is one of the two |
| `HalfMedia.RenderEdit` | packages/block-library/src/layout-half-media-text/index.js:113-164 | the edit view has the block's width, the colour prop's value as background, handles following the position, and the container's image or video view under the container's own conditions |
| `HalfMedia.ChangePositionEffect` | packages/block-library/src/layout-half-media-text/index.js:178-182 | a new position changes only mediaPosition; the handle moves to the other edge; a cleared position enables no handle |
| `HalfMedia.EditClassesExactly` | packages/block-library/src/layout-half-media-text/index.js:149-152 | the edit classes are `wp-block-half-media`, `has-media-on-the-right` when the position is `'right'`, and the colour prop's class when it is non-empty |
| `HalfMedia.EditClasses` | packages/block-library/src/layout-half-media-text/index.js:149-152 | the edit view's class list; stated by `EditClassesExactly` |
| `HalfMedia.Block.constructor` | packages/block-library/src/layout-half-media-text/index.js:41-75 | a new block holds the schema defaults |
| `HalfMedia.Block.ComponentWillMount` | packages/block-library/src/layout-half-media-text/index.js:95-101 | new record: align `'wide'` when wide controls are on and align is unset or empty, otherwise the old record |
| `HalfMedia.Block.OnSelectMedia` | packages/block-library/src/layout-half-media-text/index.js:103-111 | new record: the old one with the media's alt, id, type and URL |
| `HalfMedia.Block.OnResizeStop` | packages/block-library/src/layout-half-media-text/index.js:120-124 | new record: the old one with width increased by the delta |
| `HalfMedia.Block.OnChangeMediaPosition` | packages/block-library/src/layout-half-media-text/index.js:181 | new record: the old one with the new mediaPosition |
| `HalfMediaSave.BackgroundClassIsColorClass` | packages/block-library/src/layout-half-media-text/index.js:216 | a background class exists iff a named colour is set, and it is never `has-media-on-the-right` |
| `HalfMediaSave.BackgroundClass` | packages/block-library/src/layout-half-media-text/index.js:216 | the named background colour's class; stated by `BackgroundClassIsColorClass` |
| `HalfMediaSave.SavedClassesAsWritten` | packages/block-library/src/layout-half-media-text/index.js:212-215 | as written, once compiled to `var`: the saved class list is `[has-media-on-the-right]` when the position is `'right'` and empty otherwise |
| `HalfMediaSave.SavedClassesAsWrittenExactly` | packages/block-library/src/layout-half-media-text/index.js:212-215 | as written, the only saved class is `has-media-on-the-right`, present iff the position is `'right'` |
| `HalfMediaSave.ColorClassLostAsWritten` | packages/block-library/src/layout-half-media-text/index.js:212-216 | for the named colour `red`, the class `has-red-background-color` is missing as written and present once `backgroundClass` is computed first |
| `HalfMediaSave.SavedClassesExactly` | packages/block-library/src/layout-half-media-text/index.js:212-216 | saved classes: `has-media-on-the-right` iff the position is `'right'`, plus the named colour's class iff there is one |
| `HalfMediaSave.SavedClasses` | packages/block-library/src/layout-half-media-text/index.js:212-216 | the saved classes with `backgroundClass` computed first; stated by `SavedClassesExactly` |
| `HalfMediaSave.SavedBackground` | packages/block-library/src/layout-half-media-text/index.js:216-219 | the inline colour is undefined when a named colour is set, and the custom colour otherwise |
| `HalfMediaSave.SavedMedia` | packages/block-library/src/layout-half-media-text/index.js:199-210 | an img with mediaUrl and mediaAlt iff the type is `'image'`; a video with mediaUrl iff it is `'video'`; nothing for any other or absent type (corrected lookup of line 223, see Findings) |
| `HalfMediaSave.SavedMediaAgrees` | packages/block-library/src/layout-half-media-text/index.js:199-224 | for every type not inherited from Object.prototype, the source's lookup yields exactly what `SavedMedia` describes |
| `HalfMediaSave.SavedMediaAsWritten` | packages/block-library/src/layout-half-media-text/index.js:223 | as written: a media element comes back iff the type is `'image'` or `'video'`; the call throws iff the type is an inherited name other than `toString`, `isPrototypeOf` and `constructor` |
| `HalfMediaSave.InheritedMediaTypes` | packages/block-library/src/layout-half-media-text/index.js:223 | as written, type `'toString'` puts the text `[object Undefined]` in the figure and `'valueOf'` makes save throw |
| `HalfMediaSave.Save` | packages/block-library/src/layout-half-media-text/index.js:189-230 | the figure always carries the width; the classes are exactly `has-media-on-the-right` when the position is `'right'` and the named colour's class when there is one; the inline colour is the custom colour exactly when no named colour is set; an img with the URL and alt iff the type is `'image'`, a video with the URL iff it is `'video'`, an empty figure otherwise (both Findings lines corrected) |
| `HalfMediaSave.FreshBlock` | packages/block-library/src/layout-half-media-text/index.js:41-75 | defaults: width 300, position `'left'`, alt `''`; only the right handle; placeholder in the editor; saved as an empty figure 300 wide with no classes and no colour |
| `HalfMediaSave.RightClassInBoth` | packages/block-library/src/layout-half-media-text/index.js:212-213 | `has-media-on-the-right` is in the edit and the saved classes iff the position is `'right'`, given that the edit view's colour class is the one save computes |
| `HalfMediaSave.EditAndSaveShowSameMedia` | packages/block-library/src/layout-half-media-text/index.js:199-224 | with a URL, the editor shows an image or video exactly when the saved figure holds one, from the same URL and alt; without a URL the editor shows the placeholder |
| `HalfMediaSave.SelectedImageShownAndSaved` | packages/block-library/src/layout-half-media-text/index.js:103-111 | after an image with a URL is chosen, the editor shows it with its edit toolbar and the figure saves it with its alt text at the unchanged width |

## Left out

- Rendering itself: component lifecycle, `Fragment`, `InnerBlocks` and `InnerBlocks.Content`, `InspectorControls`, `PanelColorSettings`, `BlockControls` and the icon. Only the view or markup choice and the values it carries are modelled.
- `withColors`, `withSelect` and `compose` are host code. The edit view takes the `backgroundColor` prop (class and value) as a parameter, and mount takes `wideControlsEnabled` as a boolean.
- `setBackgroundColor` and the colour picker's `onChange` are host code. No colour handler is modelled.
- `getColorClass` belongs to the editor package and is not part of this model. `Colors.GetColorClass` stands in for it with "has-<slug>-<context>", without the slug's kebab-casing.
- The `classnames` library is not part of this model. `ClassNames.ClassList` returns the list of class names, not the space-joined string. Number and array arguments to `classnames` are not modelled; the block passes only strings and object literals. Keys are listed in first-appearance order: JavaScript lists integer-like keys first, in ascending order, which the model does not capture; the block's keys are never integer-like.
- Attribute parsing from saved HTML (the `source`, `selector` and `attribute` entries of the schema) is done by the host. No save/parse round trip is claimed.
- `ResizableBox` drag mechanics and its `minWidth` are library behaviour. The model claims no lower bound on the width.
- Widths and deltas are unbounded integers; the range of JavaScript numbers is not modelled (sums beyond 2^53 are rounded, and `parseInt` of a sum of magnitude 1e21 or more reads the exponent form, so gives a different number). `parseInt` on fractional or non-numeric sums is not modelled. `onResizeStop` reads the width of the render that created it; the model uses the current width, which is the same value because the block re-renders after every attribute change.
- `MediaUpload` and `MediaPlaceholder` internals, including which files they accept, belong to the editor. The views record only the accepted-type string they are given.
- `BlockAlignmentToolbar` belongs to the editor. The model accepts any new position, or none, so it never assumes the position is `'left'` or `'right'`. The schema types mediaPosition as a plain string, and `enablePositions` handles other values.
- The figure's contents for types that are inherited names are given as the JavaScript value the call returns. How the serializer prints a `false` or `{}` child is not modelled.

## Findings

| source | as written | input that shows it | evidently intended | confidence | as-written member | corrected member |
|---|---|---|---|---|---|---|
| packages/block-library/src/layout-half-media-text/index.js:212-216 | `backgroundClass` is used as a class key at line 214 but declared at line 216. Run natively this throws (temporal dead zone). Compiled to `var`, it is undefined there, so the colour class is never saved | `backgroundColor: 'red'` | the saved container carries `has-red-background-color`, as the edit view does (line 151) | high, not executed | `HalfMediaSave.ColorClassLostAsWritten` | `HalfMediaSave.SavedClassesExactly` |
| packages/block-library/src/layout-half-media-text/index.js:223 | `mediaTypeRenders[ mediaType ]` also finds properties inherited from Object.prototype, and the call has no `this` | `mediaType: 'toString'` saves the text `[object Undefined]` in the figure; `mediaType: 'valueOf'` makes save throw a TypeError | every type other than `'image'` and `'video'` saves an empty figure | medium, not executed | `HalfMediaSave.SavedMediaAsWritten` (witness `InheritedMediaTypes`) | `HalfMediaSave.SavedMedia` (with `SavedMediaAgrees`) |

`Save` uses the corrected definitions. `SavedClassesAsWritten` keeps the code as written once compiled to `var`; run natively, the first row's save throws a ReferenceError on every call, which no member models. `SavedMediaAsWritten` keeps the code as written.
