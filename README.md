# Selection wrapper and gallery editor rules, in Dafny

This project models two parts of a set of pluggable web widgets.

**The selection wrapper** (`SelectionWrapperImpl`) sits over a selection property owned by the host platform. The property is either Single (an optional item) or Multi (an ordered list of items). Items are compared by `id` only. The wrapper offers:

- `add`, `remove` and `isSelected`;
- `selectAll` and `selectNone`, which throw in Single mode or when the datasource is not `"available"`;
- the `selectionStatus` getter (`"none"`, `"some"`, `"all"`).

The wrapper reads a snapshot of the property that it never changes. Every change goes through a private `setSelection`. It checks the new value's shape against the mode, calls the host setter, and then executes the optional change action when that action can execute and is not already executing.

**The gallery's design-time rules** are three functions:

- `check` validates the three column counts and the exclusion between selection and the on-click action;
- `getProperties` decides which property-panel keys are hidden;
- `getSingularPlural` builds a caption word.

Modules:

- `PluggableTypes` (`pluggable_types.dfy`): the host values. These are `Option` (`T | undefined`), `ObjectItem`, and the selection property with its two shapes (`SingleValue`, `MultiValue`). They mirror `SelectionSingleValue` and `SelectionMultiValue` in `packages/shared/pluggable-widgets-commons/src/selection/tmp-pluggable-types.d.ts:29-31`. The module also holds the list datasource and the change action.
- `SelectionWrapper` (`selection_wrapper.dfy`): the wrapper as a class. Its fields are the property snapshot, the datasource and the change action (all constant), the log of values handed to the host setter, and a counter of change-action executions. The getters `isSelected` and `selectionStatus` are functions on a selection value (`IsSelectedIn`, `StatusOf`); the class getters apply them to the snapshot, and the methods' contracts apply them to the host's next selection. The array operations it uses (`some`, `filter`, `new Set(map)`, `every`) are recursive functions, proved against set-based and quantified reference definitions.
- `GalleryEditorConfig` (`gallery_editor_config.dfy`): `check`, `getProperties` and `getSingularPlural`. All three are functions of the design-time values.

A thrown error is the `Throw(Error(message))` outcome, carrying the source's exact message. A getter that throws returns `Err(Error(message))`.

## Model

| member | source | states |
|---|---|---|
| SelectionWrapper.HasIdIff | packages/shared/pluggable-widgets-commons/src/selection/SelectionWrapper.ts:69-70 | the `some` test over ids holds iff some element of the list has the given id |
| SelectionWrapper.IdSetMembers | packages/shared/pluggable-widgets-commons/src/selection/SelectionWrapper.ts:40 | the set built from the selection's ids holds exactly the ids some selected item has |
| SelectionWrapper.EveryIdInIff | packages/shared/pluggable-widgets-commons/src/selection/SelectionWrapper.ts:41 | the `every` test holds iff every datasource item's id is in the set |
| SelectionWrapper.WithoutIdMembers | packages/shared/pluggable-widgets-commons/src/selection/SelectionWrapper.ts:60 | filtering by id keeps exactly the elements whose id differs from the removed one |
| SelectionWrapper.WithoutIdAppend | packages/shared/pluggable-widgets-commons/src/selection/SelectionWrapper.ts:60 | filtering keeps the order of the kept elements: it distributes over concatenation |
| SelectionWrapper.WithoutIdAbsent | packages/shared/pluggable-widgets-commons/src/selection/SelectionWrapper.ts:59-61 | filtering out an id no element has returns the list unchanged |
| SelectionWrapper.WithoutIdShrinks | packages/shared/pluggable-widgets-commons/src/selection/SelectionWrapper.ts:59-61 | filtering out an id that is selected makes the selection strictly shorter |
| SelectionWrapper.WithoutIdNotLonger | packages/shared/pluggable-widgets-commons/src/selection/SelectionWrapper.ts:60 | filtering never lengthens the list |
| SelectionWrapper.AppendPreservesNoDuplicateIds | packages/shared/pluggable-widgets-commons/src/selection/SelectionWrapper.ts:49-51 | appending an item whose id is not yet selected keeps the ids unique |
| SelectionWrapper.WithoutIdPreservesNoDuplicateIds | packages/shared/pluggable-widgets-commons/src/selection/SelectionWrapper.ts:59-61 | removal by id keeps the ids unique |
| SelectionWrapper.RemoveUndoesAdd | packages/shared/pluggable-widgets-commons/src/selection/SelectionWrapper.ts:45-63 | on selection lists: filtering out the id of an item appended under a new id gives back the earlier list exactly |
| SelectionWrapper.HasIdIffAll | packages/shared/pluggable-widgets-commons/src/selection/SelectionWrapper.ts:69-70 | for every id at once, the `some` test holds iff some element has that id |
| SelectionWrapper.IsSelectedIn | packages/shared/pluggable-widgets-commons/src/selection/SelectionWrapper.ts:65-71 | true iff some item of the selection has the value's id; in Single mode, iff the selection is defined and has that id |
| SelectionWrapper.StatusOf | packages/shared/pluggable-widgets-commons/src/selection/SelectionWrapper.ts:33-43 | throws with the source's message exactly in Single mode; otherwise "none" iff the selection is empty, and for a nonempty selection "all" iff every item of `items ?? []` has its id among the selected items (so an empty or undefined item list gives "all"), "some" otherwise |
| SelectionWrapper.SelectionWrapperImpl.constructor | packages/shared/pluggable-widgets-commons/src/selection/SelectionWrapper.ts:23-27 | the wrapper holds the given property snapshot, datasource and change action; no setter call and no execution yet |
| SelectionWrapper.SelectionWrapperImpl.Type | packages/shared/pluggable-widgets-commons/src/selection/SelectionWrapper.ts:29-31 | the mode is Single iff the property is a single selection, and Multi iff it is a multi selection |
| SelectionWrapper.SelectionWrapperImpl.SetSelection | packages/shared/pluggable-widgets-commons/src/selection/SelectionWrapper.ts:97-111 | throws, changing nothing, iff a non-array value meets Multi mode; an array in Multi mode or a scalar in Single mode is handed to the host setter once, as that shape; an array in Single mode reaches no setter; every non-throwing call executes the change action exactly once if it exists, can execute and is not executing, otherwise not at all |
| SelectionWrapper.SelectionWrapperImpl.Add | packages/shared/pluggable-widgets-commons/src/selection/SelectionWrapper.ts:45-53 | Single: the setter receives exactly the value. Multi with an id not in the snapshot: the setter receives the snapshot with the value appended after its unchanged elements. Multi with an id in the snapshot: no setter call, no execution, nothing changes. The host's next selection, when the setter was called, has the value selected and keeps unique ids unique |
| SelectionWrapper.SelectionWrapperImpl.Remove | packages/shared/pluggable-widgets-commons/src/selection/SelectionWrapper.ts:55-63 | Single: the setter receives undefined whatever the value. Multi with an id in the snapshot: the setter receives the snapshot without every element of that id, the rest in order. Multi with an id not in the snapshot: no setter call, no execution, nothing changes. The host's next selection, when the setter was called, does not have the value selected and keeps unique ids unique |
| SelectionWrapper.SelectionWrapperImpl.SelectAll | packages/shared/pluggable-widgets-commons/src/selection/SelectionWrapper.ts:73-83 | throws in Single mode, otherwise throws when the datasource is not available, each with its message and no change; else the setter receives the datasource items (or the empty list when undefined), and the host's next selection has status "all" over the same items when there are any |
| SelectionWrapper.SelectionWrapperImpl.SelectNone | packages/shared/pluggable-widgets-commons/src/selection/SelectionWrapper.ts:85-95 | throws in Single mode, otherwise throws when the datasource is not available, each with its message and no change; else the setter receives the empty list and the host's next selection has status "none" |
| SelectionWrapper.AddTwiceOnOneSnapshot | packages/shared/pluggable-widgets-commons/src/selection/SelectionWrapper.ts:45-53 | two `add` calls on one wrapper over an empty Multi selection hand the setter `[a]` and then `[b]`, never `[a, b]`, and may execute the change action twice, even when the two items share an id |
| SelectionWrapper.AddThenRemoveAcrossRenders | packages/shared/pluggable-widgets-commons/src/selection/SelectionWrapper.ts:45-63 | `add` of a new id on one render and `remove` of it on the wrapper the next render builds over the handed-on selection give back the selection the first render started from |
| GalleryEditorConfig.Check | packages/pluggableWidgets/gallery-web/src/Gallery.editorConfig.ts:57-84 | a column-count problem is reported, with its message, iff that count is null or outside 1..12; the onClick problem iff selection is not "None" and an on-click action is set; at most four problems, only these four, in the order desktop, phone, tablet, onClick; no problems iff all counts are in range and selection is "None" or there is no on-click action |
| GalleryEditorConfig.GetProperties | packages/pluggableWidgets/gallery-web/src/Gallery.editorConfig.ts:12-55 | a key is hidden iff it was hidden already or the key-by-key rule table hides it: `pagingPosition` unless paging uses buttons, `emptyPlaceholder` when the placeholder is "none", `filtersPlaceholder` when both lists are empty and selection is "None", `onSelectionChange` when selection is "None", the ten listed keys on web without `advanced`, `advanced` on desktop; on desktop only those four conditional keys and `advanced` are newly hidden |
| GalleryEditorConfig.GetPropertiesIdempotent | packages/pluggableWidgets/gallery-web/src/Gallery.editorConfig.ts:12-55 | running the visibility rules again on their own output hides nothing more |
| GalleryEditorConfig.GetSingularPlural | packages/pluggableWidgets/gallery-web/src/Gallery.editorConfig.ts:143-145 | the result is the word plus "s" iff the count is above 1 and the word itself otherwise; the word is always a prefix of the result |

## Left out

- The host setter `property.setSelection` is modelled as an append to the wrapper's log of setter values (`setterLog`). Its last entry is the selection the host hands to the next render, which builds a new wrapper over it. The wrapper's own `property` is a snapshot that no call changes, exactly as in the source. So several calls on one wrapper all start from the same snapshot. Two `add` calls from `[]` hand the setter `[a]` and then `[b]`, and the action may fire twice. A repeated `add(v)` calls the setter twice. `add(v)` followed by `remove(v)` on the same wrapper is a no-op for the `remove`. The model does not capture how the host merges several setter calls made before one render; it records them all, in order. The setter's own validity checks (an item from another datasource, `undefined` in a multi selection) are host code and are not part of this model.
- `onChange.execute()` is modelled as a counter. The action's effect and any change of `canExecute` or `isExecuting` that follows it are host behaviour, so the two flags are constant.
- `getPreview` (`Gallery.editorConfig.ts:86-141`) builds preview trees through foreign builder functions and colour constants. It is not modelled.
- `transformGroupsIntoTabs`, and the property-panel structure that `hidePropertyIn` and `hidePropertiesIn` edit, are foreign library code. Only the set of hidden keys is modelled: both calls become insertions into that set and tab regrouping is not modelled.
- GalleryEditorConfig.Check: number properties are integers or null. A fractional or NaN column count (possible in JavaScript) is not modelled. An `onClick` that is `undefined` rather than `null` counts as set in the source; the model only has "set" and "not set".
- GalleryEditorConfig.GetSingularPlural: the count is an integer; fractional counts are not modelled.
- The filter and sort lists are modelled only by their optional length, because the rules read nothing but `?.length === 0`.
- `Gallery.tsx`, `Gallery.editorPreview.tsx`, the image viewer component, the filter component tests and `SelectionContext.ts` are React rendering and runtime glue. They are not part of this model.
