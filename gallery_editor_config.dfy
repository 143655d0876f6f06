/**
 * The gallery widget's design-time rules: the property-panel validator
 * `check`, the property-visibility rules of `getProperties` and the caption
 * helper `getSingularPlural`.
 */
module GalleryEditorConfig {
  import opened PluggableTypes

  datatype Pagination = Buttons | VirtualScrolling

  /** `"none" | "custom"`. */
  datatype ShowEmptyPlaceholder = NoPlaceholder | CustomPlaceholder

  /** `"None" | "Single" | "Multi"`. */
  datatype ItemSelection = NoSelection | SingleSelection | MultiSelection

  datatype Platform = Web | Desktop

  /**
   * The design-time values of a gallery that the rules read. A number
   * property is `None` when it is null; `onClick` is true when the on-click
   * action is not null; the filter and sort lists are given by their length,
   * `None` when the list itself is undefined.
   */
  datatype GalleryPreviewProps = GalleryPreviewProps(
    advanced: bool,
    itemSelection: ItemSelection,
    onClick: bool,
    desktopItems: Option<int>,
    tabletItems: Option<int>,
    phoneItems: Option<int>,
    pagination: Pagination,
    showEmptyPlaceholder: ShowEmptyPlaceholder,
    filterListLength: Option<nat>,
    sortListLength: Option<nat>)

  type PropertyKey = string

  /** A problem shown in the property panel for one property. */
  datatype Problem = Problem(property: PropertyKey, message: string)

  const DesktopItemsProblem := Problem("desktopItems", "Desktop items must be a number between 1 and 12")
  const PhoneItemsProblem := Problem("phoneItems", "Phone items must be a number between 1 and 12")
  const TabletItemsProblem := Problem("tabletItems", "Tablet items must be a number between 1 and 12")
  const OnClickProblem :=
    Problem("onClick", "\"On click action\" must be set to \"Do nothing\" when \"Selection\" is enabled")

  /** The guard `!n || n < 1 || n > 12` on a number that may be null. */
  predicate ColumnCountRejected(n: Option<int>) {
    n.None? || n.value == 0 || n.value < 1 || n.value > 12
  }

  /** A column count is acceptable when it is set and between 1 and 12. */
  predicate InColumnRange(n: Option<int>) {
    n.Some? && 1 <= n.value <= 12
  }

  /** The place of each problem in the order `check` reports them. */
  function ProblemRank(p: Problem): nat {
    if p == DesktopItemsProblem then 0
    else if p == PhoneItemsProblem then 1
    else if p == TabletItemsProblem then 2
    else 3
  }

  /** `check`: the problems of a gallery configuration, in a fixed order. */
  function Check(values: GalleryPreviewProps): (errors: seq<Problem>)
    ensures |errors| <= 4
    ensures DesktopItemsProblem in errors <==> !InColumnRange(values.desktopItems)
    ensures PhoneItemsProblem in errors <==> !InColumnRange(values.phoneItems)
    ensures TabletItemsProblem in errors <==> !InColumnRange(values.tabletItems)
    ensures OnClickProblem in errors <==> values.itemSelection != NoSelection && values.onClick
    ensures forall p :: p in errors ==>
      p in {DesktopItemsProblem, PhoneItemsProblem, TabletItemsProblem, OnClickProblem}
    ensures forall i, j :: 0 <= i < j < |errors| ==> ProblemRank(errors[i]) < ProblemRank(errors[j])
    ensures errors == [] <==>
      && InColumnRange(values.desktopItems)
      && InColumnRange(values.phoneItems)
      && InColumnRange(values.tabletItems)
      && (values.itemSelection == NoSelection || !values.onClick)
  {
    var e0: seq<Problem> := [];
    var e1 := if ColumnCountRejected(values.desktopItems) then e0 + [DesktopItemsProblem] else e0;
    var e2 := if ColumnCountRejected(values.phoneItems) then e1 + [PhoneItemsProblem] else e1;
    var e3 := if ColumnCountRejected(values.tabletItems) then e2 + [TabletItemsProblem] else e2;
    if values.itemSelection != NoSelection && values.onClick then e3 + [OnClickProblem] else e3
  }

  /** `hidePropertyIn`, reduced to its effect: the key joins the hidden keys. */
  function HideProperty(hidden: set<PropertyKey>, key: PropertyKey): set<PropertyKey> {
    hidden + {key}
  }

  /** `hidePropertiesIn`, reduced to its effect: every listed key joins the hidden keys. */
  function HideProperties(hidden: set<PropertyKey>, keys: seq<PropertyKey>): set<PropertyKey> {
    hidden + set k | k in keys
  }

  /** The keys hidden on web unless `advanced` is set. */
  const BasicWebHiddenKeys: seq<PropertyKey> := [
    "pagination",
    "pagingPosition",
    "showEmptyPlaceholder",
    "emptyPlaceholder",
    "itemClass",
    "filtersPlaceholder",
    "filterList",
    "sortList",
    "emptyMessageTitle",
    "filterSectionTitle"
  ]

  /** No filter, no sort and no selection: the header drop zone has nothing to hold. */
  predicate HeaderUnused(values: GalleryPreviewProps) {
    values.filterListLength == Some(0) && values.sortListLength == Some(0) && values.itemSelection == NoSelection
  }

  /** The visibility rules read key by key: when `getProperties` hides `key`. */
  predicate HiddenByRule(values: GalleryPreviewProps, platform: Platform, key: PropertyKey) {
    var basicWeb := platform == Web && !values.advanced;
    if key == "pagingPosition" then values.pagination != Buttons || basicWeb
    else if key == "emptyPlaceholder" then values.showEmptyPlaceholder == NoPlaceholder || basicWeb
    else if key == "filtersPlaceholder" then HeaderUnused(values) || basicWeb
    else if key == "onSelectionChange" then values.itemSelection == NoSelection
    else if key == "advanced" then platform == Desktop
    else if key in ["pagination", "showEmptyPlaceholder", "itemClass", "filterList", "sortList",
                    "emptyMessageTitle", "filterSectionTitle"] then basicWeb
    else false
  }

  /**
   * `getProperties`: the keys hidden after the rules ran, starting from the
   * keys `defaultProperties` already hides.
   */
  function GetProperties(values: GalleryPreviewProps, defaultProperties: set<PropertyKey>, platform: Platform)
    : (hidden: set<PropertyKey>)
    ensures forall k :: k in hidden <==> k in defaultProperties || HiddenByRule(values, platform, k)
    ensures platform == Desktop ==>
      forall k :: k in hidden - defaultProperties ==>
        k in {"pagingPosition", "emptyPlaceholder", "filtersPlaceholder", "onSelectionChange", "advanced"}
  {
    var p0 := defaultProperties;
    var p1 := if values.pagination != Buttons then HideProperty(p0, "pagingPosition") else p0;
    var p2 := if values.showEmptyPlaceholder == NoPlaceholder then HideProperty(p1, "emptyPlaceholder") else p1;
    var p3 := if HeaderUnused(values) then HideProperty(p2, "filtersPlaceholder") else p2;
    var p4 := if values.itemSelection == NoSelection then HideProperty(p3, "onSelectionChange") else p3;
    if platform == Web then
      if !values.advanced then HideProperties(p4, BasicWebHiddenKeys) else p4
    else
      HideProperty(p4, "advanced")
  }

  /**
   * Running the rules on their own output hides nothing more: a corollary of
   * the key-by-key contract of GetProperties, since hiding a key twice is
   * hiding it once.
   */
  lemma GetPropertiesIdempotent(values: GalleryPreviewProps, defaultProperties: set<PropertyKey>, platform: Platform)
    ensures var hidden := GetProperties(values, defaultProperties, platform);
      GetProperties(values, hidden, platform) == hidden
  {
  }

  /** `getSingularPlural`: the word, with an "s" for more than one element. */
  function GetSingularPlural(word: string, elements: int): (r: string)
    ensures r == word + "s" <==> elements > 1
    ensures r == word <==> elements <= 1
    ensures word <= r
  {
    if elements > 1 then word + "s" else word
  }
}
