/**
 * The selection helper shared by the widgets: a wrapper over a host-owned
 * single or multi selection property, a list datasource and an optional
 * change action. Items are compared by id only.
 */
module SelectionWrapper {
  import opened PluggableTypes

  datatype SelectionType = Single | Multi

  /** `"all" | "some" | "none"`. */
  datatype SelectionStatus = SelectedAll | SelectedSome | SelectedNone

  /** A thrown `Error` and its message. */
  datatype Error = Error(message: string)

  /** The end of a call that returns nothing or throws. */
  datatype Outcome = Pass | Throw(error: Error)

  /** The end of a getter that returns a value or throws. */
  datatype Result<+T> = Ok(value: T) | Err(error: Error)

  const StatusSingleMessage := "Status not available in single selection mode."
  const SelectAllSingleMessage := "selectAll method is not available in single selection mode."
  const SelectAllUnavailableMessage := "Cannot select all when datasource is not available."
  const SelectNoneSingleMessage := "selectNone method is not available in single selection mode."
  const SelectNoneUnavailableMessage := "Cannot clear selection when datasource is not available."
  const ShapeMismatchMessage := "Cannot apply new value to current selection type"

  /** The argument of the private setter: `ObjectItem | undefined` or `ObjectItem[]`. */
  datatype NewSelection = Scalar(value: Option<ObjectItem>) | ItemArray(values: seq<ObjectItem>)

  /** `list.items ?? []`. */
  function ItemsOrEmpty(list: ListValue): seq<ObjectItem> {
    list.items.GetOr([])
  }

  /** Whether a change fires the change action: it exists, can execute and is not executing. */
  predicate ChangeActionRuns(onChange: Option<ActionValue>) {
    onChange.Some? && onChange.value.canExecute && !onChange.value.isExecuting
  }

  /** How many times one change executes the change action. */
  function Executions(onChange: Option<ActionValue>): nat {
    if ChangeActionRuns(onChange) then 1 else 0
  }

  /** No two elements share an id. */
  ghost predicate NoDuplicateIds(s: seq<ObjectItem>) {
    forall i, j :: 0 <= i < j < |s| ==> s[i].id != s[j].id
  }

  // ---------------------------------------------------------------------
  // The array operations the wrapper uses, each keyed by id

  /** `s.some(obj => obj.id === id)`. */
  function HasId(s: seq<ObjectItem>, id: Guid): bool {
    if s == [] then false else s[0].id == id || HasId(s[1..], id)
  }

  /** `s.filter(obj => obj.id !== id)`. */
  function WithoutId(s: seq<ObjectItem>, id: Guid): seq<ObjectItem> {
    if s == [] then []
    else (if s[0].id != id then [s[0]] else []) + WithoutId(s[1..], id)
  }

  /** `new Set(s.map(obj => obj.id))`. */
  function IdSet(s: seq<ObjectItem>): set<Guid> {
    if s == [] then {} else {s[0].id} + IdSet(s[1..])
  }

  /** `items.every(obj => ids.has(obj.id))`. */
  function EveryIdIn(items: seq<ObjectItem>, ids: set<Guid>): bool {
    if items == [] then true else items[0].id in ids && EveryIdIn(items[1..], ids)
  }

  lemma {:induction false} HasIdIff(s: seq<ObjectItem>, id: Guid)
    ensures HasId(s, id) <==> exists x :: x in s && x.id == id
  {
    if s != [] {
      HasIdIff(s[1..], id);
      if HasId(s[1..], id) {
        var x :| x in s[1..] && x.id == id;
        assert x in s;
      }
      forall x | x in s && x.id == id && x != s[0]
        ensures x in s[1..]
      {
        assert s == [s[0]] + s[1..];
      }
    }
  }

  lemma {:induction false} IdSetMembers(s: seq<ObjectItem>)
    ensures forall id :: id in IdSet(s) <==> HasId(s, id)
  {
    if s != [] {
      IdSetMembers(s[1..]);
    }
  }

  lemma {:induction false} EveryIdInIff(items: seq<ObjectItem>, ids: set<Guid>)
    ensures EveryIdIn(items, ids) <==> forall x :: x in items ==> x.id in ids
  {
    if items != [] {
      EveryIdInIff(items[1..], ids);
      assert items == [items[0]] + items[1..];
    }
  }

  /** The filter keeps exactly the elements whose id differs. */
  lemma {:induction false} WithoutIdMembers(s: seq<ObjectItem>, id: Guid)
    ensures forall x :: x in WithoutId(s, id) <==> x in s && x.id != id
  {
    if s != [] {
      WithoutIdMembers(s[1..], id);
      assert s == [s[0]] + s[1..];
    }
  }

  /** The filter keeps the order of what it keeps: it distributes over concatenation. */
  lemma {:induction false} WithoutIdAppend(a: seq<ObjectItem>, b: seq<ObjectItem>, id: Guid)
    ensures WithoutId(a + b, id) == WithoutId(a, id) + WithoutId(b, id)
  {
    if a != [] {
      WithoutIdAppend(a[1..], b, id);
      assert (a + b)[0] == a[0] && (a + b)[1..] == a[1..] + b;
      var head := if a[0].id != id then [a[0]] else [];
      calc {
        WithoutId(a + b, id);
        head + WithoutId(a[1..] + b, id);
        head + (WithoutId(a[1..], id) + WithoutId(b, id));
        (head + WithoutId(a[1..], id)) + WithoutId(b, id);
      }
    } else {
      assert a + b == b;
    }
  }

  /** Filtering out an id no element has returns the sequence itself. */
  lemma {:induction false} WithoutIdAbsent(s: seq<ObjectItem>, id: Guid)
    requires !HasId(s, id)
    ensures WithoutId(s, id) == s
  {
    if s != [] {
      WithoutIdAbsent(s[1..], id);
    }
  }

  /** Filtering out an id some element has makes the sequence strictly shorter. */
  lemma {:induction false} WithoutIdShrinks(s: seq<ObjectItem>, id: Guid)
    requires HasId(s, id)
    ensures |WithoutId(s, id)| < |s|
  {
    WithoutIdNotLonger(s[1..], id);
    if s[0].id != id {
      WithoutIdShrinks(s[1..], id);
    }
  }

  lemma {:induction false} WithoutIdNotLonger(s: seq<ObjectItem>, id: Guid)
    ensures |WithoutId(s, id)| <= |s|
  {
    if s != [] {
      WithoutIdNotLonger(s[1..], id);
    }
  }

  /** Appending an item whose id is not yet present keeps ids unique. */
  lemma AppendPreservesNoDuplicateIds(s: seq<ObjectItem>, v: ObjectItem)
    requires NoDuplicateIds(s) && !HasId(s, v.id)
    ensures NoDuplicateIds(s + [v])
  {
    HasIdIff(s, v.id);
    forall i | 0 <= i < |s|
      ensures s[i].id != v.id
    {
      assert s[i] in s;
    }
  }

  /** Filtering keeps ids unique. */
  lemma {:induction false} WithoutIdPreservesNoDuplicateIds(s: seq<ObjectItem>, id: Guid)
    requires NoDuplicateIds(s)
    ensures NoDuplicateIds(WithoutId(s, id))
  {
    if s != [] {
      WithoutIdPreservesNoDuplicateIds(s[1..], id);
      if s[0].id != id {
        var rest := WithoutId(s[1..], id);
        WithoutIdMembers(s[1..], id);
        forall j | 0 <= j < |rest|
          ensures rest[j].id != s[0].id
        {
          assert rest[j] in s[1..];
          var k :| 0 <= k < |s[1..]| && s[1..][k] == rest[j];
          assert s[k + 1] == rest[j];
        }
        assert WithoutId(s, id) == [s[0]] + rest;
      }
    }
  }

  /** In Multi mode, removing an item just added for a new id gives back the earlier selection. */
  lemma RemoveUndoesAdd(s: seq<ObjectItem>, v: ObjectItem)
    requires !HasId(s, v.id)
    ensures WithoutId(s + [v], v.id) == s
  {
    WithoutIdAppend(s, [v], v.id);
    WithoutIdAbsent(s, v.id);
  }

  /** The elements of `s` that carry `id`, stated without recursion, for every id at once. */
  lemma HasIdIffAll(s: seq<ObjectItem>)
    ensures forall id :: HasId(s, id) <==> exists y :: y in s && y.id == id
  {
    forall id
      ensures HasId(s, id) <==> exists y :: y in s && y.id == id
    {
      HasIdIff(s, id);
    }
  }

  // ---------------------------------------------------------------------
  // The getters, evaluated on a selection value

  /** The selected items of a selection value as a sequence, whatever the mode. */
  function SelectedItems(p: SelectionProperty): seq<ObjectItem> {
    match p
    case SingleValue(selection) => if selection.Some? then [selection.value] else []
    case MultiValue(selections) => selections
  }

  /** `isSelected(value)` over the selection `p`: some selected item has `value`'s id. */
  function IsSelectedIn(p: SelectionProperty, value: ObjectItem): (b: bool)
    ensures b <==> exists x :: x in SelectedItems(p) && x.id == value.id
  {
    match p
    case SingleValue(selection) => selection.Some? && selection.value.id == value.id
    case MultiValue(selections) => HasIdIff(selections, value.id); HasId(selections, value.id)
  }

  /** `selectionStatus` over the selection `p` and the datasource `list`. */
  function StatusOf(p: SelectionProperty, list: ListValue): (r: Result<SelectionStatus>)
    ensures r.Err? <==> p.SingleValue?
    ensures r.Err? ==> r.error == Error(StatusSingleMessage)
    ensures r.Ok? ==> (r.value == SelectedNone <==> p.selections == [])
    ensures r.Ok? && p.selections != [] ==>
      (r.value == SelectedAll <==>
        forall x :: x in ItemsOrEmpty(list) ==> exists y :: y in p.selections && y.id == x.id)
  {
    if p.SingleValue? then Err(Error(StatusSingleMessage))
    else if |p.selections| == 0 then Ok(SelectedNone)
    else
      var selectedIds := IdSet(p.selections);
      IdSetMembers(p.selections);
      HasIdIffAll(p.selections);
      EveryIdInIff(ItemsOrEmpty(list), selectedIds);
      Ok(if EveryIdIn(ItemsOrEmpty(list), selectedIds) then SelectedAll else SelectedSome)
  }

  // ---------------------------------------------------------------------

  /**
   * The wrapper. `property` is the snapshot of the host property the wrapper
   * was built over: the wrapper never changes it. Each call of the host
   * setter is recorded in `setterLog`; the host hands its last entry to the
   * next render, which builds a new wrapper over it.
   */
  class SelectionWrapperImpl {
    const property: SelectionProperty
    const list: ListValue
    const onChange: Option<ActionValue>
    /** The values passed to the host setter `property.setSelection`, in call order. */
    var setterLog: seq<SelectionProperty>
    /** How many times `onChange.execute()` was called. */
    var executions: nat

    constructor(property: SelectionProperty, datasource: ListValue, onChange: Option<ActionValue>)
      ensures this.property == property && list == datasource && this.onChange == onChange
      ensures setterLog == [] && executions == 0
    {
      this.property := property;
      this.list := datasource;
      this.onChange := onChange;
      setterLog := [];
      executions := 0;
    }

    /** The getter `type`: the mode of the host property. */
    function Type(): (t: SelectionType)
      ensures t == Single <==> property.SingleValue?
      ensures t == Multi <==> property.MultiValue?
    {
      if property.SingleValue? then Single else Multi
    }

    /** The getter `selectionStatus`, over the snapshot. */
    function Status(): Result<SelectionStatus> {
      StatusOf(property, list)
    }

    /** `isSelected(value)`, over the snapshot. */
    function IsSelected(value: ObjectItem): bool {
      IsSelectedIn(property, value)
    }

    /** The selection the host renders next: the last value handed to the setter. */
    function NextSelection(): SelectionProperty
      reads this
      requires setterLog != []
    {
      setterLog[|setterLog| - 1]
    }

    /**
     * The private `setSelection`: checks the shape of the new value against
     * the mode, hands it to the host setter, then fires the change action.
     */
    method SetSelection(value: NewSelection) returns (r: Outcome)
      modifies this
      ensures r.Throw? <==> value.Scalar? && property.MultiValue?
      ensures r.Throw? ==> r.error == Error(ShapeMismatchMessage) && unchanged(this)
      ensures value.ItemArray? && property.MultiValue? ==>
        setterLog == old(setterLog) + [MultiValue(value.values)]
      ensures value.Scalar? && property.SingleValue? ==>
        setterLog == old(setterLog) + [SingleValue(value.value)]
      ensures value.ItemArray? && property.SingleValue? ==> setterLog == old(setterLog)
      ensures r.Pass? ==> executions == old(executions) + Executions(onChange)
    {
      if value.ItemArray? {
        if property.MultiValue? {
          setterLog := setterLog + [MultiValue(value.values)];
        }
      } else if property.SingleValue? {
        setterLog := setterLog + [SingleValue(value.value)];
      } else {
        return Throw(Error(ShapeMismatchMessage));
      }
      if ChangeActionRuns(onChange) {
        executions := executions + 1;
      }
      return Pass;
    }

    /** `add(value)`: Single replaces, Multi appends an id not yet selected. */
    method Add(value: ObjectItem)
      modifies this
      ensures property.SingleValue? ==>
        && setterLog == old(setterLog) + [SingleValue(Some(value))]
        && executions == old(executions) + Executions(onChange)
      ensures property.MultiValue? && !IsSelected(value) ==>
        && setterLog == old(setterLog) + [MultiValue(property.selections + [value])]
        && executions == old(executions) + Executions(onChange)
      ensures property.MultiValue? && IsSelected(value) ==> unchanged(this)
      ensures setterLog != old(setterLog) ==> IsSelectedIn(NextSelection(), value)
      ensures property.MultiValue? && NoDuplicateIds(property.selections) && setterLog != old(setterLog) ==>
        NoDuplicateIds(NextSelection().selections)
    {
      if property.SingleValue? {
        var outcome := SetSelection(Scalar(Some(value)));
      } else if !IsSelected(value) {
        HasIdIff(property.selections, value.id);
        var outcome := SetSelection(ItemArray(property.selections + [value]));
        if NoDuplicateIds(property.selections) {
          AppendPreservesNoDuplicateIds(property.selections, value);
        }
        assert value in SelectedItems(NextSelection());
      }
    }

    /** `remove(value)`: Single clears, Multi drops every item with `value`'s id. */
    method Remove(value: ObjectItem)
      modifies this
      ensures property.SingleValue? ==>
        && setterLog == old(setterLog) + [SingleValue(None)]
        && executions == old(executions) + Executions(onChange)
      ensures property.MultiValue? && IsSelected(value) ==>
        && setterLog == old(setterLog) + [MultiValue(WithoutId(property.selections, value.id))]
        && executions == old(executions) + Executions(onChange)
      ensures property.MultiValue? && !IsSelected(value) ==> unchanged(this)
      ensures setterLog != old(setterLog) ==> !IsSelectedIn(NextSelection(), value)
      ensures property.MultiValue? && NoDuplicateIds(property.selections) && setterLog != old(setterLog) ==>
        NoDuplicateIds(NextSelection().selections)
    {
      if property.SingleValue? {
        var outcome := SetSelection(Scalar(None));
      } else if IsSelected(value) {
        var outcome := SetSelection(ItemArray(WithoutId(property.selections, value.id)));
        WithoutIdMembers(property.selections, value.id);
        if NoDuplicateIds(property.selections) {
          WithoutIdPreservesNoDuplicateIds(property.selections, value.id);
        }
      }
    }

    /** `selectAll()`: in Multi mode over an available datasource, select all of its items. */
    method SelectAll() returns (r: Outcome)
      modifies this
      ensures property.SingleValue? ==>
        r == Throw(Error(SelectAllSingleMessage)) && unchanged(this)
      ensures property.MultiValue? && list.status != Available ==>
        r == Throw(Error(SelectAllUnavailableMessage)) && unchanged(this)
      ensures property.MultiValue? && list.status == Available ==>
        && r == Pass
        && setterLog == old(setterLog) + [MultiValue(ItemsOrEmpty(list))]
        && executions == old(executions) + Executions(onChange)
      ensures r.Pass? && ItemsOrEmpty(list) != [] ==> StatusOf(NextSelection(), list) == Ok(SelectedAll)
    {
      if property.SingleValue? {
        return Throw(Error(SelectAllSingleMessage));
      }
      if list.status != Available {
        return Throw(Error(SelectAllUnavailableMessage));
      }
      r := SetSelection(ItemArray(ItemsOrEmpty(list)));
    }

    /** `selectNone()`: in Multi mode over an available datasource, clear the selection. */
    method SelectNone() returns (r: Outcome)
      modifies this
      ensures property.SingleValue? ==>
        r == Throw(Error(SelectNoneSingleMessage)) && unchanged(this)
      ensures property.MultiValue? && list.status != Available ==>
        r == Throw(Error(SelectNoneUnavailableMessage)) && unchanged(this)
      ensures property.MultiValue? && list.status == Available ==>
        && r == Pass
        && setterLog == old(setterLog) + [MultiValue([])]
        && executions == old(executions) + Executions(onChange)
      ensures r.Pass? ==> StatusOf(NextSelection(), list) == Ok(SelectedNone)
    {
      if property.SingleValue? {
        return Throw(Error(SelectNoneSingleMessage));
      }
      if list.status != Available {
        return Throw(Error(SelectNoneUnavailableMessage));
      }
      r := SetSelection(ItemArray([]));
    }
  }

  // ---------------------------------------------------------------------
  // Clients: what a widget sees through one wrapper and across renders

  /**
   * Two `add` calls on one wrapper both start from its snapshot: from an
   * empty selection the host receives `[a]` and then `[b]`, not `[a, b]`,
   * and each call may execute the change action. This holds even when `a`
   * and `b` share an id.
   */
  method AddTwiceOnOneSnapshot(a: ObjectItem, b: ObjectItem, list: ListValue, onChange: Option<ActionValue>)
    returns (log: seq<SelectionProperty>, executions: nat)
    ensures log == [MultiValue([a]), MultiValue([b])]
    ensures executions == 2 * Executions(onChange)
  {
    var wrapper := new SelectionWrapperImpl(MultiValue([]), list, onChange);
    assert [] + [a] == [a] && [] + [b] == [b];
    wrapper.Add(a);
    wrapper.Add(b);
    log, executions := wrapper.setterLog, wrapper.executions;
  }

  /**
   * `add` on one render and `remove` of the same item on the next, over the
   * wrapper built from the selection the host handed on, give back the
   * selection the first render started from.
   */
  method AddThenRemoveAcrossRenders(s: seq<ObjectItem>, v: ObjectItem, list: ListValue)
    returns (next: SelectionProperty)
    requires !HasId(s, v.id)
    ensures next == MultiValue(s)
  {
    var first := new SelectionWrapperImpl(MultiValue(s), list, None);
    HasIdIff(s, v.id);
    first.Add(v);
    var second := new SelectionWrapperImpl(first.NextSelection(), list, None);
    HasIdIff(s + [v], v.id);
    assert v in s + [v];
    second.Remove(v);
    RemoveUndoesAdd(s, v);
    next := second.NextSelection();
  }
}
