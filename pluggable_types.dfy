/**
 * The host platform's values as the widgets see them: an object item known
 * only by its id, the single and multi selection properties, the list
 * datasource and an action.
 */
module PluggableTypes {

  /** `T | undefined`. */
  datatype Option<+T> = None | Some(value: T) {

    /** The `??` operator: the value, or `default` when undefined. */
    function GetOr(default: T): T {
      if Some? then value else default
    }
  }

  type Guid = string

  /**
   * A host-managed record. The widgets code reads nothing of it but `id`;
   * `handle` stands for the identity of the host object, so two items may
   * share an id and still be different values.
   */
  datatype ObjectItem = ObjectItem(id: Guid, handle: nat)

  /**
   * A selection property: `SelectionSingleValue` holds an optional item,
   * `SelectionMultiValue` an ordered list of items.
   */
  datatype SelectionProperty =
    | SingleValue(selection: Option<ObjectItem>)
    | MultiValue(selections: seq<ObjectItem>)

  /** The loading status of a host value. */
  datatype ValueStatus = Available | Loading | Unavailable

  /** A list datasource: its status and its (possibly undefined) items. */
  datatype ListValue = ListValue(status: ValueStatus, items: Option<seq<ObjectItem>>)

  /** A host action, reduced to the two flags the selection code reads. */
  datatype ActionValue = ActionValue(canExecute: bool, isExecuting: bool)
}
