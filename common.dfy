/** Option, for the values the plugins leave undefined or null. */
module Wrappers {
  datatype Option<+T> = None | Some(value: T)
}

/** The part of the DOM the plugins see: elements by identity. */
module Dom {
  import opened Wrappers

  /** An HTML element, identified by number. */
  type NodeId = nat

  /** A `rootNode` option: given the carousel's root element, an element or null. */
  type RootResolver = NodeId -> Option<NodeId>
}
