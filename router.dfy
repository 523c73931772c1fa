/**
 * What a route wrapper hands to the router: either its children are rendered,
 * or a `<Navigate to=... replace />` element sends the browser elsewhere.
 */
module Router {

  /** A path inside the application, such as "/" or "/employee-leave". */
  type Path = string

  datatype Element = Children | Navigate(to: Path)
}
