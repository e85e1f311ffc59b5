/** The optional value used wherever the page reads something that may be missing
    (a stored preference, the selected feature, an unset scroll prop). */
module Wrappers {
  datatype Option<+T> = None | Some(value: T) {
    function GetOr(default: T): (r: T)
      ensures Some? ==> r == value
      ensures None? ==> r == default
    {
      match this
      case Some(v) => v
      case None => default
    }
  }
}
