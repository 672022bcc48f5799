/**
 * The four states every dashboard widget renders, and the order in which the
 * component's flags select one: loading, then an error, then an empty list,
 * then the populated view.
 */
module RenderState {

  datatype View = Loading | Failed(message: string) | Empty | Populated

  /** `loading ? … : error ? … : isEmpty ? … : …`; an empty error string is falsy. */
  function ViewOf(loading: bool, error: string, isEmpty: bool): (v: View)
    ensures v.Loading? <==> loading
    ensures v.Failed? <==> !loading && error != ""
    ensures v.Failed? ==> v.message == error
    ensures v.Empty? <==> !loading && error == "" && isEmpty
    ensures v.Populated? <==> !loading && error == "" && !isEmpty
  {
    if loading then Loading
    else if error != "" then Failed(error)
    else if isEmpty then Empty
    else Populated
  }
}
