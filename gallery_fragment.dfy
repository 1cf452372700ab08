/**
 * The gallery fragment (`GalleryFragment`): the same newest-first grid and
 * label as the gallery activity (`MediaListing.SetupGrid`), embedded in a
 * host activity; a tap is forwarded only when that host is the main activity.
 */
module GalleryFragment {
  import opened Wrappers

  /** The activity the fragment is attached to. */
  datatype Host = MainActivityHost | OtherHost

  /** onItemClick: `(activity as? MainActivity)?.showFullScreenFragment(position)`;
      the result is the position handed to the host, if any. */
  function OnItemClick(host: Host, position: int): (forwarded: Option<int>)
    ensures forwarded.Some? <==> host == MainActivityHost
    ensures forwarded.Some? ==> forwarded.value == position
  {
    if host == MainActivityHost then Some(position) else None
  }
}
