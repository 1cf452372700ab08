/**
 * The gallery activity (`GalleryActivity`): a grid of the media folder,
 * newest first, under an item-count label (`MediaListing.SetupGrid`); a tap
 * opens the full-screen viewer on the tapped position, and the navigation
 * bar switches mode.
 */
module GalleryActivity {
  import opened Wrappers
  import opened MediaListing
  import FullScreenFragment

  /** Where the activity sends the user. */
  datatype Destination =
    | FullScreen(currentIndex: int)
    | PhotoMode
    | VideoMode

  /** onItemClick: the full-screen screen with "current_index" = position. */
  function OnItemClick(position: int): (d: Destination)
    ensures d.FullScreen? && d.currentIndex == position
  {
    FullScreen(position)
  }

  datatype NavChoice = GalleryChoice | PhotoChoice | VideoChoice

  /** The navigation bar: the gallery entry does nothing here, the others
      start their activity. */
  function OnNavSelected(choice: NavChoice): (d: Option<Destination>)
    ensures d.None? <==> choice == GalleryChoice
    ensures choice == PhotoChoice ==> d == Some(PhotoMode)
    ensures choice == VideoChoice ==> d == Some(VideoMode)
  {
    match choice
    case GalleryChoice => None
    case PhotoChoice => Some(PhotoMode)
    case VideoChoice => Some(VideoMode)
  }

  /** A tap on a listed item, read back by a viewer over the same folder as
      its "current_index" argument, shows the tapped file. */
  lemma TapShowsTappedFile(listing: Option<seq<MediaFile>>, position: int)
    requires 0 <= position < |SetupGrid(listing).mediaFiles|
    ensures var files := ListMediaFiles(listing);
      var shown := FullScreenFragment.Clamped(
        FullScreenFragment.RequestedIndex(Some(OnItemClick(position).currentIndex)), |files|);
      0 <= shown < |files| && files[shown] == SetupGrid(listing).mediaFiles[position]
  {
  }
}
