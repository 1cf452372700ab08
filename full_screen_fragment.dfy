/**
 * The full-screen viewer (`FullScreenFragment`): it lists the media folder
 * newest first, opens at the requested index clamped into the list, and its
 * delete button removes the shown file from the disk and from the list.
 */
module FullScreenFragment {
  import opened Wrappers
  import opened MediaListing

  /** The argument bundle built by newInstance: "current_index" = index. */
  function NewInstance(index: int): (arguments: Option<int>)
    ensures arguments.Some? && arguments.value == index
  {
    Some(index)
  }

  /** `arguments?.getInt("current_index", 0) ?: 0`: a missing bundle or key reads as 0. */
  function RequestedIndex(arguments: Option<int>): (index: int)
    ensures arguments.None? ==> index == 0
    ensures arguments.Some? ==> index == arguments.value
  {
    match arguments
    case None => 0
    case Some(i) => i
  }

  /** The index the two clamp steps settle on, stated by where it lands. */
  function Clamped(index: int, size: nat): (r: int)
    ensures size == 0 ==> r == 0
    ensures size > 0 ==> 0 <= r < size
    ensures 0 <= index < size ==> r == index
    ensures size > 0 && index >= size ==> r == size - 1
    ensures index < 0 ==> r == 0
  {
    if index >= size then (if size == 0 then 0 else size - 1)
    else if index < 0 then 0
    else index
  }

  /** `removeAt(position)`: the element at `position` leaves, the others keep
      their order. */
  function RemoveAt<T>(s: seq<T>, position: nat): (r: seq<T>)
    requires position < |s|
    ensures |r| == |s| - 1
    ensures forall i :: 0 <= i < position ==> r[i] == s[i]
    ensures forall i :: position <= i < |r| ==> r[i] == s[i + 1]
    ensures multiset(r) + multiset{s[position]} == multiset(s)
  {
    assert s == s[..position] + [s[position]] + s[position + 1..];
    s[..position] + s[position + 1..]
  }

  /** Removing one file from a newest-first list leaves it newest first. */
  lemma RemoveAtKeepsOrder(files: seq<MediaFile>, position: nat)
    requires position < |files| && NewestFirstOrder(files)
    ensures NewestFirstOrder(RemoveAt(files, position))
  {
    var r := RemoveAt(files, position);
    forall i, j | 0 <= i < j < |r|
      ensures r[i].lastModified >= r[j].lastModified
    {
      var i' := if i < position then i else i + 1;
      var j' := if j < position then j else j + 1;
      assert r[i] == files[i'] && r[j] == files[j'] && i' < j';
    }
  }

  class FullScreenViewer {
    var files: seq<MediaFile>
    var currentIndex: int
    /** Set once the screen has been left (`onBackPressed`). */
    var closed: bool

    ghost predicate Valid()
      reads this
    {
      NewestFirstOrder(files)
    }

    /** onViewCreated: list the folder, read the requested index and clamp it. */
    constructor (listing: Option<seq<MediaFile>>, arguments: Option<int>)
      ensures Valid() && !closed
      ensures files == ListMediaFiles(listing)
      ensures currentIndex == Clamped(RequestedIndex(arguments), |files|)
    {
      files := ListMediaFiles(listing);
      closed := false;
      currentIndex := RequestedIndex(arguments);
      new;
      if currentIndex >= |files| {
        currentIndex := |files| - 1;
      }
      if currentIndex < 0 {
        currentIndex := 0;
      }
    }

    /** The delete button. `position` is the pager's current item and
        `deleted` what `File.delete()` reports; the list shrinks only when the
        file is really gone, and the screen is left when nothing remains. */
    method DeleteCurrent(position: int, deleted: bool) returns (deletedFile: Option<MediaFile>)
      requires Valid()
      requires files != [] ==> 0 <= position < |files|
      modifies this`files, this`closed
      ensures Valid()
      ensures old(files) == [] || !deleted ==> files == old(files) && closed == old(closed) && deletedFile.None?
      ensures old(files) != [] && deleted ==>
                && deletedFile == Some(old(files)[position])
                && files == RemoveAt(old(files), position)
                && closed == (old(closed) || files == [])
    {
      deletedFile := None;
      if files != [] {
        var fileToDelete := files[position];
        if deleted {
          RemoveAtKeepsOrder(files, position);
          files := RemoveAt(files, position);
          deletedFile := Some(fileToDelete);
          if files == [] {
            closed := true;
          }
        }
      }
    }

    /** The back button. */
    method Back()
      modifies this`closed
      ensures closed
    {
      closed := true;
    }
  }

  /** Opening the viewer on a position the same listing has shows exactly that
      file: the clamp leaves an in-range index alone. */
  lemma OpenAtListedPosition(listing: Option<seq<MediaFile>>, position: int)
    requires 0 <= position < |ListMediaFiles(listing)|
    ensures Clamped(RequestedIndex(NewInstance(position)), |ListMediaFiles(listing)|) == position
  {
  }
}
