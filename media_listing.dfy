/**
 * The media list shown by the gallery screens and the full-screen viewer:
 * the files of the app's DCIM folder, newest `lastModified` first, and the
 * item-count label above the grid.
 */
module MediaListing {
  import opened Wrappers
  import opened Decimal

  /** A file of the media folder, with the time `lastModified` reports. */
  datatype MediaFile = MediaFile(name: string, lastModified: int)

  predicate NewestFirstOrder(files: seq<MediaFile>) {
    forall i, j :: 0 <= i < j < |files| ==> files[i].lastModified >= files[j].lastModified
  }

  /** One step of a stable insertion sort: `f` goes before the first file
      that is not newer than it. */
  function InsertNewestFirst(f: MediaFile, sorted: seq<MediaFile>): (r: seq<MediaFile>)
    requires NewestFirstOrder(sorted)
    ensures NewestFirstOrder(r)
    ensures multiset(r) == multiset(sorted) + multiset{f}
    ensures |r| == |sorted| + 1
    ensures r[0] == f || (sorted != [] && r[0] == sorted[0])
  {
    if sorted == [] then [f]
    else if sorted[0].lastModified <= f.lastModified then [f] + sorted
    else
      var rest := InsertNewestFirst(f, sorted[1..]);
      assert sorted == [sorted[0]] + sorted[1..];
      assert rest[0].lastModified <= sorted[0].lastModified;
      [sorted[0]] + rest
  }

  /** `sortedByDescending { it.lastModified() }`. */
  function NewestFirst(files: seq<MediaFile>): (r: seq<MediaFile>)
    ensures NewestFirstOrder(r)
    ensures multiset(r) == multiset(files)
    ensures |r| == |files|
  {
    if files == [] then []
    else
      assert files == [files[0]] + files[1..];
      InsertNewestFirst(files[0], NewestFirst(files[1..]))
  }

  /** A list already newest-first comes back unchanged, so sorting twice is
      sorting once. */
  lemma {:induction false} NewestFirstOfSorted(files: seq<MediaFile>)
    requires NewestFirstOrder(files)
    ensures NewestFirst(files) == files
  {
    if files != [] {
      NewestFirstOfSorted(files[1..]);
      assert files == [files[0]] + files[1..];
    }
  }

  lemma NewestFirstIdempotent(files: seq<MediaFile>)
    ensures NewestFirst(NewestFirst(files)) == NewestFirst(files)
  {
    NewestFirstOfSorted(NewestFirst(files));
  }

  /** setupMediaFiles: `listFiles()` gives null for a folder it cannot read,
      and then the list is empty. */
  function ListMediaFiles(listing: Option<seq<MediaFile>>): (files: seq<MediaFile>)
    ensures listing.None? ==> files == []
    ensures listing.Some? ==> NewestFirstOrder(files) && multiset(files) == multiset(listing.value)
  {
    match listing
    case None => []
    case Some(entries) => NewestFirst(entries)
  }

  /** displayItemCount: a fixed text for no file and for one file; from two
      on, the decimal count followed by " files", which reads back as the count. */
  function ItemCountLabel(count: nat): (text: string)
    ensures count == 0 ==> text == "No files yet"
    ensures count == 1 ==> text == "1 file"
    ensures count >= 2 ==>
              && |text| > 6 && text[|text| - 6..] == " files"
              && IsDigits(text[..|text| - 6]) && ParseDigits(text[..|text| - 6]) == count
  {
    if count == 0 then "No files yet"
    else if count == 1 then "1 file"
    else
      var digits := NatToString(count);
      ParseNatToString(count);
      assert (digits + " files")[..|digits|] == digits;
      digits + " files"
  }

  /** Different counts never share a label. */
  lemma ItemCountLabelInjective(m: nat, n: nat)
    requires ItemCountLabel(m) == ItemCountLabel(n)
    ensures m == n
  {
  }

  /** What a gallery screen shows once set up: the list and the label above it. */
  datatype MediaGrid = MediaGrid(mediaFiles: seq<MediaFile>, countText: string)

  /** setupMediaFiles followed by displayItemCount. The label counts the
      folder's entries: an unreadable or empty folder shows "No files yet", a
      folder of one file "1 file", and otherwise the number in front of
      " files" reads back as the number of entries. */
  function SetupGrid(listing: Option<seq<MediaFile>>): (grid: MediaGrid)
    ensures grid.mediaFiles == ListMediaFiles(listing)
    ensures var n := if listing.None? then 0 else |listing.value|;
      && (n == 0 ==> grid.countText == "No files yet")
      && (n == 1 ==> grid.countText == "1 file")
      && (n >= 2 ==> |grid.countText| > 6 && IsDigits(grid.countText[..|grid.countText| - 6])
                     && ParseDigits(grid.countText[..|grid.countText| - 6]) == n)
  {
    var files := ListMediaFiles(listing);
    assert listing.Some? ==> |multiset(files)| == |multiset(listing.value)|;
    MediaGrid(files, ItemCountLabel(|files|))
  }
}
