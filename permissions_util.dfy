/**
 * Runtime-permission checks (`PermissionsUtil`). The platform's grant state
 * is given as the set of granted permission names.
 */
module PermissionsUtil {

  const Camera: string := "android.permission.CAMERA"
  const RecordAudio: string := "android.permission.RECORD_AUDIO"

  /** PHOTO_PERMISSIONS and VIDEO_PERMISSIONS. */
  const PhotoPermissions: seq<string> := [Camera]
  const VideoPermissions: seq<string> := [Camera, RecordAudio]

  /** arePermissionsGranted: every listed permission is granted. */
  function ArePermissionsGranted(permissions: seq<string>, granted: set<string>): (r: bool)
    ensures r <==> forall i :: 0 <= i < |permissions| ==> permissions[i] in granted
  {
    if permissions == [] then true
    else permissions[0] in granted && ArePermissionsGranted(permissions[1..], granted)
  }

  /** getMissingPermissions: the permissions not granted, in list order. */
  function GetMissingPermissions(permissions: seq<string>, granted: set<string>): (missing: seq<string>)
    ensures |missing| <= |permissions|
    ensures forall p :: p in missing <==> p in permissions && p !in granted
  {
    if permissions == [] then []
    else
      (if permissions[0] in granted then [] else [permissions[0]])
      + GetMissingPermissions(permissions[1..], granted)
  }

  /** The filter keeps list order: it distributes over concatenation, and a
      one-element list keeps its element exactly when it is not granted. */
  lemma {:induction false} MissingOfConcat(a: seq<string>, b: seq<string>, granted: set<string>)
    ensures GetMissingPermissions(a + b, granted)
         == GetMissingPermissions(a, granted) + GetMissingPermissions(b, granted)
  {
    if a != [] {
      assert (a + b)[1..] == a[1..] + b;
      MissingOfConcat(a[1..], b, granted);
    } else {
      assert a + b == b;
    }
  }

  lemma MissingOfOne(p: string, granted: set<string>)
    ensures GetMissingPermissions([p], granted) == (if p in granted then [] else [p])
  {
    assert [p][1..] == [];
  }

  /** Nothing is missing exactly when everything is granted. */
  lemma MissingEmptyIffGranted(permissions: seq<string>, granted: set<string>)
    ensures GetMissingPermissions(permissions, granted) == [] <==> ArePermissionsGranted(permissions, granted)
  {
    var missing := GetMissingPermissions(permissions, granted);
    if missing != [] {
      assert missing[0] in missing;
    }
    if !ArePermissionsGranted(permissions, granted) {
      var i :| 0 <= i < |permissions| && permissions[i] !in granted;
      assert permissions[i] in missing;
    }
  }

  /** The photo permissions are a part of the video permissions, so whoever
      may record video may take photos. */
  lemma VideoGrantImpliesPhotoGrant(granted: set<string>)
    ensures ArePermissionsGranted(VideoPermissions, granted) ==> ArePermissionsGranted(PhotoPermissions, granted)
    ensures forall p :: p in PhotoPermissions ==> p in VideoPermissions
  {
    assert VideoPermissions[0] == PhotoPermissions[0];
  }
}
