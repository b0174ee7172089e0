/**
 * The two strings the client formats locally, without a request: the URL at
 * which the storage displays a photo, and the path under which a resized
 * photo is expected in the local cache. Each comes with the parser that
 * reads its parts back out.
 */
module Paths {
  import opened Wrappers
  import opened Text

  /** PHP's DIRECTORY_SEPARATOR on the platforms the client targets. */
  const DirectorySeparator: char := '/'

  /** The fixed text between the base URL and the photo's UUID. */
  const DisplayPhotoQuery: string := "/DisplayPhoto.php?photo_uuid="
  /** The query key that follows the `&` after the UUID. */
  const DimensionsKey: string := "image_dimensions_id="
  /** The file extension of a cached photo. */
  const CachedPhotoExtension: string := ".jpg"

  /** The display URL of a photo at the given dimensions. */
  function DisplayPhotoUrl(baseUrl: string, photoUuid: string, imageDimensionsId: string): string {
    baseUrl + "/DisplayPhoto.php?photo_uuid=" + photoUuid + "&image_dimensions_id=" + imageDimensionsId
  }

  /** Reads the UUID and the dimensions id back out of a display URL under `baseUrl`. */
  function ParseDisplayPhotoUrl(baseUrl: string, url: string): Option<(string, string)> {
    var prefix := baseUrl + DisplayPhotoQuery;
    if |url| < |prefix| || url[..|prefix|] != prefix then None
    else match SplitAtFirst(url[|prefix|..], '&')
      case None => None
      case Some(parts) =>
        var tail := parts.1;
        if |tail| < |DimensionsKey| || tail[..|DimensionsKey|] != DimensionsKey then None
        else Some((parts.0, tail[|DimensionsKey|..]))
  }

  /** The display URL gives back its UUID and dimensions id, provided the UUID holds no `&`. */
  lemma DisplayPhotoUrlRoundTrip(baseUrl: string, photoUuid: string, imageDimensionsId: string)
    requires '&' !in photoUuid
    ensures ParseDisplayPhotoUrl(baseUrl, DisplayPhotoUrl(baseUrl, photoUuid, imageDimensionsId))
            == Some((photoUuid, imageDimensionsId))
  {
    var prefix := baseUrl + DisplayPhotoQuery;
    var url := DisplayPhotoUrl(baseUrl, photoUuid, imageDimensionsId);
    var tail := DimensionsKey + imageDimensionsId;
    assert url == prefix + (photoUuid + ['&'] + tail);
    assert url[..|prefix|] == prefix;
    assert url[|prefix|..] == photoUuid + ['&'] + tail;
    SplitAtFirstOfJoin(photoUuid, '&', tail);
    assert tail[..|DimensionsKey|] == DimensionsKey;
    assert tail[|DimensionsKey|..] == imageDimensionsId;
  }

  /** A display URL the parser accepts is exactly the display URL of the parts it returns. */
  lemma ParseDisplayPhotoUrlSound(baseUrl: string, url: string, photoUuid: string, imageDimensionsId: string)
    requires ParseDisplayPhotoUrl(baseUrl, url) == Some((photoUuid, imageDimensionsId))
    ensures '&' !in photoUuid && url == DisplayPhotoUrl(baseUrl, photoUuid, imageDimensionsId)
  {
    var prefix := baseUrl + DisplayPhotoQuery;
    var parts := SplitAtFirst(url[|prefix|..], '&').value;
    JoinDisplayPhotoUrl(baseUrl, url, photoUuid, parts.1, imageDimensionsId);
  }

  /** A URL whose prefix, UUID and dimensions part are known is their display URL (stated apart so the solver sees only these facts). */
  lemma JoinDisplayPhotoUrl(baseUrl: string, url: string, photoUuid: string, tail: string, dims: string)
    requires |url| >= |baseUrl + DisplayPhotoQuery|
    requires url[..|baseUrl + DisplayPhotoQuery|] == baseUrl + DisplayPhotoQuery
    requires url[|baseUrl + DisplayPhotoQuery|..] == photoUuid + ['&'] + tail
    requires |tail| >= |DimensionsKey| && tail[..|DimensionsKey|] == DimensionsKey
    requires dims == tail[|DimensionsKey|..]
    ensures url == DisplayPhotoUrl(baseUrl, photoUuid, dims)
  {
  }

  /**
   * The cache path of a photo: the cache root, directly followed by the
   * collection id, then the dimensions id and the UUID with `.jpg`.
   */
  function CachedPhotoPath(cacheRoot: string, photoCollectionId: string, imageDimensionsId: string,
                           photoUuid: string): string
  {
    cacheRoot + photoCollectionId + [DirectorySeparator] + imageDimensionsId + [DirectorySeparator]
      + photoUuid + ".jpg"
  }

  /** Reads the collection id, dimensions id and UUID back out of a cache path under `cacheRoot`. */
  function ParseCachedPhotoPath(cacheRoot: string, path: string): Option<(string, string, string)> {
    if |path| < |cacheRoot| || path[..|cacheRoot|] != cacheRoot then None
    else match SplitAtFirst(path[|cacheRoot|..], DirectorySeparator)
      case None => None
      case Some(first) =>
        match SplitAtFirst(first.1, DirectorySeparator)
        case None => None
        case Some(second) =>
          var file := second.1;
          var n := |file| - |CachedPhotoExtension|;
          if n < 0 || file[n..] != CachedPhotoExtension then None
          else Some((first.0, second.0, file[..n]))
  }

  /**
   * The cache path gives back its collection id, dimensions id and UUID,
   * provided neither id holds a directory separator.
   */
  lemma CachedPhotoPathRoundTrip(cacheRoot: string, photoCollectionId: string, imageDimensionsId: string,
                                 photoUuid: string)
    requires DirectorySeparator !in photoCollectionId && DirectorySeparator !in imageDimensionsId
    ensures ParseCachedPhotoPath(cacheRoot, CachedPhotoPath(cacheRoot, photoCollectionId, imageDimensionsId, photoUuid))
            == Some((photoCollectionId, imageDimensionsId, photoUuid))
  {
    var sep := DirectorySeparator;
    var path := CachedPhotoPath(cacheRoot, photoCollectionId, imageDimensionsId, photoUuid);
    var file := photoUuid + CachedPhotoExtension;
    var afterCollection := imageDimensionsId + [sep] + file;
    assert path == cacheRoot + (photoCollectionId + [sep] + afterCollection);
    assert path[..|cacheRoot|] == cacheRoot;
    assert path[|cacheRoot|..] == photoCollectionId + [sep] + afterCollection;
    SplitAtFirstOfJoin(photoCollectionId, sep, afterCollection);
    SplitAtFirstOfJoin(imageDimensionsId, sep, file);
    assert file[|photoUuid|..] == CachedPhotoExtension;
    assert file[..|photoUuid|] == photoUuid;
  }

  /** A cache path the parser accepts is exactly the cache path of the parts it returns. */
  lemma ParseCachedPhotoPathSound(cacheRoot: string, path: string, photoCollectionId: string,
                                  imageDimensionsId: string, photoUuid: string)
    requires ParseCachedPhotoPath(cacheRoot, path) == Some((photoCollectionId, imageDimensionsId, photoUuid))
    ensures DirectorySeparator !in photoCollectionId && DirectorySeparator !in imageDimensionsId
    ensures path == CachedPhotoPath(cacheRoot, photoCollectionId, imageDimensionsId, photoUuid)
  {
    var first := SplitAtFirst(path[|cacheRoot|..], DirectorySeparator).value;
    var second := SplitAtFirst(first.1, DirectorySeparator).value;
    JoinCachedPhotoPath(cacheRoot, path, first.0, second.0, second.1, photoUuid);
  }

  /** A path whose root, ids and file part are known is their cache path (stated apart so the solver sees only these facts). */
  lemma JoinCachedPhotoPath(cacheRoot: string, path: string, photoCollectionId: string,
                            imageDimensionsId: string, file: string, photoUuid: string)
    requires |path| >= |cacheRoot| && path[..|cacheRoot|] == cacheRoot
    requires path[|cacheRoot|..]
             == photoCollectionId + [DirectorySeparator] + (imageDimensionsId + [DirectorySeparator] + file)
    requires |file| >= |CachedPhotoExtension| && photoUuid == file[..|file| - |CachedPhotoExtension|]
    requires file[|file| - |CachedPhotoExtension|..] == CachedPhotoExtension
    ensures path == CachedPhotoPath(cacheRoot, photoCollectionId, imageDimensionsId, photoUuid)
  {
  }
}
