/**
 * The client's test fixtures, replayed against the contracts above: what a
 * caller can conclude from the specifications alone.
 */
module Scenarios {
  import opened Wrappers
  import opened Wire
  import opened Transport
  import opened Marshalling
  import opened Paths
  import opened Storage

  const Host: string := "100.0.0.1"

  /** A search without collection ids sends `null` for them and decodes the one photo returned. */
  method SearchSendsNullCollectionIds(photoArray: Json) {
    var transport := new RecordingTransport(JArray([photoArray]));
    var storage := new SynologyStorage(Some(Host), DefaultBasePath, None);
    var photos := storage.SearchPhotos(transport, j => j, "basketball", None, 20);
    assert transport.url == Host + DefaultBasePath + "/Search.php";
    assert transport.postParameters == map[
      "search_string" := Str("basketball"), "limit" := Int(20), "photo_collection_id_list" := Null];
    assert photos == [photoArray];
  }

  /** One collection-id filter is sent keyed by its class name; no sorting parameters send `null`. */
  method ListPhotosWithCollectionFilter(idA: string, idB: string) {
    var transport := new RecordingTransport(JArray([]));
    var storage := new SynologyStorage(Some(Host), DefaultBasePath, None);
    var className := "PhotoCentralStorage\\Model\\PhotoFilter\\PhotoCollectionIdFilter";
    var attributes := map["collection_ids" := List([Str(idA), Str(idB)])];
    var filter := PhotoObject(className, attributes);
    var photos := storage.ListPhotos(transport, j => j, Some([filter]), None, 2);
    ByClassNameLastWins([filter], 0);
    assert transport.postParameters["photo_filters"] == Map(map[className := Map(attributes)]);
    assert transport.postParameters["photo_sorting_parameters"] == Null;
    assert photos == [];
  }

  /** Without a cache root the cache path fails; after setting `test` it is `test<C>/sd/<U>.jpg`. */
  method CachedPathNeedsCacheRoot(photoUuid: string, photoCollectionId: string) {
    var storage := new SynologyStorage(Some(Host), DefaultBasePath, None);
    var sd := ImageDimensions("sd");
    assert storage.PathOrUrlToCachedPhoto(photoUuid, sd, photoCollectionId).Failure?;
    storage.SetPhotoCache(Some("test"));
    assert storage.GetPhotoCache() == Some("test");
    assert storage.PathOrUrlToCachedPhoto(photoUuid, sd, photoCollectionId)
           == Success("test" + photoCollectionId + ['/'] + "sd" + ['/'] + photoUuid + ".jpg");
  }

  /** The display URL follows host and base path, whatever collection id is passed. */
  method DisplayUrlOnHost(photoUuid: string, photoCollectionId: string) {
    var storage := new SynologyStorage(Some(Host), DefaultBasePath, None);
    var url := storage.PathOrUrlToPhoto(photoUuid, ImageDimensions("sd"), Some(photoCollectionId));
    assert url == Host + DefaultBasePath + "/DisplayPhoto.php?photo_uuid=" + photoUuid
                  + "&image_dimensions_id=" + "sd";
    assert url == storage.PathOrUrlToPhoto(photoUuid, ImageDimensions("sd"), None);
  }

  /** The defaults: no host, the public base path, and the synology cache root. */
  method ConstructorDefaults() {
    var storage := new SynologyStorage();
    assert storage.BaseUrl() == "/photocentral-storage/public";
    assert storage.GetPhotoCache() == Some("/photos/cache/synology/");
  }
}
