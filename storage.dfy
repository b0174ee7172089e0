/**
 * The client that reaches a photo store on a Synology NAS: one POST per
 * remote operation to `{host}{base path}/<Endpoint>.php`, plus two strings
 * it formats locally and the cache root it keeps.
 */
module Storage {
  import opened Wrappers
  import opened Wire
  import opened Transport
  import opened Marshalling
  import opened Paths

  const DefaultBasePath: string := "/photocentral-storage/public"
  const DefaultPhotoCachePath: string := "/photos/cache/synology/"
  const DefaultSearchLimit: int := 10
  const DefaultListLimit: int := 5

  /** The message of the exception thrown when no cache root is set (spelled as the client spells it). */
  const NoCachePathMessage: string := "No cache pach set"

  /** A named size variant of a photo; the client only uses its short id (`getId()`). */
  datatype ImageDimensions = ImageDimensions(id: string)

  /** The storage exception the client throws. */
  datatype StorageError = PhotoCentralStorageException(message: string)

  class SynologyStorage {
    /** The NAS host address; `None` is PHP `null`. */
    var hostAddress: Option<string>
    /** The path of the storage API under the host. */
    var basePath: string
    /** The local cache root; `None` when no cache is configured. */
    var photoCachePath: Option<string>

    /** Every argument may be left out and then takes the client's default. */
    constructor (hostAddress: Option<string> := None, basePath: string := DefaultBasePath,
                 photoCachePath: Option<string> := Some(DefaultPhotoCachePath))
      ensures this.hostAddress == hostAddress && this.basePath == basePath
      ensures this.photoCachePath == photoCachePath
    {
      this.hostAddress := hostAddress;
      this.basePath := basePath;
      this.photoCachePath := photoCachePath;
    }

    /** The host followed by the base path; a `null` host contributes nothing. */
    function BaseUrl(): (url: string)
      reads this
      ensures hostAddress.None? ==> url == basePath
      ensures hostAddress.Some? ==> url == hostAddress.value + basePath
    {
      hostAddress.GetOr([]) + basePath
    }

    method SearchPhotos<P>(transport: RecordingTransport, fromArray: Json -> P, searchString: string,
                           photoCollectionIdList: Option<seq<string>>, limit: int := DefaultSearchLimit)
      returns (photos: seq<P>)
      modifies transport
      ensures transport.url == BaseUrl() + "/Search.php"
      ensures transport.postParameters == map[
                "search_string" := Str(searchString),
                "limit" := Int(limit),
                "photo_collection_id_list" := CollectionIdList(photoCollectionIdList)]
      ensures transport.jsonResponse == old(transport.jsonResponse)
      ensures transport.requestCount == old(transport.requestCount) + 1
      ensures ElementwiseDecoded(photos, transport.jsonResponse, fromArray)
    {
      var url := BaseUrl() + "/Search.php";
      var postParameters := map[
        "search_string" := Str(searchString),
        "limit" := Int(limit),
        "photo_collection_id_list" := CollectionIdList(photoCollectionIdList)];
      var photoListArray := transport.DoPostRequestWithJsonResponse(url, postParameters);
      photos := DecodeList(photoListArray, fromArray);
    }

    method ListPhotos<P>(transport: RecordingTransport, fromArray: Json -> P,
                         photoFilters: Option<seq<PhotoFilter>> := None,
                         photoSortingParameters: Option<seq<PhotoSortingParameter>> := None,
                         limit: int := DefaultListLimit)
      returns (photos: seq<P>)
      modifies transport
      ensures transport.url == BaseUrl() + "/ListPhotos.php"
      ensures transport.postParameters == map[
                "photo_filters" := Flattened(photoFilters),
                "photo_sorting_parameters" := Flattened(photoSortingParameters),
                "limit" := Int(limit)]
      ensures transport.jsonResponse == old(transport.jsonResponse)
      ensures transport.requestCount == old(transport.requestCount) + 1
      ensures ElementwiseDecoded(photos, transport.jsonResponse, fromArray)
    {
      var url := BaseUrl() + "/ListPhotos.php";
      var photoFiltersArray := FlattenByClassName(photoFilters);
      var photoSortingParametersArray := FlattenByClassName(photoSortingParameters);
      var postParameters := map[
        "photo_filters" := photoFiltersArray,
        "photo_sorting_parameters" := photoSortingParametersArray,
        "limit" := Int(limit)];
      var photoListArray := transport.DoPostRequestWithJsonResponse(url, postParameters);
      photos := DecodeList(photoListArray, fromArray);
    }

    /** Decodes whatever the endpoint answers; a missing photo is not treated specially. */
    method GetPhoto<P>(transport: RecordingTransport, fromArray: Json -> P, photoUuid: string,
                       photoCollectionId: string)
      returns (photo: P)
      modifies transport
      ensures transport.url == BaseUrl() + "/GetPhoto.php"
      ensures transport.postParameters == map[
                "photo_uuid" := Str(photoUuid),
                "photo_collection_id" := Str(photoCollectionId)]
      ensures transport.jsonResponse == old(transport.jsonResponse)
      ensures transport.requestCount == old(transport.requestCount) + 1
      ensures photo == fromArray(transport.jsonResponse)
    {
      var url := BaseUrl() + "/GetPhoto.php";
      var postParameters := map[
        "photo_uuid" := Str(photoUuid),
        "photo_collection_id" := Str(photoCollectionId)];
      var photoArray := transport.DoPostRequestWithJsonResponse(url, postParameters);
      photo := fromArray(photoArray);
    }

    /** Reports success without contacting the storage. */
    method SoftDeletePhoto(photoUuid: string) returns (success: bool)
      ensures success
    {
      success := true;
    }

    /** Reports success without contacting the storage. */
    method UndoSoftDeletePhoto(photoUuid: string) returns (success: bool)
      ensures success
    {
      success := true;
    }

    method ListPhotoCollections<C>(transport: RecordingTransport, fromArray: Json -> C, limit: int)
      returns (photoCollections: seq<C>)
      modifies transport
      ensures transport.url == BaseUrl() + "/ListPhotoCollections.php"
      ensures transport.postParameters == map["limit" := Int(limit)]
      ensures transport.jsonResponse == old(transport.jsonResponse)
      ensures transport.requestCount == old(transport.requestCount) + 1
      ensures ElementwiseDecoded(photoCollections, transport.jsonResponse, fromArray)
    {
      var url := BaseUrl() + "/ListPhotoCollections.php";
      var postParameters := map["limit" := Int(limit)];
      var photoCollectionListArray := transport.DoPostRequestWithJsonResponse(url, postParameters);
      photoCollections := DecodeList(photoCollectionListArray, fromArray);
    }

    /** The display URL; the collection id takes no part in it. */
    function PathOrUrlToPhoto(photoUuid: string, imageDimensions: ImageDimensions,
                              photoCollectionId: Option<string>): (url: string)
      reads this
      ensures url == DisplayPhotoUrl(BaseUrl(), photoUuid, imageDimensions.id)
      ensures '&' !in photoUuid ==> ParseDisplayPhotoUrl(BaseUrl(), url) == Some((photoUuid, imageDimensions.id))
    {
      assert '&' !in photoUuid
             ==> ParseDisplayPhotoUrl(BaseUrl(), DisplayPhotoUrl(BaseUrl(), photoUuid, imageDimensions.id))
                 == Some((photoUuid, imageDimensions.id)) by {
        if '&' !in photoUuid {
          DisplayPhotoUrlRoundTrip(BaseUrl(), photoUuid, imageDimensions.id);
        }
      }
      BaseUrl() + "/DisplayPhoto.php?photo_uuid=" + photoUuid + "&image_dimensions_id=" + imageDimensions.id
    }

    /** Sets (or, with `None`, clears) the cache root. */
    method SetPhotoCache(photoCachePath: Option<string>)
      modifies this`photoCachePath
      ensures GetPhotoCache() == photoCachePath
      ensures hostAddress == old(hostAddress) && basePath == old(basePath)
    {
      this.photoCachePath := photoCachePath;
    }

    function GetPhotoCache(): Option<string>
      reads this
    {
      photoCachePath
    }

    /**
     * The cache path of a photo, or the storage exception when no cache root
     * is set. The root and the collection id are joined without a separator.
     */
    function PathOrUrlToCachedPhoto(photoUuid: string, imageDimensions: ImageDimensions,
                                    photoCollectionId: string): (r: Result<string, StorageError>)
      reads this
      ensures r.Failure? <==> photoCachePath.None?
      ensures r.Failure? ==> r.error == PhotoCentralStorageException(NoCachePathMessage)
      ensures r.Success? ==> r.value == CachedPhotoPath(photoCachePath.value, photoCollectionId,
                                                        imageDimensions.id, photoUuid)
      ensures r.Success? && DirectorySeparator !in photoCollectionId && DirectorySeparator !in imageDimensions.id
              ==> ParseCachedPhotoPath(photoCachePath.value, r.value)
                  == Some((photoCollectionId, imageDimensions.id, photoUuid))
    {
      match photoCachePath
      case None => Failure(PhotoCentralStorageException(NoCachePathMessage))
      case Some(root) =>
        var path := CachedPhotoPath(root, photoCollectionId, imageDimensions.id, photoUuid);
        assert DirectorySeparator !in photoCollectionId && DirectorySeparator !in imageDimensions.id
               ==> ParseCachedPhotoPath(root, path) == Some((photoCollectionId, imageDimensions.id, photoUuid)) by {
          if DirectorySeparator !in photoCollectionId && DirectorySeparator !in imageDimensions.id {
            CachedPhotoPathRoundTrip(root, photoCollectionId, imageDimensions.id, photoUuid);
          }
        }
        Success(root + photoCollectionId + [DirectorySeparator] + imageDimensions.id + [DirectorySeparator]
                + photoUuid + ".jpg")
    }

    method ListPhotoQuantityByYear<Q>(transport: RecordingTransport, fromArray: Json -> Q,
                                      photoCollectionIdList: Option<seq<string>>)
      returns (quantities: seq<Q>)
      modifies transport
      ensures transport.url == BaseUrl() + "/ListPhotoQuantityByYear.php"
      ensures transport.postParameters == map[
                "photo_collection_id_list" := CollectionIdList(photoCollectionIdList)]
      ensures transport.jsonResponse == old(transport.jsonResponse)
      ensures transport.requestCount == old(transport.requestCount) + 1
      ensures ElementwiseDecoded(quantities, transport.jsonResponse, fromArray)
    {
      var url := BaseUrl() + "/ListPhotoQuantityByYear.php";
      var postParameters := map["photo_collection_id_list" := CollectionIdList(photoCollectionIdList)];
      var photoQuantityYearListArray := transport.DoPostRequestWithJsonResponse(url, postParameters);
      quantities := DecodeList(photoQuantityYearListArray, fromArray);
    }

    method ListPhotoQuantityByMonth<Q>(transport: RecordingTransport, fromArray: Json -> Q, year: int,
                                       photoCollectionIdList: Option<seq<string>>)
      returns (quantities: seq<Q>)
      modifies transport
      ensures transport.url == BaseUrl() + "/ListPhotoQuantityByMonth.php"
      ensures transport.postParameters == map[
                "year" := Int(year),
                "photo_collection_id_list" := CollectionIdList(photoCollectionIdList)]
      ensures transport.jsonResponse == old(transport.jsonResponse)
      ensures transport.requestCount == old(transport.requestCount) + 1
      ensures ElementwiseDecoded(quantities, transport.jsonResponse, fromArray)
    {
      var url := BaseUrl() + "/ListPhotoQuantityByMonth.php";
      var postParameters := map[
        "year" := Int(year),
        "photo_collection_id_list" := CollectionIdList(photoCollectionIdList)];
      var photoQuantityMonthListArray := transport.DoPostRequestWithJsonResponse(url, postParameters);
      quantities := DecodeList(photoQuantityMonthListArray, fromArray);
    }

    method ListPhotoQuantityByDay<Q>(transport: RecordingTransport, fromArray: Json -> Q, month: int,
                                     year: int, photoCollectionIdList: Option<seq<string>>)
      returns (quantities: seq<Q>)
      modifies transport
      ensures transport.url == BaseUrl() + "/ListPhotoQuantityByDay.php"
      ensures transport.postParameters == map[
                "year" := Int(year),
                "month" := Int(month),
                "photo_collection_id_list" := CollectionIdList(photoCollectionIdList)]
      ensures transport.jsonResponse == old(transport.jsonResponse)
      ensures transport.requestCount == old(transport.requestCount) + 1
      ensures ElementwiseDecoded(quantities, transport.jsonResponse, fromArray)
    {
      var url := BaseUrl() + "/ListPhotoQuantityByDay.php";
      var postParameters := map[
        "year" := Int(year),
        "month" := Int(month),
        "photo_collection_id_list" := CollectionIdList(photoCollectionIdList)];
      var photoQuantityDayListArray := transport.DoPostRequestWithJsonResponse(url, postParameters);
      quantities := DecodeList(photoQuantityDayListArray, fromArray);
    }
  }
}
