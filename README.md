# SynologyStorage client, modelled in Dafny

This project models `SynologyStorage`, the PHP client that lets an application
reach a photo store on a Synology NAS. For each remote operation the client
builds the URL `{host}{base path}/<Endpoint>.php` and a POST parameter array.
It posts them, and maps the decoded JSON answer through the domain type's
`fromArray`. It also formats two strings locally, without a request: the
display URL of a photo, and the path of a resized photo in the local cache.
The only state is the host, the base path and an optional cache root. The
client can change the cache root through a setter.

Modules:

- `Wrappers` (wrappers.dfy). `Option` stands for PHP `null` in nullable positions. `Result` is for the one operation that throws.
- `Wire` (wire.dfy). `Value` is a value in a parameter array. `Json` is a decoded response. `Elements` gives what a PHP `foreach` visits in a response.
- `Transport` (transport.dfy). `RecordingTransport` is the transport as the test suite's mock has it. It records the last URL and parameter array and returns a preset decoded response. A ghost counter records how many requests were made.
- `Text` (text.dfy). `SplitAtFirst` splits a string at the first occurrence of a character.
- `Paths` (paths.dfy). It holds the display URL and the cache path, and a parser for each. The lemmas prove that each parser is the inverse of its formatter.
- `Marshalling` (marshalling.dfy). It flattens filter and sorting objects into arrays keyed by class name. It also converts the collection-id list and decodes list responses element by element.
- `Storage` (storage.dfy). This is the class `SynologyStorage` with its three fields and one member per operation of the client.
- `Scenarios` (scenarios.dfy). It replays the test suite's fixtures against the contracts.

Each remote method takes the transport to post through and the domain
decoder (`Photo::fromArray`, `PhotoCollection::fromArray`,
`PhotoQuantityYear::fromArray`, ...) as parameters. The methods are generic
in the decoded type. The client's PHP default arguments are Dafny default
parameter values: limits 10 and 5, no filters, and the constructor defaults.

## Model

| member | source | states |
|---|---|---|
| `Storage.SynologyStorage.constructor` | src/SynologyStorage.php:20-28 | The three fields take the arguments given. Defaults: no host, base path `/photocentral-storage/public`, cache root `/photos/cache/synology/`. |
| `Storage.SynologyStorage.BaseUrl` | src/SynologyStorage.php:168-171 | The base URL is the host followed by the base path. A null host contributes nothing, so the base URL is then the base path alone. |
| `Storage.SynologyStorage.SearchPhotos` | src/SynologyStorage.php:30-46 | Exactly one request, to `BaseUrl() + "/Search.php"`. Parameters: exactly `search_string`, `limit` and `photo_collection_id_list`, with null passed through. The result is the response's elements decoded by `fromArray`, same length and order. The client's own state is unchanged. |
| `Storage.SynologyStorage.ListPhotos` | src/SynologyStorage.php:48-82 | Exactly one request, to `/ListPhotos.php`. `photo_filters` and `photo_sorting_parameters` are the flattened lists (`Flattened`), plus `limit`. The result is the response decoded element-wise, in order. |
| `Storage.SynologyStorage.GetPhoto` | src/SynologyStorage.php:84-95 | Exactly one request, to `/GetPhoto.php`, with exactly `photo_uuid` and `photo_collection_id`. The result is `fromArray` of the whole decoded response. |
| `Storage.SynologyStorage.SoftDeletePhoto` | src/SynologyStorage.php:97-100 | Always returns true. It takes no transport, so it makes no request, and it changes no state. |
| `Storage.SynologyStorage.UndoSoftDeletePhoto` | src/SynologyStorage.php:102-105 | Always returns true. It makes no request and changes no state. |
| `Storage.SynologyStorage.ListPhotoCollections` | src/SynologyStorage.php:107-122 | Exactly one request, to `/ListPhotoCollections.php`, with exactly `limit`. The result is the response decoded element-wise, in order. |
| `Storage.SynologyStorage.PathOrUrlToPhoto` | src/SynologyStorage.php:124-130 | The URL is `DisplayPhotoUrl(BaseUrl(), uuid, dimensions id)`, which does not depend on the collection id. It reads no transport and changes nothing. When the UUID has no `&`, parsing the URL gives back the UUID and the dimensions id. |
| `Storage.SynologyStorage.SetPhotoCache` | src/SynologyStorage.php:173-181 | After setting `p`, null included, `GetPhotoCache()` returns `p`. Host and base path are unchanged, and it writes no other field. |
| `Storage.SynologyStorage.PathOrUrlToCachedPhoto` | src/SynologyStorage.php:192-203 | It fails with the storage exception exactly when the cache root is null. Otherwise it returns `root + collection + "/" + dims + "/" + uuid + ".jpg"`, with no separator between root and collection. The parts parse back when neither id holds a `/`. |
| `Storage.SynologyStorage.ListPhotoQuantityByYear` | src/SynologyStorage.php:205-219 | Exactly one request, to `/ListPhotoQuantityByYear.php`, with exactly `photo_collection_id_list`. The result is decoded element-wise, in order. |
| `Storage.SynologyStorage.ListPhotoQuantityByMonth` | src/SynologyStorage.php:221-236 | Exactly one request, to `/ListPhotoQuantityByMonth.php`, with exactly `year` and `photo_collection_id_list`. The result is decoded element-wise, in order. |
| `Storage.SynologyStorage.ListPhotoQuantityByDay` | src/SynologyStorage.php:238-254 | Exactly one request, to `/ListPhotoQuantityByDay.php`, with exactly `year`, `month` and `photo_collection_id_list`. The result is decoded element-wise, in order. |
| `Marshalling.FlattenByClassName` | src/SynologyStorage.php:55-67 | The foreach loop that fills the filter (or sorting) array computes exactly `Flattened` of its input. |
| `Marshalling.Flattened` | src/SynologyStorage.php:55-67 | The value is null exactly when the list is null or empty. Otherwise it is an array whose keys are exactly the class names present, with no more entries than objects. |
| `Marshalling.ByClassNameKeys` | src/SynologyStorage.php:57-59 | The keys of the flattened array are exactly the set of class names in the list. |
| `Marshalling.ByClassNameLastWins` | src/SynologyStorage.php:57-59 | A class name is bound to the attributes of the last object that has it. |
| `Marshalling.ByClassNameSize` | src/SynologyStorage.php:57-59 | The flattened array never has more entries than the list has objects. |
| `Marshalling.CollectionIdList` | src/SynologyStorage.php:33-37 | A null collection-id list is sent as null. A list is sent as a list of the same ids in the same order. |
| `Marshalling.DecodeList` | src/SynologyStorage.php:40-45 | The result has as many elements as the response, and element i is `fromArray(response[i])`. A scalar or null response gives the empty list. |
| `Paths.DisplayPhotoUrlRoundTrip` | src/SynologyStorage.php:129 | Parsing a display URL gives back the UUID and dimensions id it was built from, provided the UUID has no `&`. |
| `Paths.ParseDisplayPhotoUrlSound` | src/SynologyStorage.php:129 | Whatever the display-URL parser accepts is exactly the display URL of the parts it returns. |
| `Paths.CachedPhotoPathRoundTrip` | src/SynologyStorage.php:201 | Parsing a cache path under its root gives back the collection id, dimensions id and UUID, provided neither id has a `/`. |
| `Paths.ParseCachedPhotoPathSound` | src/SynologyStorage.php:201 | Whatever the cache-path parser accepts is exactly the cache path of the parts it returns. |
| `Transport.RecordingTransport.constructor` | tests/MockHttpRequestService.php:7-11 | A fresh recorder holds the preset response. No request has been recorded yet. |
| `Transport.RecordingTransport.DoPostRequestWithJsonResponse` | tests/MockHttpRequestService.php:13-19 | It records this request's URL and parameters and counts one request. It returns the preset response and leaves that response unchanged. |

`GetPhotoCache` has no contract of its own: it is the field accessor, and `SetPhotoCache` states what it returns.

## Left out

- The private `doPostRequestWithJsonResponse` and `getPOSTOptions`, and src/HttpRequestService.php, are left out. They do HTTP I/O (`stream_context_create`, `file_get_contents`), form-encode with `http_build_query` and decode with `json_decode`. `RecordingTransport` stands in for all of them. A failed request returns `false`, which `json_decode` turns into `null`. The model covers this only as a `JNull` response, which the list methods decode to an empty list.
- The debug branch (`var_dump` then `die()`) is left out: it ends the process.
- `fromArray` and `toArray` of the domain types are left out. Photo, PhotoCollection, PhotoQuantity*, the filter and sorting classes and `ImageDimensions::getId` belong to an external package. They appear as function parameters, as the attribute map of a `PhotoObject`, and as the `id` of `ImageDimensions`. The Photo encode/decode round trip belongs to that package and is not stated here.
- `Wire.Json` has no floating-point numbers. JSON objects appear as their decoded (key, value) members, so duplicate keys in the raw text are not modelled.
- The order of keys in a parameter array is not modelled, because the parameter arrays are maps. The order affects only the encoded body, and that encoding is left out.
- `DirectorySeparator` is fixed to `/`. PHP's `DIRECTORY_SEPARATOR` is `\` on Windows.
- The transport is a parameter of each remote method. The client's constructor takes no transport, and the test suite passes a fourth constructor argument that the client ignores. The model does not add one.
- `GetPhoto` does not turn a missing photo into a not-found error, because the client does not. It decodes whatever comes back. What `fromArray` does with a non-array response (PHP's type check) is the decoder's business.
- `SoftDeletePhoto` and `UndoSoftDeletePhoto` do not call `SoftDeletePhoto.php` or `UndoSoftDeletePhoto.php`, and they never report failure. The client just returns true; only the test suite expects more.
- The cache path follows the code: there is no separator between the cache root and the collection id. The doc comment above the method describes a format without the collection id.
- PHP's 64-bit `int` is modelled as `int`. Limits, years and months are only passed through, never computed with, so nothing can wrap around.
