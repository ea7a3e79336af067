# Image uploader: a verified model

GeoServer's `image-uploader` community module lets a client attach images to one attribute
of one feature through REST. The image is stored in the data directory under
`workspaces/<workspace>/<datastore>/<featuretype>/images/<fid>/<attribute>/`, with a
server-generated name `<uuid>.<subtype>`. A link to it is appended to the attribute's
comma-separated list of links. Before the resource is handed out, a finder checks that the
workspace, datastore and feature type the request names exist in the catalog.

This project models that logic in Dafny and proves the properties the code promises:

- `wrappers.dfy`: `Option` (a Java `null` is `None`) and `Result` (`Err` is a request ended by an exception: a thrown `RestletException`, or a `NullPointerException` answered as a server error).
- `rest_status.dfy`: the statuses set (201 Created for a stored upload, and the error statuses), one cause per distinct `RestletException` message, and one cause per null dereference the model follows (`NullMediaType`, `NullProperty`).
- `strings.dfy`: prefix and suffix tests, and lower-casing.
- `requests.dfy`: the seven request attributes.
- `image_paths.dfy`: storage-path resolution. The path is built by appends under nested
  presence tests. It is proved equal to a reference definition: the 7-segment full path,
  cut just after the deepest level whose enclosing levels are all present.
- `link_list.dfy`: the link and the comma-joined link list. A decoder (`Split`, `Links`)
  is the partner of the append codec.
- `features.dfy`: the feature store as a class whose `features` sequence is updated in
  place, the fid filter, and the attribute update of `modifyFeatures`.
- `image_resource.dfy`: the allowed methods, upload dispatch, `getFeature`, `setLink`,
  the checked upload, and serving an image.
- `image_finder.dfy`: `findTarget` over an abstract catalog given as maps.

The filesystem, the random UUID and the library predicates are parameters. Each upload
returns the ordered trace of the external steps it took. This states the order of the
checks in `doFileUpload` exactly.

## Model

| member | source | states |
|---|---|---|
| ImagePaths.DirectoryPathAsList | src/community/image-uploader/src/main/java/org/geoserver/rest/image/ImageResource.java:343-370 | the list built by successive appends equals the reference path: the full path cut after the deepest level whose enclosing levels are all present |
| ImagePaths.DirectoryPath | src/community/image-uploader/src/main/java/org/geoserver/rest/image/ImageResource.java:339-341 | the directory path handed to the resource loader is that same reference path |
| ImagePaths.FilePath | src/community/image-uploader/src/main/java/org/geoserver/rest/image/ImageResource.java:328-337 | the file path is the directory path, extended in place by `file.format` exactly when both are present |
| ImagePaths.DirectoryNesting | src/community/image-uploader/src/main/java/org/geoserver/rest/image/ImageResource.java:350-368 | the path starts with "workspaces" and is a prefix of the full path; it has 1 to 7 segments and never 4; each of workspace, datastore, feature type, fid and attribute is present exactly when all enclosing levels are |
| ImagePaths.DirectorySegments | src/community/image-uploader/src/main/java/org/geoserver/rest/image/ImageResource.java:353-364 | each present level sits at its own index and holds the attribute's value; "images" sits at index 4 |
| ImagePaths.ImagesMarkerCount | src/community/image-uploader/src/main/java/org/geoserver/rest/image/ImageResource.java:350-368 | the path holds "images" once for the marker when workspace, datastore and feature type are present, plus once for each level on the path whose value is itself "images" |
| ImagePaths.ImagesMarkerOnce | src/community/image-uploader/src/main/java/org/geoserver/rest/image/ImageResource.java:357-359 | if no level on the path has the value "images", the marker occurs exactly once when workspace, datastore and feature type are present, and not at all otherwise |
| ImagePaths.FileExtendsDirectory | src/community/image-uploader/src/main/java/org/geoserver/rest/image/ImageResource.java:332-335 | the directory path is a prefix of the file path; the file path adds exactly one segment `file + "." + format` when both are present and equals the directory path otherwise |
| LinkList.Link | src/community/image-uploader/src/main/java/org/geoserver/rest/image/ImageResource.java:296-305 | a link starts with the parent reference of the request URL and ends with the filename |
| LinkList.AppendLink | src/community/image-uploader/src/main/java/org/geoserver/rest/image/ImageResource.java:280-288 | the new value ends with the new link and keeps the old value as its prefix; it is the link alone for a null or empty value, and `old + "," + link` otherwise |
| LinkList.AppendAddsLink | src/community/image-uploader/src/main/java/org/geoserver/rest/image/ImageResource.java:280-288 | decoded as a comma-separated list, the new value is the old list with exactly the new link added at the end (for a non-empty link without commas) |
| LinkList.AppendAllKeepsOrder | src/community/image-uploader/src/main/java/org/geoserver/rest/image/ImageResource.java:283-287 | successive uploads keep every link, in upload order: the decoded list after appending links one by one is the old list followed by those links |
| Features.Select | src/community/image-uploader/src/main/java/org/geoserver/rest/image/ImageResource.java:248 | the fid filter returns no more features than the store holds; a feature is among them exactly when it is in the store and carries the fid; a null fid selects none |
| Features.SelectMultiplicity | src/community/image-uploader/src/main/java/org/geoserver/rest/image/ImageResource.java:248 | the filter keeps each feature carrying the fid as many times as the store holds it, and no other feature |
| Features.SelectOne | src/community/image-uploader/src/main/java/org/geoserver/rest/image/ImageResource.java:313-316 | the filter returns exactly one feature precisely when exactly one feature carries the fid, and then returns that feature |
| Features.ModifyOnlyWithId | src/community/image-uploader/src/main/java/org/geoserver/rest/image/ImageResource.java:272 | updating through the filter of a feature with a unique id changes that feature's one attribute and nothing else in the store |
| Features.FeatureSource.ModifyFeatures | src/community/image-uploader/src/main/java/org/geoserver/rest/image/ImageResource.java:272 | the store's features become the old ones with the attribute set on every feature the filter selects |
| ImageResource.AllowedMethods | src/community/image-uploader/src/main/java/org/geoserver/rest/image/ImageResource.java:129-147 | GET and DELETE are allowed exactly when `file` is present; POST and PUT exactly when it is absent; the two pairs are complementary |
| ImageResource.ChooseUpload | src/community/image-uploader/src/main/java/org/geoserver/rest/image/ImageResource.java:162-173 | a last segment starting with "file." (in lower case) selects the file upload and one starting with "url." the URL upload; anything else, or none, is a 400 Bad Request |
| ImageResource.ChooseUploadIgnoresCase | src/community/image-uploader/src/main/java/org/geoserver/rest/image/ImageResource.java:164-166 | the dispatch gives the same answer for a segment and its lower-cased form |
| ImageResource.GetFeature | src/community/image-uploader/src/main/java/org/geoserver/rest/image/ImageResource.java:310-326 | succeeds exactly when the filter returned one feature, and yields it; otherwise a 500 |
| ImageResource.GetFeatureByFid | src/community/image-uploader/src/main/java/org/geoserver/rest/image/ImageResource.java:313-325 | fetching through the fid filter succeeds exactly when the fid is present and carried by exactly one feature, and yields that feature |
| ImageResource.SetLinkNeedsOneFeature | src/community/image-uploader/src/main/java/org/geoserver/rest/image/ImageResource.java:248-256 | setting a link succeeds only if the fid selects exactly one feature; otherwise it fails with the "not exactly 1 feature" 500 |
| ImageResource.SetLinkReadOnly | src/community/image-uploader/src/main/java/org/geoserver/rest/image/ImageResource.java:259 | on a source that is not a feature store, a successful call leaves the store unchanged |
| ImageResource.SetLinkAppendsToSelected | src/community/image-uploader/src/main/java/org/geoserver/rest/image/ImageResource.java:257-272 | on a writable source only the selected feature's attribute changes; it becomes the old value with the new link appended, so its link list gains exactly the new link |
| ImageResource.SetLink | src/community/image-uploader/src/main/java/org/geoserver/rest/image/ImageResource.java:235-278 | the method's new store and result are those of the reference effect: unchanged on failure or on a read-only source, the appended link otherwise |
| ImageResource.ImageFilename | src/community/image-uploader/src/main/java/org/geoserver/rest/image/ImageResource.java:216 | the stored name starts with the random token and ends with "." and the media subtype |
| ImageResource.UploadChecksMediaTypeFirst | src/community/image-uploader/src/main/java/org/geoserver/rest/image/ImageResource.java:188-198 | a request without an entity media type fails with 500, and a non-image media type is refused with 415; in both cases before any directory is found or created, and the store is unchanged |
| ImageResource.UploadChecksDirectoryBeforeNaming | src/community/image-uploader/src/main/java/org/geoserver/rest/image/ImageResource.java:200-216 | a directory that cannot be found, created or written is a 500; only the directory lookup happened, with no name generated and nothing written |
| ImageResource.UploadSuccess | src/community/image-uploader/src/main/java/org/geoserver/rest/image/ImageResource.java:216-228 | a successful upload answers 201 Created, names the file `uuid.subtype`, looks up the directory, names the file and writes it in that order, and changes the store only as setting the link does |
| ImageResource.DoFileUpload | src/community/image-uploader/src/main/java/org/geoserver/rest/image/ImageResource.java:178-233 | result (201 Created or the failure), trace of steps and new store equal the reference outcome of the checked upload |
| ImageResource.DoUpload | src/community/image-uploader/src/main/java/org/geoserver/rest/image/ImageResource.java:162-173 | a bad segment is a 400 and a URL upload an Ok that does nothing; neither touches the store; a file upload has the outcome of DoFileUpload |
| ImageResource.HandleGet | src/community/image-uploader/src/main/java/org/geoserver/rest/image/ImageResource.java:88-127 | the file looked up is the request's file path; a load error or a missing file is 404, an unreadable one 422, a readable one is served with the format as extension and a time-to-live of 300 |
| ImageFinder.FindTarget | src/community/image-uploader/src/main/java/org/geoserver/rest/image/ImageFinder.java:50-98 | every failure is a 404; success exactly when the workspace exists, any named datastore exists and holds the feature type, and the namespace named after the workspace holds it; the result is the namespace's feature type and needs a feature-type name |
| ImageFinder.FirstFailureDecides | src/community/image-uploader/src/main/java/org/geoserver/rest/image/ImageFinder.java:59-76 | the checks run in the order workspace, datastore, feature type in the datastore, namespace; the first failing one decides the error |
| ImageFinder.NamespaceDecides | src/community/image-uploader/src/main/java/org/geoserver/rest/image/ImageFinder.java:66-77 | once the datastore checks pass, the namespace lookup always runs and decides the outcome |
| ImageFinder.NamespaceEntryWins | src/community/image-uploader/src/main/java/org/geoserver/rest/image/ImageFinder.java:69-77 | an example of NamespaceDecides on one concrete catalog: where the datastore and the namespace know the feature type under different entries, the namespace's entry is handed on |
| ImageFinder.OnlyNamedLevelsMatter | src/community/image-uploader/src/main/java/org/geoserver/rest/image/ImageFinder.java:79-97 | fid, attribute, file and format never change the outcome of validation |

## Left out

- The data directory is not modelled. `ResourceLoader.find` and `findOrCreateDirectory` are functions from a path to an outcome. `RESTUtils.handleBinUpload` is a success flag. `FileRepresentation` is a record of the path and the extension.
- `UUID.randomUUID()` is a token passed in with the upload.
- `MediaType.IMAGE_ALL.includes` is a flag passed in with the upload. `MediaTypes.getMediaTypeForExtension` is not modelled.
- ImageResource.DoFileUpload: `Ok(Uploaded(Created, name))` stands for the 201 Created response, which has no entity. The stored name in it is exposed by the model for its lemmas; the response does not carry it, and the client learns it only through the link written to the feature.
- ImageResource.HandleGet: serves the extension, not the media type derived from it.
- ImageResource.SetLink: an `IOException` from `getFeatureSource`, `getFeatures` or `modifyFeatures` is caught and only logged; the model does not raise one, because it has no I/O.
- ImageResource.SetLink: a null attribute name, or a missing property, on a writable source is a `NullPointerException` in the code. It is modelled as an internal error (cause `NullProperty`).
- Features.Select: what a fid filter made from a null fid selects is decided by GeoTools. The model assumes it selects nothing.
- Strings.ToLower: lower-cases ASCII letters only. `String.toLowerCase` is locale- and Unicode-aware.
- Attribute values are strings: `value.toString()` of a non-string attribute is not modelled.
- `String[]` results of `getDirectoryPath` and `getFilePath` are sequences. They are never mutated after they are built.
- ImageFinder.FindTarget: the model assumes that `getFeatureTypeByDataStore(store, null)` and `getFeatureTypeByName(namespace, null)` find nothing. That assumption is what makes a successful validation require a feature-type name; the catalog's real answer for a null name is not modelled.
- The catalog decides what a null workspace resolves to in `getDataStoreByName` and `getNamespaceByPrefix`. Both are keyed by an optional name.
- The commented-out proxy-base-URL branch of `getLink`, the empty URL-upload branch and the commented-out list dispatch in `findTarget` are not modelled. The URL upload returns success and does nothing.
- Deletion: `allowDelete` permits DELETE when `file` is present, but the code has no delete handler and no link removal. None is modelled.
- `ImageListResource` is a stub that always refuses. `AbstractStylePage` is a web page. `MapPackageProcess` is an unfinished process. None of them is part of this model.
- Concurrency: two concurrent `setLink` calls on one attribute can lose a link, because each reads, appends and writes. A sequential model cannot show this.
- Logging is left out.
