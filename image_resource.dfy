/** The image resource: which HTTP methods it allows, how an upload is dispatched and checked,
    how the link to a stored image is written into the selected feature, and how an image is
    served back (ImageResource). */
module ImageResource {
  import opened Wrappers
  import opened RestStatus
  import opened Strings
  import opened Requests
  import opened ImagePaths
  import opened LinkList
  import opened Features

  // ---------------------------------------------------------------- allowed methods

  predicate AllowGet(a: Attributes) { a.file.Some? }
  predicate AllowPost(a: Attributes) { a.file.None? }
  predicate AllowPut(a: Attributes) { a.file.None? }
  predicate AllowDelete(a: Attributes) { a.file.Some? }

  /** GET and DELETE address one stored file, POST and PUT the directory it goes into:
      each pair is allowed exactly when the other is not. */
  lemma AllowedMethods(a: Attributes)
    ensures AllowGet(a) == AllowDelete(a) == a.file.Some?
    ensures AllowPost(a) == AllowPut(a) == a.file.None?
    ensures AllowGet(a) != AllowPost(a)
  {
  }

  // ---------------------------------------------------------------- upload dispatch

  datatype UploadMethod = FileUpload | UrlUpload

  /** The upload method named by the last segment of the request URL, compared in lower case. */
  function ChooseUpload(lastSegment: Option<string>): (r: Result<UploadMethod, Failure>)
    ensures r.Err? ==> r.error == Failure(BadRequest, UnrecognizedUploadMethod)
    ensures r.Ok? ==> lastSegment.Some? && |lastSegment.value| >= 4
    ensures r == Ok(FileUpload) <==> lastSegment.Some? && StartsWith(ToLower(lastSegment.value), "file.")
    ensures r == Ok(UrlUpload) <==> lastSegment.Some? && StartsWith(ToLower(lastSegment.value), "url.")
  {
    if lastSegment.Some? && StartsWith(ToLower(lastSegment.value), "file.") then Ok(FileUpload)
    else if lastSegment.Some? && StartsWith(ToLower(lastSegment.value), "url.") then Ok(UrlUpload)
    else Err(Failure(BadRequest, UnrecognizedUploadMethod))
  }

  /** The dispatch does not depend on the case of the segment. */
  lemma ChooseUploadIgnoresCase(segment: string)
    ensures ChooseUpload(Some(ToLower(segment))) == ChooseUpload(Some(segment))
  {
    ToLowerIdempotent(segment);
  }

  // ---------------------------------------------------------------- the selected feature

  /** The one feature a filter returned; any other count is a server error. */
  function GetFeature(matches: seq<Feature>): (r: Result<Feature, Failure>)
    ensures r.Ok? <==> |matches| == 1
    ensures r.Ok? ==> r.value == matches[0]
    ensures r.Err? ==> r.error == Failure(InternalError, NotExactlyOneFeature)
  {
    if |matches| != 1 then Err(Failure(InternalError, NotExactlyOneFeature)) else Ok(matches[0])
  }

  /** Fetching through the fid filter succeeds exactly when the fid is present and exactly one
      feature carries it, and then yields that feature. */
  lemma GetFeatureByFid(features: seq<Feature>, fid: Option<string>)
    ensures GetFeature(Select(features, fid)).Ok? <==> fid.Some? && UniqueId(features, fid.value)
    ensures forall i :: OnlyWithId(features, i) && fid == Some(features[i].id) ==>
      GetFeature(Select(features, fid)) == Ok(features[i])
  {
    if fid.Some? {
      SelectOne(features, fid.value);
    }
  }

  // ---------------------------------------------------------------- setting the link

  /** The store after recording the link to `filename` in the request's attribute of the
      feature its fid selects; a read-only source is left as it is. */
  function SetLinkEffect(features: seq<Feature>, writable: bool, a: Attributes,
                         parentRef: string, filename: string): Result<seq<Feature>, Failure>
  {
    match GetFeature(Select(features, a.fid))
    case Err(e) => Err(e)
    case Ok(feature) =>
      if !writable then Ok(features)
      else if a.attribute.None? || a.attribute.value !in feature.attributes then
        Err(Failure(InternalError, NullProperty))
      else
        var attr := a.attribute.value;
        Ok(ModifyAll(features, a.fid, attr, AppendLink(feature.attributes[attr], Link(parentRef, filename))))
  }

  /** Setting a link fails, as a server error, unless the fid selects exactly one feature. */
  lemma SetLinkNeedsOneFeature(features: seq<Feature>, writable: bool, a: Attributes,
                               parentRef: string, filename: string)
    ensures SetLinkEffect(features, writable, a, parentRef, filename).Ok? ==>
      a.fid.Some? && UniqueId(features, a.fid.value)
    ensures !(a.fid.Some? && UniqueId(features, a.fid.value)) ==>
      SetLinkEffect(features, writable, a, parentRef, filename) == Err(Failure(InternalError, NotExactlyOneFeature))
  {
    GetFeatureByFid(features, a.fid);
  }

  /** On a read-only source a successful call changes nothing. */
  lemma SetLinkReadOnly(features: seq<Feature>, a: Attributes, parentRef: string, filename: string)
    requires a.fid.Some? && UniqueId(features, a.fid.value)
    ensures SetLinkEffect(features, false, a, parentRef, filename) == Ok(features)
  {
    GetFeatureByFid(features, a.fid);
  }

  /** On a writable source, with feature `i` the only one carrying the fid and holding the
      attribute, exactly that attribute of that feature changes: it becomes the old value with
      the new link appended, so its link list gains exactly the new link at the end. */
  lemma SetLinkAppendsToSelected(features: seq<Feature>, i: int, a: Attributes,
                                 parentRef: string, filename: string)
    requires OnlyWithId(features, i) && a.fid == Some(features[i].id)
    requires a.attribute.Some? && a.attribute.value in features[i].attributes
    ensures var attr := a.attribute.value;
            var old_value := features[i].attributes[attr];
            var new_value := AppendLink(old_value, Link(parentRef, filename));
      && SetLinkEffect(features, true, a, parentRef, filename)
           == Ok(features[i := Assign(features[i], attr, new_value)])
      && (filename != "" && Separator !in parentRef + filename ==>
           Links(Some(new_value)) == Links(old_value) + [Link(parentRef, filename)])
  {
    GetFeatureByFid(features, a.fid);
    var attr := a.attribute.value;
    var new_value := AppendLink(features[i].attributes[attr], Link(parentRef, filename));
    ModifyOnlyWithId(features, i, attr, new_value);
    if filename != "" && Separator !in parentRef + filename {
      AppendAddsLink(features[i].attributes[attr], Link(parentRef, filename));
    }
  }

  /** Reads the selected feature and, on a writable source, writes the attribute back with
      the link to `filename` appended. */
  method SetLink(source: FeatureSource, a: Attributes, parentRef: string, filename: string)
    returns (r: Result<(), Failure>)
    modifies source
    ensures match SetLinkEffect(old(source.features), source.writable, a, parentRef, filename)
      case Ok(features) => r.Ok? && source.features == features
      case Err(e) => r == Err(e) && source.features == old(source.features)
  {
    var selected := GetFeature(Select(source.features, a.fid));
    if selected.Err? {
      return Err(selected.error);
    }
    var feature := selected.value;
    if source.writable {
      if a.attribute.None? || a.attribute.value !in feature.attributes {
        return Err(Failure(InternalError, NullProperty));
      }
      var url := AppendLink(feature.attributes[a.attribute.value], Link(parentRef, filename));
      source.ModifyFeatures(a.attribute.value, url, a.fid);
    }
    return Ok(());
  }

  // ---------------------------------------------------------------- file upload

  datatype MediaType = MediaType(mainType: string, subType: string)

  /** What the outside world answers during one upload: the declared media type (absent when
      the request has no entity or no content type), whether the image media-type family
      includes it, the random token drawn for the name, and whether writing the request body
      to the file succeeded. */
  datatype UploadInput = UploadInput(mediaType: Option<MediaType>, isImage: bool, token: string, writeSucceeds: bool)

  /** The outcome of finding or creating a directory. */
  datatype DirectoryLookup = LookupFailed | NoDirectory | NotWritable | Writable

  /** The external steps an upload takes, in order. */
  datatype Action =
    | FindOrCreateDirectory(path: seq<string>)
    | GenerateName(filename: string)
    | WriteImage(directory: seq<string>, filename: string)

  /** A stored upload: the status the response is given and the name the image was stored
      under. The response has no entity; the name reaches the client only through the link
      written to the feature. */
  datatype Uploaded = Uploaded(status: Status, storedName: string)

  datatype UploadOutcome = UploadOutcome(result: Result<Uploaded, Failure>, actions: seq<Action>, features: seq<Feature>)

  /** The stored name of an uploaded image: the token, a dot and the media subtype. */
  function ImageFilename(token: string, subType: string): (name: string)
    ensures StartsWith(name, token) && EndsWith(name, "." + subType)
  {
    token + "." + subType
  }

  /** The reference outcome of a file upload: media type first, then the directory, then the
      name, the write and the link. */
  function FileUploadOutcome(features: seq<Feature>, writable: bool, a: Attributes, parentRef: string,
                             input: UploadInput, findOrCreate: seq<string> -> DirectoryLookup): UploadOutcome
  {
    var dir := ExpectedDirectory(a);
    if input.mediaType.None? then
      UploadOutcome(Err(Failure(InternalError, NullMediaType)), [], features)
    else if !input.isImage then
      UploadOutcome(Err(Failure(UnsupportedMediaType, InvalidMimeType)), [], features)
    else if findOrCreate(dir) == LookupFailed then
      UploadOutcome(Err(Failure(InternalError, DirectoryUnavailable)), [FindOrCreateDirectory(dir)], features)
    else if findOrCreate(dir) != Writable then
      UploadOutcome(Err(Failure(InternalError, InvalidDirectory)), [FindOrCreateDirectory(dir)], features)
    else
      var name := ImageFilename(input.token, input.mediaType.value.subType);
      var actions := [FindOrCreateDirectory(dir), GenerateName(name), WriteImage(dir, name)];
      if !input.writeSucceeds then
        UploadOutcome(Err(Failure(InternalError, WriteFailed)), actions, features)
      else
        match SetLinkEffect(features, writable, a, parentRef, name)
        case Ok(updated) => UploadOutcome(Ok(Uploaded(Created, name)), actions, updated)
        case Err(e) => UploadOutcome(Err(e), actions, features)
  }

  /** A request without a media type fails with 500 before anything else happens; a media
      type outside the image family is refused with 415 before any directory is touched,
      whatever the directory lookup would have answered. */
  lemma UploadChecksMediaTypeFirst(features: seq<Feature>, writable: bool, a: Attributes, parentRef: string,
                                   input: UploadInput, findOrCreate: seq<string> -> DirectoryLookup)
    requires input.mediaType.None? || !input.isImage
    ensures var o := FileUploadOutcome(features, writable, a, parentRef, input, findOrCreate);
      && o.result.Err? && o.actions == [] && o.features == features
      && Code(o.result.error.status) == (if input.mediaType.None? then 500 else 415)
  {
  }

  /** A directory that cannot be found, created or written is a 500 raised before a name is
      generated or anything is written. */
  lemma UploadChecksDirectoryBeforeNaming(features: seq<Feature>, writable: bool, a: Attributes, parentRef: string,
                                          input: UploadInput, findOrCreate: seq<string> -> DirectoryLookup)
    requires input.mediaType.Some? && input.isImage && findOrCreate(ExpectedDirectory(a)) != Writable
    ensures var o := FileUploadOutcome(features, writable, a, parentRef, input, findOrCreate);
      && o.result.Err? && Code(o.result.error.status) == 500
      && o.actions == [FindOrCreateDirectory(ExpectedDirectory(a))]
      && o.features == features
  {
  }

  /** A successful upload answers 201 Created and stores the image under the directory of the
      request with the name `token.subtype`, and the only change to the store is the one setting the link makes. */
  lemma UploadSuccess(features: seq<Feature>, writable: bool, a: Attributes, parentRef: string,
                      input: UploadInput, findOrCreate: seq<string> -> DirectoryLookup)
    requires FileUploadOutcome(features, writable, a, parentRef, input, findOrCreate).result.Ok?
    ensures var o := FileUploadOutcome(features, writable, a, parentRef, input, findOrCreate);
            var name := input.token + "." + input.mediaType.value.subType;
      && input.mediaType.Some? && input.isImage && input.writeSucceeds
      && o.result.value == Uploaded(Created, name) && Code(o.result.value.status) == 201
      && o.actions == [FindOrCreateDirectory(ExpectedDirectory(a)), GenerateName(name),
                       WriteImage(ExpectedDirectory(a), name)]
      && SetLinkEffect(features, writable, a, parentRef, name) == Ok(o.features)
  {
  }

  /** Stores the request body as a new image and links it from the selected feature. */
  method DoFileUpload(source: FeatureSource, a: Attributes, parentRef: string, input: UploadInput,
                      findOrCreate: seq<string> -> DirectoryLookup)
    returns (r: Result<Uploaded, Failure>, actions: seq<Action>)
    modifies source
    ensures UploadOutcome(r, actions, source.features)
      == FileUploadOutcome(old(source.features), source.writable, a, parentRef, input, findOrCreate)
  {
    var directoryPath := DirectoryPath(a);
    actions := [];
    if input.mediaType.None? {
      return Err(Failure(InternalError, NullMediaType)), actions;
    }
    if !input.isImage {
      return Err(Failure(UnsupportedMediaType, InvalidMimeType)), actions;
    }
    var directory := findOrCreate(directoryPath);
    actions := actions + [FindOrCreateDirectory(directoryPath)];
    if directory == LookupFailed {
      return Err(Failure(InternalError, DirectoryUnavailable)), actions;
    }
    if directory != Writable {
      return Err(Failure(InternalError, InvalidDirectory)), actions;
    }
    var filename := ImageFilename(input.token, input.mediaType.value.subType);
    actions := actions + [GenerateName(filename)];
    actions := actions + [WriteImage(directoryPath, filename)];
    if !input.writeSucceeds {
      return Err(Failure(InternalError, WriteFailed)), actions;
    }
    var linked := SetLink(source, a, parentRef, filename);
    if linked.Err? {
      return Err(linked.error), actions;
    }
    return Ok(Uploaded(Created, filename)), actions;
  }

  /** Dispatches a POST or PUT on the last URL segment: a file upload, a URL upload (which does
      nothing) or a bad request. */
  method DoUpload(source: FeatureSource, a: Attributes, parentRef: string, lastSegment: Option<string>,
                  input: UploadInput, findOrCreate: seq<string> -> DirectoryLookup)
    returns (r: Result<Option<Uploaded>, Failure>, actions: seq<Action>)
    modifies source
    ensures ChooseUpload(lastSegment).Err? ==>
      r == Err(ChooseUpload(lastSegment).error) && actions == [] && source.features == old(source.features)
    ensures ChooseUpload(lastSegment) == Ok(UrlUpload) ==>
      r == Ok(None) && actions == [] && source.features == old(source.features)
    ensures ChooseUpload(lastSegment) == Ok(FileUpload) ==>
      var o := FileUploadOutcome(old(source.features), source.writable, a, parentRef, input, findOrCreate);
      && actions == o.actions && source.features == o.features
      && r == (if o.result.Ok? then Ok(Some(o.result.value)) else Err(o.result.error))
  {
    var chosen := ChooseUpload(lastSegment);
    if chosen == Ok(FileUpload) {
      var uploaded: Result<Uploaded, Failure>;
      uploaded, actions := DoFileUpload(source, a, parentRef, input, findOrCreate);
      r := if uploaded.Ok? then Ok(Some(uploaded.value)) else Err(uploaded.error);
    } else if chosen == Ok(UrlUpload) {
      r, actions := Ok(None), [];
    } else {
      r, actions := Err(chosen.error), [];
    }
  }

  // ---------------------------------------------------------------- serving an image

  /** The outcome of looking a file up in the data directory. */
  datatype FileLookup = LoadFailed | Missing | Unreadable | Readable

  /** The response entity: the file, the extension its media type is derived from, and the
      time-to-live the representation is given. */
  datatype ImageEntity = ImageEntity(path: seq<string>, extension: Option<string>, timeToLive: nat)

  /** Serves the image the request names; the file looked up is the request's file path. */
  method HandleGet(a: Attributes, find: seq<string> -> FileLookup) returns (r: Result<ImageEntity, Failure>)
    ensures find(ExpectedFile(a)) == LoadFailed ==> r == Err(Failure(NotFound, ImageNotLoadable))
    ensures find(ExpectedFile(a)) == Missing ==> r == Err(Failure(NotFound, ImageNotFound))
    ensures find(ExpectedFile(a)) == Unreadable ==> r == Err(Failure(UnprocessableEntity, ImageNotReadable))
    ensures find(ExpectedFile(a)) == Readable ==> r == Ok(ImageEntity(ExpectedFile(a), a.format, 300))
  {
    var filePath := FilePath(a);
    var file := find(filePath);
    if file == LoadFailed {
      return Err(Failure(NotFound, ImageNotLoadable));
    }
    if file == Missing {
      return Err(Failure(NotFound, ImageNotFound));
    }
    if file == Unreadable {
      return Err(Failure(UnprocessableEntity, ImageNotReadable));
    }
    return Ok(ImageEntity(filePath, a.format, 300));
  }
}
