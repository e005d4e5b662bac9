/**
 * The HTTP front (http.go): the Content-Type gate, the upload handler that
 * turns one accepted file into one dispatched base task, and the response
 * that tells the client where the derived images will be found.
 *
 * The multipart form, the file, the hash of `getHashedFileName` and the
 * decoders are outside the model; what they answer is a parameter.
 */
module Http {
  import opened Text
  import opened Message
  import opened Dispatch
  import Transform

  /** `SuccessfullyUploadedResponseData`. */
  datatype UploadedData = UploadedData(rootEndpoint: string, fileName: string, thumbnailURL: string,
                                       resized256URL: string, resized1024URL: string)

  /** The JSON bodies the front sends. */
  datatype Body =
    | WrongImageFileName
    | UnsupportedContentType(message: string)
    | Uploaded(data: UploadedData)

  /**
   * What a request ends with: an error handed back to the framework (the
   * form has no file, or the file cannot be opened), or a JSON response.
   */
  datatype Response = FormFileFailed | OpenFailed | Json(status: int, body: Body)

  const MultipartFormData := "multipart/form-data"
  const UnsupportedContentTypeMessage := "Unsupported Content-Type. Please use multipart/form-data."

  // ---------------------------------------------------------------------
  // GenerateSuccessfullyUploadedResponse
  // ---------------------------------------------------------------------

  /**
   * `GenerateSuccessfullyUploadedResponse`, with the configured endpoint
   * `storage.aws.endpoint` as a parameter. Each URL is `path.Join` of the
   * endpoint, the upload path the transformer gives that image ("thumbnail",
   * "resized/256", "resized/1024") and the name; when the endpoint and the
   * name are not empty, that is the three parts one '/' apart.
   */
  function GenerateSuccessfullyUploadedResponse(rootEndpoint: string, hashedFileName: string): (d: UploadedData)
    ensures d.rootEndpoint == rootEndpoint && d.fileName == hashedFileName
    ensures d.thumbnailURL == Join([rootEndpoint, Transform.ThumbnailUploadPath, hashedFileName])
    ensures d.resized256URL == Join([rootEndpoint, Transform.ResizedUploadPath(256), hashedFileName])
    ensures d.resized1024URL == Join([rootEndpoint, Transform.ResizedUploadPath(1024), hashedFileName])
    ensures rootEndpoint != "" && hashedFileName != "" ==>
              && d.thumbnailURL == rootEndpoint + "/" + Transform.ThumbnailUploadPath + "/" + hashedFileName
              && d.resized256URL == rootEndpoint + "/" + Transform.ResizedUploadPath(256) + "/" + hashedFileName
              && d.resized1024URL == rootEndpoint + "/" + Transform.ResizedUploadPath(1024) + "/" + hashedFileName
  {
    AdvertisedPaths(rootEndpoint, hashedFileName);
    AdvertisedURLs(rootEndpoint, hashedFileName);
    UploadedData(rootEndpoint, hashedFileName,
                 Join([rootEndpoint, "thumbnail", hashedFileName]),
                 Join([rootEndpoint, "resized", Itoa(256), hashedFileName]),
                 Join([rootEndpoint, "resized", Itoa(1024), hashedFileName]))
  }

  /** The advertised URLs spelled out, for a non-empty endpoint and name. */
  lemma AdvertisedURLs(rootEndpoint: string, hashedFileName: string)
    ensures rootEndpoint != "" && hashedFileName != "" ==>
              && Join([rootEndpoint, Transform.ThumbnailUploadPath, hashedFileName])
                 == rootEndpoint + "/" + Transform.ThumbnailUploadPath + "/" + hashedFileName
              && Join([rootEndpoint, Transform.ResizedUploadPath(256), hashedFileName])
                 == rootEndpoint + "/" + Transform.ResizedUploadPath(256) + "/" + hashedFileName
              && Join([rootEndpoint, Transform.ResizedUploadPath(1024), hashedFileName])
                 == rootEndpoint + "/" + Transform.ResizedUploadPath(1024) + "/" + hashedFileName
  {
    if rootEndpoint != "" && hashedFileName != "" {
      Join3(rootEndpoint, Transform.ThumbnailUploadPath, hashedFileName);
      Join3(rootEndpoint, Transform.ResizedUploadPath(256), hashedFileName);
      Join3(rootEndpoint, Transform.ResizedUploadPath(1024), hashedFileName);
    }
  }

  /**
   * The directories the response advertises are exactly the upload paths
   * the transformer gives the thumbnail and the 256 and 1024 resizes.
   */
  lemma AdvertisedPaths(rootEndpoint: string, hashedFileName: string)
    ensures Join([rootEndpoint, "thumbnail", hashedFileName])
         == Join([rootEndpoint, Transform.ThumbnailUploadPath, hashedFileName])
    ensures Join([rootEndpoint, "resized", Itoa(256), hashedFileName])
         == Join([rootEndpoint, Transform.ResizedUploadPath(256), hashedFileName])
    ensures Join([rootEndpoint, "resized", Itoa(1024), hashedFileName])
         == Join([rootEndpoint, Transform.ResizedUploadPath(1024), hashedFileName])
  {
    forall w: int
      ensures Join([rootEndpoint, "resized", Itoa(w), hashedFileName])
           == Join([rootEndpoint, Transform.ResizedUploadPath(w), hashedFileName])
    {
      Flatten([rootEndpoint], ["resized", Itoa(w)], [hashedFileName]);
      assert [rootEndpoint] + [Join(["resized", Itoa(w)])] + [hashedFileName]
          == [rootEndpoint, Transform.ResizedUploadPath(w), hashedFileName];
      assert [rootEndpoint] + ["resized", Itoa(w)] + [hashedFileName]
          == [rootEndpoint, "resized", Itoa(w), hashedFileName];
    }
  }

  // ---------------------------------------------------------------------
  // ForceContentTypeMultipartFormDataMiddleware
  // ---------------------------------------------------------------------

  /** `strings.HasPrefix`. */
  predicate HasPrefix(s: string, prefix: string)
  {
    |prefix| <= |s| && s[..|prefix|] == prefix
  }

  /** The middleware's decision: pass the request on to the handler, or answer it itself. */
  datatype Gate = Forward | Reject(resp: Response)

  /** `ForceContentTypeMultipartFormDataMiddleware`: only multipart requests reach the handler. */
  function ForceContentTypeMultipartFormData(contentType: string): (g: Gate)
    ensures g.Reject? ==> g.resp == Json(400, UnsupportedContentType(UnsupportedContentTypeMessage))
  {
    if HasPrefix(contentType, MultipartFormData) then Forward
    else Reject(Json(400, UnsupportedContentType(UnsupportedContentTypeMessage)))
  }

  /**
   * A request is forwarded exactly when its Content-Type is
   * "multipart/form-data" followed by anything (a boundary parameter, say).
   */
  lemma GateForwardsMultipart(contentType: string, rest: string)
    ensures ForceContentTypeMultipartFormData(MultipartFormData + rest) == Forward
    ensures ForceContentTypeMultipartFormData(contentType) == Forward ==>
              contentType == MultipartFormData + contentType[|MultipartFormData|..]
  {
    assert (MultipartFormData + rest)[..|MultipartFormData|] == MultipartFormData;
  }

  /** The test is case-sensitive and has no default: these are rejected. */
  lemma GateRejects()
    ensures ForceContentTypeMultipartFormData("").Reject?
    ensures ForceContentTypeMultipartFormData("application/json").Reject?
    ensures ForceContentTypeMultipartFormData("Multipart/Form-Data").Reject?
  {
    assert "Multipart/Form-Data"[0] != MultipartFormData[0];
  }

  // ---------------------------------------------------------------------
  // ImageUploadRequestHandler
  // ---------------------------------------------------------------------

  /** The extensions the handler can decode: "jpg" and "jpeg" as JPEG, "png" as PNG. */
  predicate Decodable(extension: string)
  {
    extension == "jpg" || extension == "jpeg" || extension == "png"
  }

  /** `getHashedFileName(parsedName) + "." + ext`, for a hash function `hash`. */
  function HashedFileName(hash: string -> string, parsedName: string, extension: string): (h: string)
    ensures |h| == |hash(parsedName)| + 1 + |extension|
    ensures h[..|hash(parsedName)|] == hash(parsedName) && h[|hash(parsedName)|] == '.'
    ensures h[|hash(parsedName)| + 1..] == extension
  {
    hash(parsedName) + "." + extension
  }

  /** Whether a request passes every check of the handler and is dispatched. */
  predicate Accepted(fileName: Option<string>, parsed: Option<(string, string)>, openFails: bool)
  {
    fileName.Some? && parsed.Some? && !openFails && Decodable(parsed.value.1)
  }

  /**
   * `ImageUploadRequestHandler`. `fileName` is the form file's name (`None`
   * when the form has no "image" file), `parsed` what the name parser answers
   * (`None` for an error), `decoded` what the chosen decoder returns. The
   * decoder's error is not looked at: a file that fails to decode is
   * dispatched with no image. Only `ImageData`, `OriginalFileName` and
   * `HashedFileName` of the new base are set.
   */
  method ImageUploadRequestHandler(fileName: Option<string>, parsed: Option<(string, string)>,
                                   hash: string -> string, openFails: bool, decoded: Option<Raster>,
                                   rootEndpoint: string, resizeSizes: seq<int>, channels: Channels)
    returns (resp: Response)
    modifies channels
    ensures fileName.None? ==> resp == FormFileFailed
    ensures fileName.Some? && parsed.None? ==> resp == Json(400, WrongImageFileName)
    ensures fileName.Some? && parsed.Some? && openFails ==> resp == OpenFailed
    ensures fileName.Some? && parsed.Some? && !openFails && !Decodable(parsed.value.1) ==>
              resp == Json(400, WrongImageFileName)
    ensures !Accepted(fileName, parsed, openFails) ==> unchanged(channels)
    ensures resp.Json? && resp.status == 200 <==> Accepted(fileName, parsed, openFails)
    ensures Accepted(fileName, parsed, openFails) ==>
              var hashed := HashedFileName(hash, parsed.value.0, parsed.value.1);
              && resp == Json(200, Uploaded(GenerateSuccessfullyUploadedResponse(rootEndpoint, hashed)))
              && Pending(channels) == old(Pending(channels)) + |resizeSizes| + 2
              && |channels.uploadTasks| == |old(channels.uploadTasks)| + 1
              && var u := channels.uploadTasks[|old(channels.uploadTasks)|];
                 && fresh(u) && fresh(u.base) && u.uploadPath == OriginalUploadPath
                 && u.base.imageData == decoded && u.base.gifImageData.None?
                 && u.base.originalFileName == fileName.value
                 && u.base.hashedFileName == hashed
                 && u.base.extension == ""
  {
    if fileName.None? {
      return FormFileFailed;
    }
    if parsed.None? {
      return Json(400, WrongImageFileName);
    }
    var (parsedName, ext) := parsed.value;
    var hashed := HashedFileName(hash, parsedName, ext);
    if openFails {
      return OpenFailed;
    }
    if !Decodable(ext) {
      return Json(400, WrongImageFileName);
    }
    var base := new BaseImageTask(fileName.value, hashed, decoded, None, "");
    DispatchMessages(base, resizeSizes, channels);
    resp := Json(200, Uploaded(GenerateSuccessfullyUploadedResponse(rootEndpoint, hashed)));
  }

  /**
   * The route `POST /api/images`: the middleware, then the handler. A
   * request the middleware rejects dispatches nothing.
   */
  method PostImages(contentType: string, fileName: Option<string>, parsed: Option<(string, string)>,
                    hash: string -> string, openFails: bool, decoded: Option<Raster>,
                    rootEndpoint: string, resizeSizes: seq<int>, channels: Channels)
    returns (resp: Response)
    modifies channels
    ensures !HasPrefix(contentType, MultipartFormData) ==>
              resp == Json(400, UnsupportedContentType(UnsupportedContentTypeMessage)) && unchanged(channels)
    ensures resp.Json? && resp.status == 200 <==>
              HasPrefix(contentType, MultipartFormData) && Accepted(fileName, parsed, openFails)
    ensures HasPrefix(contentType, MultipartFormData) && Accepted(fileName, parsed, openFails) ==>
              Pending(channels) == old(Pending(channels)) + |resizeSizes| + 2
  {
    match ForceContentTypeMultipartFormData(contentType) {
      case Reject(r) =>
        resp := r;
      case Forward =>
        resp := ImageUploadRequestHandler(fileName, parsed, hash, openFails, decoded,
                                          rootEndpoint, resizeSizes, channels);
    }
  }
}
