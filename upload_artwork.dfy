/** The `upload-artwork` edge function: strip a data-URL prefix, decode, copy the
    characters into a byte array, name the file and store it in the `order-artwork` bucket. */
module UploadArtwork {
  import opened Wrappers
  import opened Text
  import opened Http

  const Cors: Headers := [
    ("Access-Control-Allow-Origin", "*"),
    ("Access-Control-Allow-Methods", "POST, OPTIONS"),
    ("Access-Control-Allow-Headers", "Content-Type, Authorization, X-Client-Info, Apikey")]

  /** The JSON body; a member is None when it is missing or null. */
  datatype UploadRequest = UploadRequest(fileData: Option<string>, fileName: Option<string>, fileType: Option<string>)

  /** The success object: `{ success: true, publicUrl, path }`. */
  datatype Uploaded = Uploaded(publicUrl: string, path: string)

  const MissingFile := "Missing file data or file name"
  const FailedToUpload := "Failed to upload file"
  const Marker := "base64,"

  // ---------------------------------------------------------------------------
  // Validation

  /** The guards in front of the upload, in order. None means "go on and upload". */
  function Precheck(req: Request<UploadRequest>, env: Env): (r: Option<Response<Uploaded>>)
    ensures r.Some? ==> CarriesCors(r.value, Cors)
    ensures req.httpMethod == "OPTIONS" ==> r == Some(Response(200, Cors, NoBody))
    ensures req.httpMethod != "OPTIONS" && req.httpMethod != "POST" ==>
              r.Some? && r.value.status == 405 && r.value.body == ErrorBody(MethodNotAllowed, None)
    ensures req.httpMethod == "POST" && req.body.Failure? ==>
              r == Some(JsonError(Cors, 500, InternalServerError, Some(req.body.error)))
    ensures req.httpMethod == "POST" && req.body.Success?
              && (!Truthy(req.body.value.fileData) || !Truthy(req.body.value.fileName)) ==>
              r.Some? && r.value.status == 400 && r.value.body == ErrorBody(MissingFile, None)
    ensures req.httpMethod == "POST" && req.body.Success?
              && Truthy(req.body.value.fileData) && Truthy(req.body.value.fileName) && !Configured(env) ==>
              r.Some? && r.value.status == 500 && r.value.body == ErrorBody(ServerConfigurationError, None)
    ensures r.None? <==>
              req.httpMethod == "POST" && req.body.Success?
              && Truthy(req.body.value.fileData) && Truthy(req.body.value.fileName) && Configured(env)
  {
    if req.httpMethod == "OPTIONS" then Some(Preflight(Cors))
    else if req.httpMethod != "POST" then Some(JsonError(Cors, 405, MethodNotAllowed, None))
    else
      match req.body
      case Failure(msg) => Some(JsonError(Cors, 500, InternalServerError, Some(msg)))
      case Success(u) =>
        if !Truthy(u.fileData) || !Truthy(u.fileName) then Some(JsonError(Cors, 400, MissingFile, None))
        else if !Configured(env) then Some(JsonError(Cors, 500, ServerConfigurationError, None))
        else None
  }

  // ---------------------------------------------------------------------------
  // The payload, the name and the type

  /** `fileData.includes('base64,') ? fileData.split('base64,')[1] : fileData`. */
  function Base64Payload(fileData: string): (r: string)
    ensures |r| <= |fileData|
  {
    if Contains(fileData, Marker) then SecondPiece(fileData, Marker) else fileData
  }

  /** Without the marker the data is used as it is; with it (a data URL), the payload is
      the text from just after the first marker up to the next marker or the end, and
      holds no marker. */
  lemma Base64PayloadBetweenMarkers(fileData: string)
    ensures !Contains(fileData, Marker) ==> Base64Payload(fileData) == fileData
    ensures Contains(fileData, Marker) ==>
              var r := Base64Payload(fileData);
              var start := IndexOf(fileData, Marker).value + |Marker|;
              && start + |r| <= |fileData| && r == fileData[start..start + |r|]
              && !Contains(r, Marker)
              && (start + |r| == |fileData| || OccursAt(fileData, Marker, start + |r|))
  {
    if Contains(fileData, Marker) {
      SecondPieceBetween(fileData, Marker);
    }
  }

  /** `fileName.split('.').pop() || 'png'`. */
  function FileExtension(fileName: string): (ext: string)
    ensures ext != "" && '.' !in ext
    ensures AfterLast(fileName, '.') != "" ==> ext == AfterLast(fileName, '.')
    ensures AfterLast(fileName, '.') == "" ==> ext == "png"
  {
    var last := AfterLast(fileName, '.');
    if last == "" then "png" else last
  }

  /** A name with a dot takes the text after its last dot as its extension. */
  lemma ExtensionAfterLastDot(stem: string, ext: string)
    requires ext != "" && '.' !in ext
    ensures FileExtension(stem + "." + ext) == ext
  {
    AfterLastOf(stem, '.', ext);
  }

  /** A name without a dot is its own extension. */
  lemma ExtensionOfUndottedName(name: string)
    requires name != "" && '.' !in name
    ensures FileExtension(name) == name
  {
    AfterLastAbsent(name, '.');
  }

  /** A name ending in a dot falls back to "png". */
  lemma ExtensionOfTrailingDot(stem: string)
    ensures FileExtension(stem + ".") == "png"
  {
    assert stem + "." == stem + ['.'] + [];
    AfterLastOf(stem, '.', []);
  }

  /** `artwork/${Date.now()}-${random}.${ext}`; the clock and the random text are inputs. */
  function ArtworkPath(timestamp: nat, randomPart: string, ext: string): (path: string)
    ensures |path| > 8 + |ext| && path[..8] == "artwork/" && path[|path| - |ext| - 1..] == "." + ext
  {
    var p := "artwork/" + NatToString(timestamp) + "-" + randomPart + "." + ext;
    assert p[..8] == "artwork/";
    assert p[|p| - |ext| - 1..] == "." + ext;
    p
  }

  /** A path ends with the last character of its extension. */
  lemma ArtworkPathLastChar(timestamp: nat, randomPart: string, ext: string)
    requires ext != ""
    ensures var path := ArtworkPath(timestamp, randomPart, ext);
            path[|path| - 1] == ext[|ext| - 1]
  {
    var path := ArtworkPath(timestamp, randomPart, ext);
    assert path[|path| - |ext| - 1..] == "." + ext;
  }

  /** The random part is base-36 text without a dot, so the stored path's own
      extension is the extension that was chosen. */
  lemma ArtworkPathExtension(timestamp: nat, randomPart: string, ext: string)
    requires '.' !in randomPart && '.' !in ext && ext != ""
    ensures FileExtension(ArtworkPath(timestamp, randomPart, ext)) == ext
  {
    var stem := "artwork/" + NatToString(timestamp) + "-" + randomPart;
    assert ArtworkPath(timestamp, randomPart, ext) == stem + "." + ext;
    ExtensionAfterLastDot(stem, ext);
  }

  /** `fileType || 'image/png'`. */
  function ContentType(fileType: Option<string>): (t: string)
    ensures Truthy(fileType) ==> t == fileType.value
    ensures !Truthy(fileType) ==> t == "image/png"
  {
    OrElse(fileType, "image/png")
  }

  // ---------------------------------------------------------------------------
  // The byte array

  /** A `Uint8Array` element. */
  newtype Byte = b: int | 0 <= b < 256

  /** Storing `charCodeAt(i)` into a `Uint8Array` keeps the low eight bits. */
  function ByteOf(c: char): Byte {
    ((c as int) % 256) as Byte
  }

  /** The bytes of a decoded binary string, one per character. */
  function BytesOf(binary: string): (b: seq<Byte>)
    ensures |b| == |binary|
  {
    seq(|binary|, i requires 0 <= i < |binary| => ByteOf(binary[i]))
  }

  /** A string whose characters are all below 256, as `atob` produces. */
  predicate IsBinaryString(s: string) {
    forall i :: 0 <= i < |s| ==> (s[i] as int) < 256
  }

  /** Reading the bytes back as characters. */
  function CharsOf(b: seq<Byte>): (s: string)
    ensures |s| == |b|
  {
    seq(|b|, i requires 0 <= i < |b| => (b[i] as int) as char)
  }

  /** No character of a binary string is lost in the byte array. */
  lemma BinaryRoundTrip(binary: string)
    requires IsBinaryString(binary)
    ensures CharsOf(BytesOf(binary)) == binary
  {
    var s := CharsOf(BytesOf(binary));
    forall i | 0 <= i < |binary| ensures s[i] == binary[i] {
      assert ByteOf(binary[i]) as int == binary[i] as int;
    }
  }

  /** `new Uint8Array(n)` filled by the `for` loop, character by character. */
  method CopyToBytes(binary: string) returns (bytes: array<Byte>)
    ensures fresh(bytes)
    ensures bytes[..] == BytesOf(binary)
  {
    bytes := new Byte[|binary|];
    var i := 0;
    while i < |binary|
      invariant 0 <= i <= |binary|
      invariant forall k :: 0 <= k < i ==> bytes[k] == ByteOf(binary[k])
    {
      bytes[i] := ByteOf(binary[i]);
      i := i + 1;
    }
  }

  // ---------------------------------------------------------------------------
  // The bucket and the handler

  datatype StoredObject = StoredObject(bytes: seq<Byte>, contentType: string)

  /** The `order-artwork` storage bucket, by path. */
  class ArtworkBucket {
    var objects: map<string, StoredObject>

    constructor ()
      ensures objects == map[]
    {
      objects := map[];
    }

    /** `upload(path, bytes, { contentType, upsert: false })`; whether storage refuses it
        (including for an existing path) is the input `failure`. */
    method Upload(path: string, bytes: array<Byte>, contentType: string, failure: Option<string>)
      returns (err: Option<string>)
      modifies this
      ensures err == failure
      ensures failure.Some? ==> objects == old(objects)
      ensures failure.None? ==> objects == old(objects)[path := StoredObject(bytes[..], contentType)]
    {
      err := failure;
      if failure.None? {
        objects := objects[path := StoredObject(bytes[..], contentType)];
      }
    }
  }

  /** The handler. `atob` (its failure is the exception's message), the clock, the random
      text, the storage outcome and the public-URL construction are inputs. */
  method Serve(bucket: ArtworkBucket, req: Request<UploadRequest>, env: Env,
               atob: string -> Result<string, string>, timestamp: nat, randomPart: string,
               uploadFailure: Option<string>, publicUrlOf: string -> string)
    returns (resp: Response<Uploaded>)
    modifies bucket
    ensures CarriesCors(resp, Cors)
    ensures Precheck(req, env).Some? ==> resp == Precheck(req, env).value && bucket.objects == old(bucket.objects)
    ensures Precheck(req, env).None? ==>
              var u := req.body.value;
              var decoded := atob(Base64Payload(u.fileData.value));
              var path := ArtworkPath(timestamp, randomPart, FileExtension(u.fileName.value));
              && (decoded.Failure? ==>
                    resp == JsonError(Cors, 500, InternalServerError, Some(decoded.error))
                    && bucket.objects == old(bucket.objects))
              && (decoded.Success? && uploadFailure.Some? ==>
                    resp == JsonError(Cors, 500, FailedToUpload, uploadFailure)
                    && bucket.objects == old(bucket.objects))
              && (decoded.Success? && uploadFailure.None? ==>
                    resp == JsonOk(Cors, Uploaded(publicUrlOf(path), path))
                    && bucket.objects == old(bucket.objects)[path :=
                         StoredObject(BytesOf(decoded.value), ContentType(u.fileType))])
  {
    var pre := Precheck(req, env);
    if pre.Some? {
      return pre.value;
    }
    var u := req.body.value;
    var decoded := atob(Base64Payload(u.fileData.value));
    if decoded.Failure? {
      return JsonError(Cors, 500, InternalServerError, Some(decoded.error));
    }
    var bytes := CopyToBytes(decoded.value);
    var path := ArtworkPath(timestamp, randomPart, FileExtension(u.fileName.value));
    var err := bucket.Upload(path, bytes, ContentType(u.fileType), uploadFailure);
    if err.Some? {
      return JsonError(Cors, 500, FailedToUpload, err);
    }
    resp := JsonOk(Cors, Uploaded(publicUrlOf(path), path));
  }
}
