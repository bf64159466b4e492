/** The Spaces client of client.go: construction, the upload header policy,
    the existence check and public URL formatting. The SDK calls themselves
    are not modelled; what they report is an input. */
module Spaces {
  import opened Outcomes
  import opened Text

  newtype byte = b: int | 0 <= b < 256

  /** What `NewClient` configures the SDK with: requests go to `endpointUrl`,
      signed for `signingRegion` with static credentials, bucket named in the path. */
  datatype Handle = Handle(
    endpointUrl: string,
    signingRegion: string,
    accessKey: string,
    secretKey: string,
    usePathStyle: bool)

  /** A client bound to one bucket; never changed after construction. */
  datatype Client = Client(handle: Handle, bucket: string, endpoint: string)

  /** True when construction would be refused before any SDK call. */
  predicate MissingSetting(endpoint: string, bucket: string, accessKey: string, secretKey: string) {
    endpoint == "" || bucket == "" || accessKey == "" || secretKey == ""
  }

  /** `NewClient`. `loadError` is what loading the SDK configuration reports. */
  function NewClient(
    endpoint: string, region: string, bucket: string,
    accessKey: string, secretKey: string,
    loadError: Option<SdkError>): (r: Result<Client, Error>)
    ensures r == Failure(MissingSettings) <==> MissingSetting(endpoint, bucket, accessKey, secretKey)
    ensures r.Success? <==> !MissingSetting(endpoint, bucket, accessKey, secretKey) && loadError.None?
    ensures r.Failure? && !MissingSetting(endpoint, bucket, accessKey, secretKey) ==>
              r.error == ConfigLoadFailed(loadError.value)
    ensures r.Success? ==> r.value.bucket == bucket && r.value.endpoint == endpoint
    ensures r.Success? ==> r.value.handle.endpointUrl == endpoint && r.value.handle.signingRegion == region
    ensures r.Success? ==> r.value.handle.accessKey == accessKey && r.value.handle.secretKey == secretKey
    ensures r.Success? ==> r.value.handle.usePathStyle
  {
    if MissingSetting(endpoint, bucket, accessKey, secretKey) then Failure(MissingSettings)
    else if loadError.Some? then Failure(ConfigLoadFailed(loadError.value))
    else Success(Client(Handle(endpoint, region, accessKey, secretKey, true), bucket, endpoint))
  }

  /** The region is handed to the SDK but never validated: whether construction
      succeeds does not depend on it, and an empty one is accepted. */
  lemma {:induction false} NewClientIgnoresRegion(
    endpoint: string, region: string, other: string, bucket: string,
    accessKey: string, secretKey: string, loadError: Option<SdkError>)
    ensures NewClient(endpoint, region, bucket, accessKey, secretKey, loadError).Success?
        == NewClient(endpoint, other, bucket, accessKey, secretKey, loadError).Success?
    ensures NewClient(endpoint, region, bucket, accessKey, secretKey, loadError).Success?
        == NewClient(endpoint, "", bucket, accessKey, secretKey, loadError).Success?
  {
  }

  // ---------------------------------------------------------------- upload

  /** Whether a content type is displayed inline by browsers: its lower case
      starts with `image/`, `video/` or `audio/`, or is `application/pdf`. */
  predicate ShouldBeInline(contentType: string) {
    var t := ToLower(contentType);
    HasPrefix(t, "image/") || HasPrefix(t, "video/") || HasPrefix(t, "audio/") || t == "application/pdf"
  }

  /** An independent reading of the same policy, in media-type terms: the
      primary type (what stands before the first `/`), in lower case, is
      `image`, `video` or `audio`; or the whole type is `application/pdf`
      in any case. */
  predicate InlineMediaType(contentType: string) {
    var t := ToLower(contentType);
    var k := IndexOf(t, '/');
    (k < |t| && t[..k] in {"image", "video", "audio"}) || t == "application/pdf"
  }

  /** `HasPrefix(t, p + "/")` for a slash-free `p` says exactly that `p` is
      what stands before the first `/` of `t`. */
  lemma {:induction false} PrimaryTypeIs(t: string, p: string)
    requires '/' !in p
    ensures HasPrefix(t, p + "/") <==> (IndexOf(t, '/') < |t| && t[..IndexOf(t, '/')] == p)
  {
    var k := IndexOf(t, '/');
    if HasPrefix(t, p + "/") {
      IndexOfAfter(p, '/', t[|p| + 1..]);
      assert t == p + ['/'] + t[|p| + 1..];
    }
    if k < |t| && t[..k] == p {
      assert t[..|p| + 1] == p + "/";
    }
  }

  /** The source's prefix test and the media-type reading agree on every string. */
  lemma {:induction false} ShouldBeInlineByMediaType(contentType: string)
    ensures ShouldBeInline(contentType) <==> InlineMediaType(contentType)
  {
    var t := ToLower(contentType);
    PrimaryTypeIs(t, "image");
    PrimaryTypeIs(t, "video");
    PrimaryTypeIs(t, "audio");
  }

  /** The decision ignores case, `application/pdf` included. */
  lemma {:induction false} ShouldBeInlineIgnoresCase(a: string, b: string)
    requires ToLower(a) == ToLower(b)
    ensures ShouldBeInline(a) == ShouldBeInline(b)
    ensures ShouldBeInline(ToLower(a)) == ShouldBeInline(a)
  {
    ToLowerIdempotent(a);
  }

  /** A short content type can only be inline when it is long enough to hold
      one of the prefixes; in particular the empty one is not. */
  lemma {:induction false} ShouldBeInlineNeedsPrefix(contentType: string)
    requires |contentType| < 6
    ensures !ShouldBeInline(contentType)
  {
    var t := ToLower(contentType);
    assert |t| < 6;
    assert t != "application/pdf" by { assert |"application/pdf"| == 15; }
  }

  /** The inline cases of the unit test for `shouldBeInline`, and the dotted
      capital I that Go's lower-casing turns into `i`. */
  lemma InlineExamples()
    ensures ShouldBeInline("image/png") && ShouldBeInline("image/jpeg")
    ensures ShouldBeInline("IMAGE/PNG") && ShouldBeInline("\U{0130}MAGE/PNG")
    ensures ShouldBeInline("video/mp4") && ShouldBeInline("audio/mpeg")
  {
    LowersToPrefix("image/png", "image/");
    LowersToPrefix("image/jpeg", "image/");
    LowersToPrefix("IMAGE/PNG", "image/");
    LowersToPrefix("\U{0130}MAGE/PNG", "image/");
    LowersToPrefix("video/mp4", "video/");
    LowersToPrefix("audio/mpeg", "audio/");
  }

  /** `application/pdf` is inline in any case. */
  lemma PdfExamples()
    ensures ShouldBeInline("application/pdf") && ShouldBeInline("Application/PDF")
  {
    LowersToPrefix("application/pdf", "application/pdf");
    LowersToPrefix("Application/PDF", "application/pdf");
  }

  /** The attachment cases of the unit test for `shouldBeInline`. */
  lemma AttachmentExamples()
    ensures !ShouldBeInline("text/plain")
    ensures !ShouldBeInline("application/octet-stream")
    ensures !ShouldBeInline("application/json")
    ensures !ShouldBeInline("")
  {
    var plain, octets, json := ToLower("text/plain"), ToLower("application/octet-stream"), ToLower("application/json");
    assert plain[0] == 't' && plain[1] == 'e' && |plain| == 10;
    DiffersAt(plain, "image/", 0);
    DiffersAt(plain, "video/", 0);
    DiffersAt(plain, "audio/", 0);
    assert octets[1] == 'p' && |octets| == 24;
    DiffersAt(octets, "image/", 0);
    DiffersAt(octets, "video/", 0);
    DiffersAt(octets, "audio/", 1);
    assert json[1] == 'p' && |json| == 16;
    DiffersAt(json, "image/", 0);
    DiffersAt(json, "video/", 0);
    DiffersAt(json, "audio/", 1);
    ShouldBeInlineNeedsPrefix("");
  }

  datatype ObjectCannedAcl = PublicRead

  /** The body of an upload: the reader over an in-memory byte slice that
      `Upload` builds, or a caller's reader whose content is not modelled. */
  datatype Reader = BytesReader(content: seq<byte>) | CallerReader(id: nat)

  /** The fields of `PutObjectInput` that the client sets. */
  datatype PutObjectInput = PutObjectInput(
    bucket: string,
    key: string,
    body: Reader,
    acl: ObjectCannedAcl,
    contentType: Option<string>,
    contentDisposition: Option<string>)

  /** The request an upload sends, for the variadic `contentType` arguments given. */
  function PutRequest(bucket: string, key: string, body: Reader, contentType: seq<string>): (r: PutObjectInput)
    ensures r.bucket == bucket && r.key == key && r.body == body
    ensures r.acl == PublicRead
    ensures r.contentType.Some? <==> |contentType| > 0 && contentType[0] != ""
    ensures r.contentType.Some? ==> r.contentType.value == contentType[0]
    ensures r.contentDisposition.Some? <==> r.contentType.Some? && ShouldBeInline(r.contentType.value)
    ensures r.contentDisposition.Some? ==> r.contentDisposition.value == "inline"
  {
    var typed := |contentType| > 0 && contentType[0] != "";
    PutObjectInput(
      bucket, key, body, PublicRead,
      if typed then Some(contentType[0]) else None,
      if typed && ShouldBeInline(contentType[0]) then Some("inline") else None)
  }

  /** Only the first content-type argument is looked at. */
  lemma {:induction false} PutRequestUsesFirstType(
    bucket: string, key: string, body: Reader, first: string, rest: seq<string>, other: seq<string>)
    ensures PutRequest(bucket, key, body, [first] + rest) == PutRequest(bucket, key, body, [first] + other)
    ensures PutRequest(bucket, key, body, [first] + rest) == PutRequest(bucket, key, body, [first])
  {
  }

  /** `UploadFromReader`: builds the request step by step and sends it;
      `putError` is what `PutObject` reports. */
  method UploadFromReader(c: Client, objectName: string, r: Reader, contentType: seq<string>, putError: Option<SdkError>)
    returns (sent: PutObjectInput, err: Option<Error>)
    ensures sent == PutRequest(c.bucket, objectName, r, contentType)
    ensures err.None? <==> putError.None?
    ensures err.Some? ==> err.value == UploadFailed(putError.value)
  {
    sent := PutObjectInput(c.bucket, objectName, r, PublicRead, None, None);
    if |contentType| > 0 && contentType[0] != "" {
      sent := sent.(contentType := Some(contentType[0]));
      if ShouldBeInline(contentType[0]) {
        sent := sent.(contentDisposition := Some("inline"));
      }
    }
    if putError.Some? {
      err := Some(UploadFailed(putError.value));
    } else {
      err := None;
    }
  }

  /** `Upload`: an upload from a reader over `content`, with the same header policy. */
  method Upload(c: Client, objectName: string, content: seq<byte>, contentType: seq<string>, putError: Option<SdkError>)
    returns (sent: PutObjectInput, err: Option<Error>)
    ensures sent == PutRequest(c.bucket, objectName, BytesReader(content), contentType)
    ensures err.None? <==> putError.None?
    ensures err.Some? ==> err.value == UploadFailed(putError.value)
  {
    sent, err := UploadFromReader(c, objectName, BytesReader(content), contentType, putError);
  }

  // ---------------------------------------------------------------- exists

  /** The two channels through which a "no such object" answer is recognised. */
  predicate IsNotFound(e: SdkError) {
    e.NotFound? || (e.ApiError? && (e.code == "NotFound" || e.code == "NoSuchKey"))
  }

  /** `Exists`, given what `HeadObject` reported (`None` for success). */
  function Exists(probe: Option<SdkError>): (r: (bool, Option<Error>))
    ensures r.0 <==> probe.None?
    ensures r.1.None? <==> probe.None? || IsNotFound(probe.value)
    ensures r.1.Some? ==> !r.0 && r.1.value == HeadFailed(probe.value)
  {
    match probe
    case None => (true, None)
    case Some(e) =>
      if e.NotFound? then (false, None)
      else if e.ApiError? && (e.code == "NotFound" || e.code == "NoSuchKey") then (false, None)
      else (false, Some(HeadFailed(e)))
  }

  /** A caller may trust a `false` only when no error comes with it: an absent
      object and a failed probe both say `false`. */
  lemma {:induction false} ExistsFalseIsAmbiguous()
    ensures Exists(Some(NotFound)).0 == Exists(Some(OtherError)).0 == false
    ensures Exists(Some(NotFound)).1.None? && Exists(Some(OtherError)).1.Some?
    ensures Exists(Some(ApiError("NoSuchKey"))) == Exists(Some(ApiError("NotFound"))) == (false, None)
    ensures Exists(Some(ApiError("AccessDenied"))) == (false, Some(HeadFailed(ApiError("AccessDenied"))))
  {
  }

  // ---------------------------------------------------------------- public URL

  /** The endpoint with one leading `https://` and then one leading `http://` removed. */
  function Host(endpoint: string): string {
    TrimPrefix(TrimPrefix(endpoint, "https://"), "http://")
  }

  /** `GetPublicURL`: a path-style URL, always over https. */
  function GetPublicURL(c: Client, objectName: string): (url: string)
    ensures HasPrefix(url, "https://")
    ensures url[8..] == Host(c.endpoint) + "/" + (c.bucket + "/" + objectName)
  {
    "https://" + Host(c.endpoint) + "/" + c.bucket + "/" + objectName
  }

  /** Reads the object key back out of a public URL: what follows the scheme,
      the host and the bucket. */
  function KeyOfPublicURL(url: string): Option<string> {
    if !HasPrefix(url, "https://") then None
    else match AfterSlash(url[8..])
      case None => None
      case Some(path) => AfterSlash(path)
  }

  /** The URL determines the object key whenever neither host nor bucket holds
      a `/`, so distinct keys get distinct URLs. */
  lemma {:induction false} PublicURLKeyRoundTrip(c: Client, objectName: string)
    requires '/' !in Host(c.endpoint) && '/' !in c.bucket
    ensures KeyOfPublicURL(GetPublicURL(c, objectName)) == Some(objectName)
  {
    AfterSlashOf(Host(c.endpoint), c.bucket + "/" + objectName);
    AfterSlashOf(c.bucket, objectName);
  }

  /** Both scheme prefixes come off a host that carries neither. */
  lemma {:induction false} HostStripsScheme(h: string)
    requires !HasPrefix(h, "https://") && !HasPrefix(h, "http://")
    ensures Host("http://" + h) == Host("https://" + h) == Host(h) == h
  {
    assert ("https://" + h)[..8] == "https://";
    assert ("https://" + h)[8..] == h;
    assert ("http://" + h)[..7] == "http://";
    assert ("http://" + h)[7..] == h;
    assert !HasPrefix("http://" + h, "https://") by {
      assert ("http://" + h)[4] != "https://"[4];
    }
  }

  /** Each prefix comes off at most once, the `https://` one first: an endpoint
      `https://http://h` loses both, while `https://https://h` keeps the second. */
  lemma {:induction false} HostStripsEachSchemeOnce(h: string)
    requires !HasPrefix(h, "https://") && !HasPrefix(h, "http://")
    ensures Host("https://" + ("http://" + h)) == h
    ensures Host("https://" + ("https://" + h)) == "https://" + h
  {
    HostStripsScheme(h);
    var once := "https://" + h;
    assert ("https://" + once)[..8] == "https://";
    assert ("https://" + once)[8..] == once;
    var mixed := "http://" + h;
    assert ("https://" + mixed)[..8] == "https://";
    assert ("https://" + mixed)[8..] == mixed;
    assert !HasPrefix(once, "http://") by {
      assert once[4] != "http://"[4];
    }
  }

  /** An `http://` endpoint is upgraded: it gives the same URL as the `https://`
      endpoint and as the bare host. */
  lemma {:induction false} PublicURLUpgradesHttp(h: string, handle: Handle, bucket: string, objectName: string)
    requires !HasPrefix(h, "https://") && !HasPrefix(h, "http://")
    ensures GetPublicURL(Client(handle, bucket, "http://" + h), objectName)
         == GetPublicURL(Client(handle, bucket, "https://" + h), objectName)
         == GetPublicURL(Client(handle, bucket, h), objectName)
         == "https://" + h + "/" + bucket + "/" + objectName
  {
    HostStripsScheme(h);
  }

  /** The first case of the unit test for `GetPublicURL`. The host is a
      parameter fixed by `requires` so that the proof handles it as one
      string rather than character by character; the handle is any handle,
      since the URL does not depend on it. */
  lemma PublicURLExampleSgp1(handle: Handle, host: string)
    requires host == "sgp1.digitaloceanspaces.com"
    ensures GetPublicURL(Client(handle, "my-bucket", "https://" + host), "path/to/file.txt")
         == "https://" + host + "/" + "my-bucket" + "/" + "path/to/file.txt"
  {
    assert host[0] != 'h';
    HostStripsScheme(host);
  }

  /** The second case of the unit test for `GetPublicURL`. The host is a
      parameter fixed by `requires` so that the proof handles it as one
      string rather than character by character; the handle is any handle,
      since the URL does not depend on it. */
  lemma PublicURLExampleNyc3(handle: Handle, host: string)
    requires host == "nyc3.digitaloceanspaces.com"
    ensures GetPublicURL(Client(handle, "assets", "https://" + host), "image.png")
         == "https://" + host + "/" + "assets" + "/" + "image.png"
  {
    assert host[0] != 'h';
    HostStripsScheme(host);
  }

  /** The third case of the unit test for `GetPublicURL`: an `http://`
      endpoint comes out as `https://`. Host and handle are parameters for
      the reasons given above `PublicURLExampleSgp1`. */
  lemma PublicURLExampleHttp(handle: Handle, host: string)
    requires host == "sgp1.digitaloceanspaces.com"
    ensures GetPublicURL(Client(handle, "bucket", "http://" + host), "file")
         == "https://" + host + "/" + "bucket" + "/" + "file"
  {
    assert host[0] != 'h';
    HostStripsScheme(host);
  }
}
