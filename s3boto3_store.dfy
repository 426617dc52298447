/**
 * `S3Boto3Store` of `sqlalchemy_media/stores/s3boto3.py`: its configuration,
 * the URL it gives an attachment, the upload parameters it sends and the
 * length `put` reports. The bucket is a map from filename to the uploaded
 * object; no network call is modelled.
 */
module S3Boto3 {
  import opened Common

  const CannedAclPublicRead: string := "public-read"
  const CannedAclPrivate: string := "private"
  const DefaultStorageClass: string := "STANDARD"

  /** Python truthiness of an optional string: neither `None` nor `''`. */
  predicate Truthy(s: Option<string>) {
    s.Some? && s.value != ""
  }

  predicate EndsWithSlash(s: string) {
    s != "" && s[|s| - 1] == '/'
  }

  /** `base_url or 'https://{0}.s3.amazonaws.com'.format(bucket_name)`. */
  function ChooseBaseUrl(baseUrl: Option<string>, bucketName: string): (r: string)
    ensures Truthy(baseUrl) ==> r == baseUrl.value
    ensures !Truthy(baseUrl) ==> r == "https://" + bucketName + ".s3.amazonaws.com"
  {
    if Truthy(baseUrl) then baseUrl.value else "https://" + bucketName + ".s3.amazonaws.com"
  }

  /** `value or default`, for the policy and the storage class. */
  function OrDefault(value: Option<string>, default: string): (r: string)
    ensures Truthy(value) ==> r == value.value
    ensures !Truthy(value) ==> r == default
  {
    if Truthy(value) then value.value else default
  }

  /** `s.rstrip('/')`: the longest prefix of `s` that does not end with '/' and leaves only '/' after it. */
  function StripTrailingSlashes(s: string): (r: string)
    ensures r <= s
    ensures !EndsWithSlash(r)
    ensures forall i :: |r| <= i < |s| ==> s[i] == '/'
    decreases |s|
  {
    if EndsWithSlash(s) then StripTrailingSlashes(s[..|s| - 1]) else s
  }

  /** The `cdn_url` the store keeps: stripped of its trailing slashes if it had any. */
  function NormalizeCdnUrl(cdnUrl: Option<string>): (r: Option<string>)
    ensures r.Some? <==> cdnUrl.Some?
    ensures r.Some? ==> !EndsWithSlash(r.value) && r.value <= cdnUrl.value
    ensures r.Some? ==> forall i :: |r.value| <= i < |cdnUrl.value| ==> cdnUrl.value[i] == '/'
    ensures cdnUrl.Some? && !EndsWithSlash(cdnUrl.value) ==> r == cdnUrl
  {
    if Truthy(cdnUrl) && EndsWithSlash(cdnUrl.value) then Some(StripTrailingSlashes(cdnUrl.value)) else cdnUrl
  }

  /** The keyword arguments of `resource('s3', ...)`: `region_name` only when a region is given. */
  function ResourceOptions(region: Option<string>): (kw: map<string, string>)
    ensures "region_name" in kw <==> region.Some?
    ensures region.Some? ==> kw["region_name"] == region.value
    ensures kw.Keys <= {"region_name"}
  {
    if region.Some? then map["region_name" := region.value] else map[]
  }

  /** An attribute of a Python object as `getattr` sees it: missing, or present with a value. */
  datatype Attribute<T> = Missing | Present(value: T)

  /** `getattr(obj, name, default)`. */
  function GetAttr<T>(a: Attribute<T>, default: T): (v: T)
    ensures a.Missing? ==> v == default
    ensures a.Present? ==> v == a.value
  {
    if a.Present? then a.value else default
  }

  /**
   * A stream handed to `put`: its bytes and the two attributes `put` looks
   * up. Either may be missing, and a present one may hold `None`.
   */
  datatype Stream = Stream(content: seq<byte>, contentLength: Attribute<Option<int>>, contentType: Attribute<Option<string>>)

  /**
   * `getattr(stream, 'content_length', 0)`: what `put` reports, not what it
   * uploads. `None` stands for a present attribute holding `None`.
   */
  function ReportedLength(stream: Stream): (n: Option<int>)
    ensures stream.contentLength.Missing? ==> n == Some(0)
    ensures stream.contentLength.Present? ==> n == stream.contentLength.value
  {
    GetAttr(stream.contentLength, Some(0))
  }

  /** `getattr(stream, 'content_type', None)`. */
  function StreamContentType(stream: Stream): (t: Option<string>)
    ensures stream.contentType.Missing? ==> t.None?
    ensures stream.contentType.Present? ==> t == stream.contentType.value
  {
    GetAttr(stream.contentType, None)
  }

  /** An uploaded object: its content and the `ExtraArgs` it was uploaded with. */
  datatype S3Object = S3Object(content: seq<byte>, extraArgs: map<string, Option<string>>)

  class S3Boto3Store {
    const bucketName: string
    const accessKey: string
    const secretKey: string
    const encryption: bool
    const reducedRedundancy: bool
    const baseUrl: string
    const policy: string
    const storageClass: string
    const resourceOptions: map<string, string>
    const cdnUrl: Option<string>
    /** The bucket's objects by filename. */
    var objects: map<string, S3Object>

    /** What construction guarantees: a non-empty policy and storage class, a normalised CDN URL. */
    predicate Valid() {
      policy != "" && storageClass != "" && (cdnUrl.Some? ==> !EndsWithSlash(cdnUrl.value))
    }

    constructor(bucketName: string, accessKey: string, secretKey: string, region: Option<string>,
                baseUrl: Option<string>, cdnUrl: Option<string>, policy: Option<string>,
                storageClass: Option<string>, encryption: bool, reducedRedundancy: bool,
                existing: map<string, S3Object>)
      ensures Valid()
      ensures this.bucketName == bucketName && this.accessKey == accessKey && this.secretKey == secretKey
      ensures this.encryption == encryption && this.reducedRedundancy == reducedRedundancy
      ensures this.baseUrl == ChooseBaseUrl(baseUrl, bucketName)
      ensures this.policy == OrDefault(policy, CannedAclPublicRead)
      ensures this.storageClass == OrDefault(storageClass, DefaultStorageClass)
      ensures this.resourceOptions == ResourceOptions(region)
      ensures this.cdnUrl == NormalizeCdnUrl(cdnUrl)
      ensures objects == existing
    {
      this.bucketName := bucketName;
      this.accessKey := accessKey;
      this.secretKey := secretKey;
      this.encryption := encryption;
      this.reducedRedundancy := reducedRedundancy;
      this.baseUrl := ChooseBaseUrl(baseUrl, bucketName);
      this.policy := OrDefault(policy, CannedAclPublicRead);
      this.storageClass := OrDefault(storageClass, DefaultStorageClass);
      this.resourceOptions := ResourceOptions(region);
      var cdn := cdnUrl;
      if Truthy(cdn) && EndsWithSlash(cdn.value) {
        cdn := Some(StripTrailingSlashes(cdn.value));
      }
      this.cdnUrl := cdn;
      objects := existing;
    }

    /**
     * What `_upload_file` sends as `ExtraArgs`: always ContentType; ServerSideEncryption
     * exactly when encryption is on; StorageClass exactly when reduced redundancy is on;
     * ACL exactly when the policy is non-empty; nothing else.
     */
    predicate IsUploadParameters(params: map<string, Option<string>>, contentType: Option<string>) {
      && "ContentType" in params && params["ContentType"] == contentType
      && ("ServerSideEncryption" in params <==> encryption)
      && (encryption ==> params["ServerSideEncryption"] == Some("AES256"))
      && ("StorageClass" in params <==> reducedRedundancy)
      && (reducedRedundancy ==> params["StorageClass"] == Some("REDUCED_REDUNDANCY"))
      && ("ACL" in params <==> policy != "")
      && (policy != "" ==> params["ACL"] == Some(policy))
      && params.Keys <= {"ContentType", "ServerSideEncryption", "StorageClass", "ACL"}
    }

    /** The `put_parameters` of `_upload_file`, built by conditional insertions. */
    method UploadParameters(contentType: Option<string>) returns (params: map<string, Option<string>>)
      ensures IsUploadParameters(params, contentType)
      ensures Valid() ==> "ACL" in params && params["ACL"] == Some(policy)
    {
      params := map["ContentType" := contentType];
      if encryption {
        params := params["ServerSideEncryption" := Some("AES256")];
      }
      if reducedRedundancy {
        params := params["StorageClass" := Some("REDUCED_REDUNDANCY")];
      }
      if policy != "" {
        params := params["ACL" := Some(policy)];
      }
    }

    /** `_upload_file`: the object is stored under `filename` with its upload parameters. */
    method UploadFile(content: seq<byte>, filename: string, contentType: Option<string>)
      modifies this
      ensures filename in objects && objects[filename].content == content
      ensures IsUploadParameters(objects[filename].extraArgs, contentType)
      ensures objects == old(objects)[filename := objects[filename]]
    {
      var params := UploadParameters(contentType);
      objects := objects[filename := S3Object(content, params)];
    }

    /** `put`: uploads the stream and reports the length the stream declares. */
    method Put(filename: string, stream: Stream) returns (length: Option<int>)
      modifies this
      ensures length == ReportedLength(stream)
      ensures filename in objects && objects[filename].content == stream.content
      ensures IsUploadParameters(objects[filename].extraArgs, StreamContentType(stream))
      ensures forall f :: f in old(objects) && f != filename ==> f in objects && objects[f] == old(objects)[f]
      ensures objects.Keys == old(objects).Keys + {filename}
    {
      length := ReportedLength(stream);
      UploadFile(stream.content, filename, StreamContentType(stream));
    }

    /** The base of public URLs: the CDN URL when it is set and non-empty, else the base URL. */
    function PublicBase(): (b: string)
      ensures Truthy(cdnUrl) ==> b == cdnUrl.value
      ensures !Truthy(cdnUrl) ==> b == baseUrl
    {
      if Truthy(cdnUrl) then cdnUrl.value else baseUrl
    }

    /** `locate`: '' for an attachment without a path, else `base/path`. */
    function Locate(path: Option<string>): (url: string)
      ensures url == "" <==> !Truthy(path)
      ensures Truthy(path) ==>
        && |url| == |PublicBase()| + 1 + |path.value|
        && url[..|PublicBase()|] == PublicBase()
        && url[|PublicBase()|] == '/'
        && url[|PublicBase()| + 1..] == path.value
    {
      if !Truthy(path) then "" else PublicBase() + "/" + path.value
    }
  }

  /**
   * With a CDN URL configured, `locate` adds exactly one '/' of its own: the
   * character before the separator is never a slash, however many trailing
   * slashes the configured CDN URL had (a path starting with '/' still
   * gives two in a row).
   */
  lemma CdnJoinHasSingleSlash(store: S3Boto3Store, path: string)
    requires store.Valid() && Truthy(store.cdnUrl) && path != ""
    ensures var url := store.Locate(Some(path));
      var n := |store.cdnUrl.value|;
      url[..n] == store.cdnUrl.value && url[n] == '/' && url[n - 1] != '/'
  {
    var url := store.Locate(Some(path));
    assert url[..|store.PublicBase()|] == store.PublicBase();
    assert url[|store.cdnUrl.value| - 1] == url[..|store.cdnUrl.value|][|store.cdnUrl.value| - 1];
  }

  /**
   * Without a base URL or CDN URL, an attachment lives at the bucket's
   * virtual-hosted URL.
   */
  lemma DefaultLocation(store: S3Boto3Store, path: string)
    requires store.baseUrl == ChooseBaseUrl(None, store.bucketName)
    requires store.cdnUrl == NormalizeCdnUrl(None)
    requires path != ""
    ensures store.Locate(Some(path)) == "https://" + store.bucketName + ".s3.amazonaws.com/" + path
  {
    var url := store.Locate(Some(path));
    assert url == store.PublicBase() + "/" + path;
  }

  /**
   * `put` reports the declared length, not the uploaded one: a non-empty
   * stream without `content_length` is stored in full and reported as 0
   * bytes, and one whose `content_length` is `None` is reported as `None`.
   */
  method PutReportsDeclaredLength(store: S3Boto3Store, filename: string, content: seq<byte>)
    returns (undeclared: Option<int>, declaredNone: Option<int>)
    requires content != []
    modifies store
    ensures undeclared == Some(0) && declaredNone.None?
    ensures filename in store.objects && store.objects[filename].content == content
    ensures Some(|store.objects[filename].content|) != undeclared
  {
    undeclared := store.Put(filename, Stream(content, Missing, Missing));
    assert store.objects[filename].content == content;
    declaredNone := store.Put(filename, Stream(content, Present(None), Present(Some("text/plain"))));
  }
}
