/** The storage client of `backend/app/storage/s3_client.py`: an S3 client
    that, in mock mode, writes each upload to a local directory and returns
    a `file://` locator, plus the module-level singleton. The SDK calls
    (`put_object`, `generate_presigned_url`) are function parameters, and the
    local disk is a `FileSystem` object shared by every client. */
module Storage {
  import opened Py
  import opened Text
  import AppConfig

  const MockDir := "/tmp/s3-mock"
  const FileScheme := "file://"
  const DefaultEnvironmentName := "development"
  const OctetStream := "application/octet-stream"
  const UploadErrorPrefix := "Error al subir archivo: "
  const DeleteErrorPrefix := "Error al eliminar archivo: "

  /** The MIME types `_get_content_type` knows, by lower-case extension. */
  const ContentTypes: map<string, string> := map[
    "docx" := "application/vnd.openxmlformats-officedocument.wordprocessingml.document",
    "html" := "text/html",
    "pdf" := "application/pdf",
    "txt" := "text/plain"
  ]

  /** `StorageError(message, bucket=None, key=None)` */
  datatype StorageError = StorageError(message: string, bucket: Option<string>, key: Option<string>)

  /** `boto3.client(service, region_name=region)` */
  datatype SdkClient = SdkClient(service: string, region: string)

  /** The arguments of `s3.put_object(...)`. */
  datatype PutObjectRequest = PutObjectRequest(bucket: string, key: string, body: Bytes, contentType: string)

  /** The arguments of `s3.generate_presigned_url(...)`. */
  datatype PresignRequest = PresignRequest(operation: string, bucket: string, key: string, expiresIn: int)

  /** `S3Client.__init__`: an explicit flag wins; without one, mock mode is
      chosen exactly for the lower-case environment name "development". */
  function MockModeFor(useMock: Option<bool>, environment: string): (mock: bool)
    ensures useMock.Some? ==> mock == useMock.value
    ensures useMock.None? ==> (mock <==> environment == DefaultEnvironmentName)
  {
    if useMock.None? then environment == DefaultEnvironmentName else useMock.value
  }

  /** An explicit `use_mock` is taken as given; otherwise only the exact
      lower-case name "development" selects the mock, so "DEVELOPMENT"
      (the value that sets `IS_DEVELOPMENT`) does not. */
  lemma ModeSelection(useMock: Option<bool>, environment: string)
    ensures useMock.Some? ==> MockModeFor(useMock, environment) == useMock.value
    ensures MockModeFor(None, environment) <==> environment == DefaultEnvironmentName
    ensures !MockModeFor(None, "DEVELOPMENT")
  {
  }

  /** The client's mode and the configuration's flag disagree on the default
      environment: the client mocks, yet `IS_DEVELOPMENT` is false. */
  lemma DefaultEnvironmentMocksButIsNotDevelopment(env: AppConfig.Environment)
    requires env.environment.None?
    ensures MockModeFor(None, AppConfig.Load(env).environment)
    ensures !AppConfig.Load(env).isDevelopment
  {
  }

  predicate IsHexDigit(c: char) {
    '0' <= c <= '9' || 'a' <= c <= 'f'
  }

  /** The text of `uuid.uuid4()`: 32 lower-case hex digits in groups 8-4-4-4-12. */
  predicate IsUuid(id: string) {
    && |id| == 36
    && forall i :: 0 <= i < |id| ==>
         if i == 8 || i == 13 || i == 18 || i == 23 then id[i] == '-' else IsHexDigit(id[i])
  }

  /** `f"{uuid.uuid4()}.{file_extension}"` */
  function FileKey(id: string, extension: string): string {
    id + "." + extension
  }

  /** A key names its id and its extension: distinct ids give distinct keys. */
  lemma FileKeyInjective(id1: string, ext1: string, id2: string, ext2: string)
    requires IsUuid(id1) && IsUuid(id2)
    ensures FileKey(id1, ext1) == FileKey(id2, ext2) <==> id1 == id2 && ext1 == ext2
  {
    if FileKey(id1, ext1) == FileKey(id2, ext2) {
      assert FileKey(id1, ext1)[..36] == id1;
      assert FileKey(id2, ext2)[..36] == id2;
      assert FileKey(id1, ext1)[37..] == ext1;
      assert FileKey(id2, ext2)[37..] == ext2;
    }
  }

  /** `self.mock_dir / file_key` */
  function MockPath(key: string): string {
    MockDir + "/" + key
  }

  /** The part of `s` after its last `sep`: `s.split(sep)[-1]`. */
  function LastSegment(s: string, sep: char): (r: string)
    ensures |r| <= |s| && r == s[|s| - |r|..]
    ensures sep !in r
    ensures |r| < |s| ==> s[|s| - |r| - 1] == sep
  {
    if s == [] then []
    else if s[|s| - 1] == sep then []
    else LastSegment(s[..|s| - 1], sep) + [s[|s| - 1]]
  }

  /** Whatever comes before the last separator, the segment after it is the tail. */
  lemma {:induction false} LastSegmentOfJoin(prefix: string, sep: char, tail: string)
    requires sep !in tail
    ensures LastSegment(prefix + [sep] + tail, sep) == tail
    decreases |tail|
  {
    var s := prefix + [sep] + tail;
    if tail == [] {
      assert s[|s| - 1] == sep;
    } else {
      assert s[..|s| - 1] == prefix + [sep] + tail[..|tail| - 1];
      LastSegmentOfJoin(prefix, sep, tail[..|tail| - 1]);
      assert tail[..|tail| - 1] + [tail[|tail| - 1]] == tail;
    }
  }

  /** The directory part of a path: everything before its last '/'. */
  function Parent(path: string): string {
    var name := LastSegment(path, '/');
    if |name| < |path| then path[..|path| - |name| - 1] else ""
  }

  /** `_get_content_type(filename)`: the MIME type of the lower-cased last
      dot-separated segment, or the generic octet stream. */
  function ContentType(filename: string): (r: string)
    ensures r == OctetStream || r in ContentTypes.Values
  {
    var extension := Lower(LastSegment(filename, '.'));
    if extension in ContentTypes then ContentTypes[extension] else OctetStream
  }

  /** The content type of a generated key depends only on its extension,
      whatever its case. */
  lemma ContentTypeOfKey(id: string, extension: string)
    requires '.' !in extension
    ensures ContentType(FileKey(id, extension)) ==
            if Lower(extension) in ContentTypes then ContentTypes[Lower(extension)] else OctetStream
  {
    LastSegmentOfJoin(id, '.', extension);
    assert FileKey(id, extension) == id + ['.'] + extension;
  }

  /** A ".docx" key is uploaded as a Word document. */
  lemma ContentTypeDocx(id: string)
    ensures ContentType(FileKey(id, "docx")) == ContentTypes["docx"]
  {
    ContentTypeOfKey(id, "docx");
    assert Lower("docx") == "docx";
  }

  /** A key with an empty extension is uploaded as an octet stream. */
  lemma ContentTypeNoExtension(id: string)
    ensures ContentType(FileKey(id, "")) == OctetStream
  {
    ContentTypeOfKey(id, "");
    assert Lower("") == "";
  }

  /** `str(OSError(errno, text, path))` */
  function OsErrorText(errno: int, text: string, path: string): string {
    "[Errno " + IntToDecimal(errno) + "] " + text + ": '" + path + "'"
  }

  /** `open(path, "wb")` succeeds when the parent directory exists and the
      path is not itself a directory. */
  predicate CanWrite(dirs: set<string>, path: string) {
    Parent(path) in dirs && path !in dirs
  }

  /** The text of the `OSError` a failing `open(path, "wb")` raises: the path
      is a directory, its parent is a file, or its parent is missing. */
  function WriteErrorText(files: map<string, Bytes>, dirs: set<string>, path: string): string {
    if path in dirs then OsErrorText(21, "Is a directory", path)
    else if Parent(path) in files then OsErrorText(20, "Not a directory", path)
    else OsErrorText(2, "No such file or directory", path)
  }

  /** What an upload produced: the locator or the error, and the files on disk. */
  datatype Stored = Stored(result: Result<string, StorageError>, files: map<string, Bytes>)

  /** `_upload_mock` inside the `try` of `upload_and_get_url`. */
  function MockUpload(files: map<string, Bytes>, dirs: set<string>, bucket: string, key: string, content: Bytes): (s: Stored)
    ensures s.result.Success? <==> CanWrite(dirs, MockPath(key))
    ensures s.result.Success? ==>
              s.result.value == FileScheme + MockPath(key) && s.files == files[MockPath(key) := content]
    ensures s.result.Failure? ==>
              s.files == files && s.result.error.bucket == Some(bucket) && s.result.error.key == Some(key)
  {
    var path := MockPath(key);
    if CanWrite(dirs, path) then Stored(Success(FileScheme + path), files[path := content])
    else Stored(Failure(StorageError(UploadErrorPrefix + WriteErrorText(files, dirs, path), Some(bucket), Some(key))), files)
  }

  /** `_upload_s3` inside the `try` of `upload_and_get_url`: `putObject`
      returns the text of the exception it raised, if any. */
  function S3Upload(
    putObject: PutObjectRequest -> Option<string>, presign: PresignRequest -> Outcome<string>,
    bucket: string, key: string, content: Bytes, expiresIn: int): (r: Result<string, StorageError>)
    ensures var put := putObject(PutObjectRequest(bucket, key, content, ContentType(key)));
            var url := presign(PresignRequest("get_object", bucket, key, expiresIn));
            && (r.Success? <==> put.None? && url.Ok?)
            && (r.Success? ==> r.value == url.value)
            && (r.Failure? ==> r.error.bucket == Some(bucket) && r.error.key == Some(key))
            && (r.Failure? ==> StartsWith(r.error.message, UploadErrorPrefix))
            && (put.Some? ==> r.error.message == UploadErrorPrefix + put.value)
            && (put.None? && url.Fail? ==> r.error.message == UploadErrorPrefix + url.message)
  {
    var put := putObject(PutObjectRequest(bucket, key, content, ContentType(key)));
    if put.Some? then Failure(StorageError(UploadErrorPrefix + put.value, Some(bucket), Some(key)))
    else match presign(PresignRequest("get_object", bucket, key, expiresIn))
      case Ok(url) => Success(url)
      case Fail(m) => Failure(StorageError(UploadErrorPrefix + m, Some(bucket), Some(key)))
  }

  /** A mock upload either stores exactly the given bytes under the key's path
      and returns `file://` followed by that path, or changes nothing and
      raises a `StorageError` naming the bucket and the key. */
  lemma MockUploadStoresOrFails(files: map<string, Bytes>, dirs: set<string>, bucket: string, key: string, content: Bytes)
    ensures var s := MockUpload(files, dirs, bucket, key, content);
      && (s.result.Success? <==> CanWrite(dirs, MockPath(key)))
      && (s.result.Success? ==>
            s.result.value == FileScheme + MockPath(key)
            && s.files.Keys == files.Keys + {MockPath(key)}
            && s.files[MockPath(key)] == content
            && forall p :: p in files && p != MockPath(key) ==> s.files[p] == files[p])
      && (s.result.Failure? ==>
            s.files == files
            && s.result.error.bucket == Some(bucket) && s.result.error.key == Some(key)
            && StartsWith(s.result.error.message, UploadErrorPrefix))
  {
    var s := MockUpload(files, dirs, bucket, key, content);
    if s.result.Failure? {
      assert s.result.error.message == UploadErrorPrefix + WriteErrorText(files, dirs, MockPath(key));
    }
  }

  /** With the mock directory in place, an extension without '/' always
      writes: the parent of the key's path is the mock directory. */
  lemma MockUploadSucceeds(dirs: set<string>, id: string, extension: string)
    requires IsUuid(id) && '/' !in extension
    requires MockDir in dirs && MockPath(FileKey(id, extension)) !in dirs
    ensures CanWrite(dirs, MockPath(FileKey(id, extension)))
  {
    var key := FileKey(id, extension);
    assert '/' !in key by {
      forall i | 0 <= i < |key| ensures key[i] != '/' {
        if i < 36 { assert key[i] == id[i]; }
        else if i > 36 { assert key[i] == extension[i - 37]; }
      }
    }
    var path := MockPath(key);
    LastSegmentOfJoin(MockDir, '/', key);
    assert path == MockDir + ['/'] + key;
    assert Parent(path) == path[..|MockDir|] == MockDir;
  }

  /** The `file://` locator of a mock upload ends with "." and the extension. */
  lemma LocatorEndsWithExtension(id: string, extension: string)
    ensures EndsWith(FileScheme + MockPath(FileKey(id, extension)), "." + extension)
  {
    var loc := FileScheme + MockPath(FileKey(id, extension));
    assert loc == (FileScheme + MockDir + "/" + id) + ("." + extension);
  }

  /** `delete_file` recovers the written path from a mock locator, provided
      the extension contains no ':' (so the scheme occurs only once). */
  lemma LocatorPathRoundTrip(id: string, extension: string)
    requires IsUuid(id) && ':' !in extension
    ensures RemoveAll(FileScheme + MockPath(FileKey(id, extension)), FileScheme) == MockPath(FileKey(id, extension))
  {
    var key := FileKey(id, extension);
    var path := MockPath(key);
    RemoveAllLeading(FileScheme, path);
    assert FileScheme[4] == ':';
    assert ':' !in MockDir;
    assert ':' !in id by {
      forall i | 0 <= i < |id| ensures id[i] != ':' {
      }
    }
    assert ':' !in key;
    assert ':' !in path;
    RemoveAllAbsent(path, FileScheme, 4);
  }

  /** Uploading to a fresh path and then removing that path leaves the
      mock store as it was; removing it again changes nothing more.
      Together with `LocatorPathRoundTrip` (the path `delete_file` derives
      from the returned locator is the written one) this is the
      upload-then-delete round trip. */
  lemma UploadThenRemoveRestores(files: map<string, Bytes>, dirs: set<string>, bucket: string, key: string, content: Bytes)
    requires CanWrite(dirs, MockPath(key)) && MockPath(key) !in files
    ensures var s := MockUpload(files, dirs, bucket, key, content);
            && s.result == Success(FileScheme + MockPath(key))
            && MockPath(key) !in dirs
            && s.files - {MockPath(key)} == files
            && (s.files - {MockPath(key)}) - {MockPath(key)} == files
  {
    var path := MockPath(key);
    var after := files[path := content];
    assert after - {path} == files;
  }

  /** The mock client's round trip: two uploads with the same extension get
      different locators; the path a locator names holds exactly the uploaded
      bytes; deleting by the first locator removes that file and keeps the
      second; deleting it again still answers `True`. */
  method MockRoundTrip(
    client: S3Client, first: Bytes, second: Bytes, extension: string, id1: string, id2: string,
    putObject: PutObjectRequest -> Option<string>, presign: PresignRequest -> Outcome<string>)
    returns (url1: string, url2: string, stored: Bytes, deleted: Result<bool, StorageError>, again: Result<bool, StorageError>)
    requires client.useMock && client.fs.Valid() && MockDir in client.fs.dirs
    requires IsUuid(id1) && IsUuid(id2) && id1 != id2 && id1 !in client.issuedIds && id2 !in client.issuedIds
    requires '/' !in extension && ':' !in extension
    requires MockPath(FileKey(id1, extension)) !in client.fs.dirs && MockPath(FileKey(id2, extension)) !in client.fs.dirs
    modifies client`issuedIds, client.fs
    ensures url1 == FileScheme + MockPath(FileKey(id1, extension))
    ensures url2 == FileScheme + MockPath(FileKey(id2, extension))
    ensures url1 != url2 && stored == first
    ensures deleted == Success(true) && again == Success(true)
    ensures RemoveAll(url1, FileScheme) !in client.fs.files
    ensures RemoveAll(url2, FileScheme) in client.fs.files && client.fs.files[RemoveAll(url2, FileScheme)] == second
  {
    var path1 := MockPath(FileKey(id1, extension));
    var path2 := MockPath(FileKey(id2, extension));
    DistinctMockPaths(id1, id2, extension);
    MockUploadSucceeds(client.fs.dirs, id1, extension);
    MockUploadSucceeds(client.fs.dirs, id2, extension);
    LocatorPathRoundTrip(id1, extension);
    LocatorPathRoundTrip(id2, extension);
    var r1 := client.UploadAndGetUrl(first, extension, None, id1, putObject, presign);
    assert r1 == Success(FileScheme + path1);
    assert path1 in client.fs.files && client.fs.files[path1] == first;
    var r2 := client.UploadAndGetUrl(second, extension, None, id2, putObject, presign);
    assert r2 == Success(FileScheme + path2);
    assert client.fs.files[path1] == first && client.fs.files[path2] == second;
    url1 := r1.value;
    url2 := r2.value;
    assert url1[..|FileScheme|] == FileScheme;
    stored := client.fs.files[path1];
    deleted, again := DeleteTwice(client, url1, path1, path2);
  }

  /** Two distinct ids give two distinct mock paths. */
  lemma DistinctMockPaths(id1: string, id2: string, extension: string)
    requires IsUuid(id1) && IsUuid(id2) && id1 != id2
    ensures MockPath(FileKey(id1, extension)) != MockPath(FileKey(id2, extension))
  {
    FileKeyInjective(id1, extension, id2, extension);
    assert MockPath(FileKey(id1, extension))[|MockDir| + 1..] == FileKey(id1, extension);
    assert MockPath(FileKey(id2, extension))[|MockDir| + 1..] == FileKey(id2, extension);
  }

  /** Deleting a mock file by its locator twice: both calls answer `True`,
      the file is gone and another file is kept as it was. */
  method DeleteTwice(client: S3Client, url: string, path: string, other: string)
    returns (deleted: Result<bool, StorageError>, again: Result<bool, StorageError>)
    requires client.useMock && client.fs.Valid()
    requires StartsWith(url, FileScheme) && RemoveAll(url, FileScheme) == path
    requires path !in client.fs.dirs && path != other && other in client.fs.files
    modifies client.fs
    ensures deleted == Success(true) && again == Success(true)
    ensures path !in client.fs.files
    ensures other in client.fs.files && client.fs.files[other] == old(client.fs.files[other])
  {
    deleted := client.DeleteFile(url);
    assert path !in client.fs.files;
    again := client.DeleteFile(url);
  }

  /** Two calls of the shortcut `upload_and_get_url` after a reset share one
      client, built in automatic mode by the first call; the second call's
      id is still fresh for it: afterwards the client has issued exactly the
      two ids. */
  method ShortcutTwice(
    registry: ClientRegistry, first: Bytes, second: Bytes, extension: string, id1: string, id2: string,
    putObject: PutObjectRequest -> Option<string>, presign: PresignRequest -> Outcome<string>)
    returns (r1: Result<string, StorageError>, r2: Result<string, StorageError>)
    requires registry.Valid() && registry.instance == null
    requires IsUuid(id1) && IsUuid(id2) && id1 != id2
    modifies registry, registry.fs
    ensures registry.Valid() && registry.instance != null && fresh(registry.instance)
    ensures registry.instance.useMock == MockModeFor(None, registry.cfg.environment)
    ensures registry.instance.issuedIds == {id1, id2}
  {
    r1 := registry.UploadAndGetUrl(first, extension, id1, putObject, presign);
    ghost var client := registry.instance;
    r2 := registry.UploadAndGetUrl(second, extension, id2, putObject, presign);
    assert registry.instance == client;
  }

  /** The local disk as the mock client sees it. */
  class FileSystem {
    var files: map<string, Bytes>
    var dirs: set<string>

    ghost predicate Valid()
      reads this
    {
      files.Keys !! dirs
    }

    constructor(files: map<string, Bytes>, dirs: set<string>)
      requires files.Keys !! dirs
      ensures this.files == files && this.dirs == dirs && Valid()
    {
      this.files := files;
      this.dirs := dirs;
    }
  }

  class S3Client {
    const useMock: bool
    const mockDir: string := MockDir
    const s3: Option<SdkClient>
    const cfg: AppConfig.Config
    const fs: FileSystem
    /** The ids `uuid.uuid4()` has handed to this client so far. */
    ghost var issuedIds: set<string>

    /** `S3Client(use_mock)`; `mkdir(parents=True, exist_ok=True)` adds the
        mock directory and its parent to the disk. */
    constructor(useMock: Option<bool>, cfg: AppConfig.Config, fs: FileSystem)
      requires fs.Valid()
      requires MockModeFor(useMock, cfg.environment) ==> "/tmp" !in fs.files && MockDir !in fs.files
      modifies fs
      ensures this.useMock == MockModeFor(useMock, cfg.environment)
      ensures this.mockDir == MockDir && this.cfg == cfg && this.fs == fs && issuedIds == {}
      ensures this.useMock ==> s3 == None && fs.dirs == old(fs.dirs) + {"/tmp", MockDir}
      ensures !this.useMock ==> s3 == Some(SdkClient("s3", cfg.awsRegion)) && fs.dirs == old(fs.dirs)
      ensures fs.files == old(fs.files) && fs.Valid()
    {
      var mock := MockModeFor(useMock, cfg.environment);
      this.useMock := mock;
      this.cfg := cfg;
      this.fs := fs;
      this.s3 := if mock then None else Some(SdkClient("s3", cfg.awsRegion));
      issuedIds := {};
      new;
      if mock {
        fs.dirs := fs.dirs + {"/tmp", MockDir};
      }
    }

    /** `upload_and_get_url(content, file_extension, expires_in)`; `id` is
        the fresh value of `uuid.uuid4()`. */
    method UploadAndGetUrl(
      content: Bytes, fileExtension: string, expiresIn: Option<int>, id: string,
      putObject: PutObjectRequest -> Option<string>, presign: PresignRequest -> Outcome<string>)
      returns (r: Result<string, StorageError>)
      requires fs.Valid()
      requires IsUuid(id) && id !in issuedIds
      modifies this`issuedIds, fs
      ensures fs.Valid() && fs.dirs == old(fs.dirs)
      ensures issuedIds == old(issuedIds) + {id}
      ensures fs.files.Keys <= old(fs.files.Keys) + {MockPath(FileKey(id, fileExtension))}
      ensures useMock ==>
                Stored(r, fs.files) == MockUpload(old(fs.files), fs.dirs, cfg.bucketName, FileKey(id, fileExtension), content)
      ensures !useMock ==>
                && fs.files == old(fs.files)
                && r == S3Upload(putObject, presign, cfg.bucketName, FileKey(id, fileExtension), content,
                                 expiresIn.GetOr(cfg.presignedUrlExpiry))
    {
      var ttl := if expiresIn.None? then cfg.presignedUrlExpiry else expiresIn.value;
      var key := FileKey(id, fileExtension);
      issuedIds := issuedIds + {id};
      var bucket := cfg.bucketName;
      if useMock {
        var path := MockPath(key);
        if CanWrite(fs.dirs, path) {
          fs.files := fs.files[path := content];
          r := Success(FileScheme + path);
        } else {
          r := Failure(StorageError(UploadErrorPrefix + WriteErrorText(fs.files, fs.dirs, path), Some(bucket), Some(key)));
        }
      } else {
        var put := putObject(PutObjectRequest(bucket, key, content, ContentType(key)));
        if put.Some? {
          r := Failure(StorageError(UploadErrorPrefix + put.value, Some(bucket), Some(key)));
        } else {
          var url := presign(PresignRequest("get_object", bucket, key, ttl));
          if url.Ok? {
            r := Success(url.value);
          } else {
            r := Failure(StorageError(UploadErrorPrefix + url.message, Some(bucket), Some(key)));
          }
        }
      }
    }

    /** `delete_file(file_url)`: in mock mode a `file://` locator's path is
        removed if present; a directory there makes `unlink` raise. */
    method DeleteFile(fileUrl: string) returns (r: Result<bool, StorageError>)
      requires fs.Valid()
      modifies fs
      ensures fs.Valid() && fs.dirs == old(fs.dirs)
      ensures !(useMock && StartsWith(fileUrl, FileScheme)) ==> r == Success(true) && fs.files == old(fs.files)
      ensures useMock && StartsWith(fileUrl, FileScheme) ==>
                var path := RemoveAll(fileUrl, FileScheme);
                if path in fs.dirs then
                  && r == Failure(StorageError(DeleteErrorPrefix + OsErrorText(21, "Is a directory", path), None, None))
                  && fs.files == old(fs.files)
                else
                  r == Success(true) && fs.files == old(fs.files) - {path}
    {
      if useMock {
        if |FileScheme| <= |fileUrl| && fileUrl[..|FileScheme|] == FileScheme {
          var path := RemoveAll(fileUrl, FileScheme);
          if path in fs.files || path in fs.dirs {
            if path in fs.dirs {
              r := Failure(StorageError(DeleteErrorPrefix + OsErrorText(21, "Is a directory", path), None, None));
              return;
            }
            fs.files := fs.files - {path};
          }
          return Success(true);
        }
      }
      r := Success(true);
    }
  }

  /** The module-level `_client_instance` and the functions that use it. */
  class ClientRegistry {
    var instance: S3Client?
    const cfg: AppConfig.Config
    const fs: FileSystem

    ghost predicate Valid()
      reads this, fs
    {
      && fs.Valid()
      && (MockModeFor(None, cfg.environment) ==> "/tmp" !in fs.files && MockDir !in fs.files)
      && (instance != null ==> instance.fs == fs && instance.cfg == cfg)
    }

    constructor(cfg: AppConfig.Config, fs: FileSystem)
      requires fs.Valid()
      requires MockModeFor(None, cfg.environment) ==> "/tmp" !in fs.files && MockDir !in fs.files
      ensures Valid() && instance == null && this.cfg == cfg && this.fs == fs
    {
      this.cfg := cfg;
      this.fs := fs;
      instance := null;
    }

    /** `get_s3_client(use_mock)`: a client is built only when none exists;
        afterwards the same instance is returned and `use_mock` is ignored. */
    method GetS3Client(useMock: Option<bool>) returns (c: S3Client)
      requires Valid()
      requires instance == null && MockModeFor(useMock, cfg.environment) ==> "/tmp" !in fs.files && MockDir !in fs.files
      modifies this, fs
      ensures Valid() && instance == c && fs.files == old(fs.files)
      ensures old(instance) != null ==> c == old(instance) && fs.dirs == old(fs.dirs)
      ensures old(instance) == null ==>
                && fresh(c) && c.useMock == MockModeFor(useMock, cfg.environment) && c.issuedIds == {}
                && fs.dirs == old(fs.dirs) + (if c.useMock then {"/tmp", MockDir} else {})
    {
      if instance == null {
        instance := new S3Client(useMock, cfg, fs);
      }
      c := instance;
    }

    /** `_client_instance = None`, as the tests do between cases. */
    method Reset()
      modifies this
      ensures instance == null
      ensures old(Valid()) ==> Valid()
    {
      instance := null;
    }

    /** The shortcut `upload_and_get_url(content, file_extension)`: the
        shared client, with the default expiry. */
    method UploadAndGetUrl(
      content: Bytes, fileExtension: string, id: string,
      putObject: PutObjectRequest -> Option<string>, presign: PresignRequest -> Outcome<string>)
      returns (r: Result<string, StorageError>)
      requires Valid() && IsUuid(id) && (instance != null ==> id !in instance.issuedIds)
      modifies this, fs, instance
      ensures Valid() && instance != null
      ensures old(instance) != null ==> instance == old(instance)
      ensures old(instance) == null ==> fresh(instance) && instance.useMock == MockModeFor(None, cfg.environment)
      ensures instance.issuedIds == (if old(instance) == null then {} else old(instance.issuedIds)) + {id}
      ensures fs.dirs == old(fs.dirs) + (if old(instance) == null && instance.useMock then {"/tmp", MockDir} else {})
      ensures instance.useMock ==>
                Stored(r, fs.files) == MockUpload(old(fs.files), fs.dirs, cfg.bucketName, FileKey(id, fileExtension), content)
      ensures !instance.useMock ==>
                && fs.files == old(fs.files)
                && r == S3Upload(putObject, presign, cfg.bucketName, FileKey(id, fileExtension), content,
                                 cfg.presignedUrlExpiry)
    {
      var client := GetS3Client(None);
      r := client.UploadAndGetUrl(content, fileExtension, None, id, putObject, presign);
      assert |MockPath(FileKey(id, fileExtension))| > |MockDir|;
    }
  }
}
