/** The ModelScope driver's operations. The HTTP GET of the client library is
    the parameter `get` (URL to reply) and the JSON decoder is the parameter
    `unmarshal` (body to payload or error message); everything else is the
    driver's own decision logic. */
module Driver {
  import opened Types
  import opened Util

  const ApiEndpoint: string := "https://www.modelscope.cn"

  /** The root path the driver reports to the host: the model's identifier. */
  function GetRootPath(d: Addition): (root: string)
    ensures root == d.ModelID
  {
    d.ModelID
  }

  // ---------------------------------------------------------------- listing

  /** The `Root` query value `List` sends for the directory `dirPath`: the
      driver's own root path becomes "", any other path is sent as it is. */
  function ListRoot(d: Addition, dirPath: string): (root: string)
    ensures dirPath == GetRootPath(d) ==> root == ""
    ensures dirPath != GetRootPath(d) ==> root == dirPath
  {
    if dirPath == GetRootPath(d) then "" else dirPath
  }

  /** The listing URL, built by plain concatenation without any escaping. */
  function ListURL(d: Addition, root: string): (url: string)
    ensures |url| >= |ApiEndpoint| + 22 + |root|
    ensures url[..|ApiEndpoint|] == ApiEndpoint
    ensures url[|url| - |root| - 22..] == "&Recursive=false&Root=" + root
  {
    ApiEndpoint + "/api/v1/models/" + d.ModelID + "/repo/files?Revision=" + d.Revision
      + "&Recursive=false&Root=" + root
  }

  /** What `List` makes of the listing reply: a transport error, a status other
      than 200, an undecodable body and a `Success: false` payload are
      rejected in this order; otherwise the payload's entries are mapped. */
  function ListFromReply(reply: Reply, unmarshal: Bytes -> Result<FileListResponse, string>): (r: Result<seq<Obj>, Error>)
    ensures r.Success? <==>
      && reply.err.None? && reply.status == StatusOK
      && unmarshal(reply.body).Success? && unmarshal(reply.body).value.Success
    ensures r.Success? ==> r.value == ListedObjs(unmarshal(reply.body).value.Data.Files)
  {
    if reply.err.Some? then Failure(TransportError(reply.err.value))
    else if reply.status != StatusOK then Failure(StatusError(reply.status))
    else match unmarshal(reply.body)
      case Failure(e) => Failure(DecodeError(e))
      case Success(resp) =>
        if !resp.Success then Failure(ApiError(resp.Message))
        else Success(ListedObjs(resp.Data.Files))
  }

  /** `List`: fetch the listing of directory `dir` and map it. */
  function List(d: Addition, dir: Obj, get: string -> Reply, unmarshal: Bytes -> Result<FileListResponse, string>): (r: Result<seq<Obj>, Error>)
    ensures dir.Path == GetRootPath(d) ==> r == ListFromReply(get(ListURL(d, "")), unmarshal)
    ensures dir.Path != GetRootPath(d) ==> r == ListFromReply(get(ListURL(d, dir.Path)), unmarshal)
  {
    ListFromReply(get(ListURL(d, ListRoot(d, dir.Path))), unmarshal)
  }

  /** Listing the driver's root asks the remote for `Root=""`. */
  lemma ListRootClearsRoot(d: Addition, dir: Obj, get: string -> Reply, unmarshal: Bytes -> Result<FileListResponse, string>)
    requires dir.Path == GetRootPath(d)
    ensures List(d, dir, get, unmarshal) == ListFromReply(get(ListURL(d, "")), unmarshal)
  {
  }

  /** Listing any other directory sends its path verbatim as `Root`. */
  lemma ListPathVerbatim(d: Addition, dir: Obj, get: string -> Reply, unmarshal: Bytes -> Result<FileListResponse, string>)
    requires dir.Path != GetRootPath(d)
    ensures List(d, dir, get, unmarshal) == ListFromReply(get(ListURL(d, dir.Path)), unmarshal)
  {
  }

  /** The `Root` value is the URL's unescaped tail, after the fixed
      `Recursive=false` flag. */
  lemma ListURLEndsWithRoot(d: Addition, root: string)
    ensures ListURL(d, root) == ListURL(d, "") + root
    ensures |ListURL(d, "")| >= 22
    ensures ListURL(d, "")[|ListURL(d, "")| - 22..] == "&Recursive=false&Root="
  {
  }

  /** Different `Root` values give different listing URLs. */
  lemma ListURLInjective(d: Addition, root1: string, root2: string)
    requires ListURL(d, root1) == ListURL(d, root2)
    ensures root1 == root2
  {
    ListURLEndsWithRoot(d, root1);
    ListURLEndsWithRoot(d, root2);
    var p := ListURL(d, "");
    assert root1 == (p + root1)[|p|..];
    assert root2 == (p + root2)[|p|..];
  }

  /** A transport error is returned unchanged, before the status is looked at. */
  lemma ListTransportError(reply: Reply, unmarshal: Bytes -> Result<FileListResponse, string>)
    requires reply.err.Some?
    ensures ListFromReply(reply, unmarshal) == Failure(TransportError(reply.err.value))
  {
  }

  /** A status other than 200 is an error carrying the status, whatever the
      decoder would make of the body: the body is not decoded. */
  lemma ListStatusBeforeDecode(reply: Reply, unmarshal1: Bytes -> Result<FileListResponse, string>, unmarshal2: Bytes -> Result<FileListResponse, string>)
    requires reply.err.None? && reply.status != StatusOK
    ensures ListFromReply(reply, unmarshal1) == Failure(StatusError(reply.status))
    ensures ListFromReply(reply, unmarshal1) == ListFromReply(reply, unmarshal2)
  {
  }

  /** A body that does not decode is an error carrying the decoder's message. */
  lemma ListDecodeFailure(reply: Reply, unmarshal: Bytes -> Result<FileListResponse, string>)
    requires reply.err.None? && reply.status == StatusOK && unmarshal(reply.body).Failure?
    ensures ListFromReply(reply, unmarshal) == Failure(DecodeError(unmarshal(reply.body).error))
  {
  }

  /** A payload with `Success: false` is an error carrying its `Message`, and
      none of its entries are returned. */
  lemma ListApiFailure(reply: Reply, unmarshal: Bytes -> Result<FileListResponse, string>)
    requires reply.err.None? && reply.status == StatusOK
    requires unmarshal(reply.body).Success? && !unmarshal(reply.body).value.Success
    ensures ListFromReply(reply, unmarshal) == Failure(ApiError(unmarshal(reply.body).value.Message))
  {
  }

  /** A successful listing has one object per entry, in the entries' order,
      a folder exactly for the `"tree"` entries. */
  lemma ListSuccess(reply: Reply, unmarshal: Bytes -> Result<FileListResponse, string>)
    requires ListFromReply(reply, unmarshal).Success?
    ensures var files := unmarshal(reply.body).value.Data.Files;
      var objs := ListFromReply(reply, unmarshal).value;
      && |objs| == |files|
      && forall i :: 0 <= i < |files| ==>
        && objs[i].Name == files[i].Name && objs[i].Path == files[i].Path
        && objs[i].Size == files[i].Size && objs[i].Modified == Unix(files[i].CommittedDate)
        && (objs[i].IsFolder <==> files[i].Type == "tree")
  {
  }

  /** The two-entry listing of the model "org/model": a file with a committed
      date and a directory without one, which gets the epoch as its time. */
  lemma ListExample(get: string -> Reply, unmarshal: Bytes -> Result<FileListResponse, string>)
    requires get(ListURL(Addition("org/model", "master"), "")).err.None?
    requires get(ListURL(Addition("org/model", "master"), "")).status == 200
    requires unmarshal(get(ListURL(Addition("org/model", "master"), "")).body)
      == Success(FileListResponse(FileListData([File("README.md", "README.md", "file", 120, 1700000000),
                                                File("weights", "weights", "tree", 0, 0)]), true, "", "r1"))
    ensures List(Addition("org/model", "master"), Obj("org/model", "org/model", "org/model", 0, ZeroTime, ZeroTime, true), get, unmarshal)
      == Success([Obj("", "README.md", "README.md", 120, Unix(1700000000), ZeroTime, false),
                  Obj("", "weights", "weights", 0, Unix(0), ZeroTime, true)])
  {
    var files := [File("README.md", "README.md", "file", 120, 1700000000), File("weights", "weights", "tree", 0, 0)];
    var objs := ListedObjs(files);
    assert objs[0] == Obj("", "README.md", "README.md", 120, Unix(1700000000), ZeroTime, false);
    assert objs[1] == Obj("", "weights", "weights", 0, Unix(0), ZeroTime, true);
    assert objs == [objs[0], objs[1]];
    ListRootClearsRoot(Addition("org/model", "master"), Obj("org/model", "org/model", "org/model", 0, ZeroTime, ZeroTime, true), get, unmarshal);
  }

  // ------------------------------------------------------------ link lookup

  /** The URL of the file-content request, built by plain concatenation. */
  function LinkURL(d: Addition, filePath: string): (url: string)
    ensures |url| >= |ApiEndpoint| + 10 + |filePath|
    ensures url[..|ApiEndpoint|] == ApiEndpoint
    ensures url[|url| - |filePath| - 10..] == "&FilePath=" + filePath
  {
    ApiEndpoint + "/api/v1/models/" + d.ModelID + "/repo?Revision=" + d.Revision + "&FilePath=" + filePath
  }

  /** What `Link` makes of the reply to a request for `apiURL`. A transport
      error is fatal only when the status is neither 302 nor 200; a 302 yields
      its `Location` value, which must not be empty; any other status yields
      the request URL itself. A reply that succeeds always yields a link. */
  function LinkFromReply(apiURL: string, reply: Reply): (r: Result<DownloadLink, Error>)
    ensures r.Success? <==>
      && (reply.err.None? || reply.status == StatusFound || reply.status == StatusOK)
      && (reply.status == StatusFound ==> HeaderGet(reply.header, "Location") != "")
    ensures r.Success? && reply.status == StatusFound ==> r.value.URL == HeaderGet(reply.header, "Location")
    ensures r.Success? && reply.status != StatusFound ==> r.value.URL == apiURL
  {
    if reply.err.Some? && reply.status != StatusFound && reply.status != StatusOK then
      Failure(TransportError(reply.err.value))
    else if reply.status == StatusFound then
      var location := HeaderGet(reply.header, "Location");
      if location == "" then Failure(LocationMissing) else Success(DownloadLink(location))
    else
      Success(DownloadLink(apiURL))
  }

  /** `Link`: request the file's content without following redirects and
      turn the reply into a download link. */
  function Link(d: Addition, file: Obj, get: string -> Reply): (r: Result<DownloadLink, Error>)
    ensures var reply := get(LinkURL(d, file.Path));
      && (reply.err.Some? && reply.status != StatusFound && reply.status != StatusOK ==>
            r == Failure(TransportError(reply.err.value)))
      && (reply.status == StatusFound && HeaderGet(reply.header, "Location") == "" ==>
            r == Failure(LocationMissing))
      && (reply.status == StatusFound && HeaderGet(reply.header, "Location") != "" ==>
            r == Success(DownloadLink(HeaderGet(reply.header, "Location"))))
      && (reply.status != StatusFound && (reply.err.None? || reply.status == StatusOK) ==>
            r == Success(DownloadLink(LinkURL(d, file.Path))))
  {
    var apiURL := LinkURL(d, file.Path);
    LinkFromReply(apiURL, get(apiURL))
  }

  /** A 302 reply yields its `Location` value, whether or not the client also
      reported an error; without a `Location` value it is an error. */
  lemma LinkRedirect(d: Addition, file: Obj, get: string -> Reply)
    requires get(LinkURL(d, file.Path)).status == StatusFound
    ensures var location := HeaderGet(get(LinkURL(d, file.Path)).header, "Location");
      && (location != "" ==> Link(d, file, get) == Success(DownloadLink(location)))
      && (location == "" ==> Link(d, file, get) == Failure(LocationMissing))
  {
  }

  /** Every other status that passes the error guard, including an error-free
      reply with a status other than 200, yields the request URL. */
  lemma LinkDirect(d: Addition, file: Obj, get: string -> Reply)
    requires get(LinkURL(d, file.Path)).status != StatusFound
    requires get(LinkURL(d, file.Path)).err.None? || get(LinkURL(d, file.Path)).status == StatusOK
    ensures Link(d, file, get) == Success(DownloadLink(LinkURL(d, file.Path)))
  {
  }

  /** A client error with a status other than 302 and 200 is returned unchanged. */
  lemma LinkTransportError(d: Addition, file: Obj, get: string -> Reply)
    requires get(LinkURL(d, file.Path)).err.Some?
    requires get(LinkURL(d, file.Path)).status != StatusFound && get(LinkURL(d, file.Path)).status != StatusOK
    ensures Link(d, file, get) == Failure(TransportError(get(LinkURL(d, file.Path)).err.value))
  {
  }

  /** A link that `Link` returns is never empty. */
  lemma LinkNeverEmpty(d: Addition, file: Obj, get: string -> Reply)
    requires Link(d, file, get).Success?
    ensures Link(d, file, get).value.URL != ""
  {
  }

  /** An error-free 404 reply still yields the request URL as the link: the
      code does not reject unexpected statuses. */
  lemma LinkNotFoundStillLinks(d: Addition, file: Obj, get: string -> Reply)
    requires get(LinkURL(d, file.Path)) == Reply(None, 404, map[], [])
    ensures Link(d, file, get).Success?
    ensures Link(d, file, get).value.URL == LinkURL(d, file.Path)
  {
  }

  /** Different file paths give different content-request URLs. */
  lemma LinkURLInjective(d: Addition, path1: string, path2: string)
    requires LinkURL(d, path1) == LinkURL(d, path2)
    ensures path1 == path2
  {
    var p := LinkURL(d, "");
    assert LinkURL(d, path1) == p + path1;
    assert LinkURL(d, path2) == p + path2;
    assert path1 == (p + path1)[|p|..];
    assert path2 == (p + path2)[|p|..];
  }

  // ------------------------------------------------ unsupported operations

  function MakeDir(d: Addition, parentDir: Obj, dirName: string): (r: Result<Obj, Error>)
    ensures r == Failure(NotImplement)
  {
    Failure(NotImplement)
  }

  function Move(d: Addition, srcObj: Obj, dstDir: Obj): (r: Result<Obj, Error>)
    ensures r == Failure(NotImplement)
  {
    Failure(NotImplement)
  }

  function Rename(d: Addition, srcObj: Obj, newName: string): (r: Result<Obj, Error>)
    ensures r == Failure(NotImplement)
  {
    Failure(NotImplement)
  }

  function Copy(d: Addition, srcObj: Obj, dstDir: Obj): (r: Result<Obj, Error>)
    ensures r == Failure(NotImplement)
  {
    Failure(NotImplement)
  }

  function Remove(d: Addition, obj: Obj): (r: Outcome<Error>)
    ensures r == Fail(NotImplement)
  {
    Fail(NotImplement)
  }

  /** `Put`; the host's stream and progress callback are type parameters. */
  function Put<Stream, Progress>(d: Addition, dstDir: Obj, file: Stream, up: Progress): (r: Result<Obj, Error>)
    ensures r == Failure(NotImplement)
  {
    Failure(NotImplement)
  }

  /** `GetArchiveMeta`; the host's argument and metadata types are type parameters. */
  function GetArchiveMeta<Args, Meta>(d: Addition, obj: Obj, args: Args): (r: Result<Meta, Error>)
    ensures r == Failure(NotImplement)
  {
    Failure(NotImplement)
  }

  function ListArchive<Args>(d: Addition, obj: Obj, args: Args): (r: Result<seq<Obj>, Error>)
    ensures r == Failure(NotImplement)
  {
    Failure(NotImplement)
  }

  function Extract<Args>(d: Addition, obj: Obj, args: Args): (r: Result<DownloadLink, Error>)
    ensures r == Failure(NotImplement)
  {
    Failure(NotImplement)
  }

  function ArchiveDecompress<Args>(d: Addition, srcObj: Obj, dstDir: Obj, args: Args): (r: Result<seq<Obj>, Error>)
    ensures r == Failure(NotImplement)
  {
    Failure(NotImplement)
  }
}
