# ModelScope storage driver — Dafny model

This project models the ModelScope driver of OpenList. The driver is a
read-only storage backend that shows one model repository on modelscope.cn
(a model identifier plus a revision) as a directory tree to the host. It has
two real operations:

- `List` fetches the repository's file listing for one directory and maps the
  entries to the host's generic objects.
- `Link` asks the content endpoint for one file, without following redirects,
  and turns the reply into a download URL.

Every other capability returns `NotImplement`.

The model has three modules:

- `Types` (`types.dfy`) holds the declarations of `types.go` and `meta.go`:
  `File`, `FileListResponse` and `Addition`. It also holds the host's `Obj`
  and `DownloadLink`, an HTTP `Reply` and the driver's `Error` values. Go's
  `time.Time` is `Time`, which is either `ZeroTime` (the value
  `time.Time{}`) or `Unix(seconds)` (the value `time.Unix(seconds, 0)`).
  `ZeroTime` and `Unix(0)` are different values, as in Go.
- `Util` (`util.dfy`) holds `fileToObj`, `filesToObjs` and `getRelativePath`.
  `filesToObjs` is a method with a loop that appends one object per entry. It
  is proved equal to the function `ListedObjs`, which is defined the same
  way, by appending at the end.
- `Driver` (`driver.dfy`) holds `GetRootPath`, `List`, `Link` and the ten
  unsupported operations.

Foreign calls become parameters of the functions that make them:

- The HTTP GET of the client library is `get: string -> Reply`.
- `json.Unmarshal` is `unmarshal: Bytes -> Result<FileListResponse, string>`.
- `path.Clean` is `clean: string -> string`.

So the lemmas hold for every server, every decoder and every cleaning function.

Three behaviours of the code are easy to misread:

- `Link` rejects a status only when the client also reported an error. An
  error-free reply with any status other than 302 (404, say) yields the
  request URL as the link (`Driver.LinkNotFoundStillLinks`).
- An entry whose committed date is 0 gets the epoch (`Unix(0)`) as its
  modification time, not an "unknown" time (`Util.ListedModified`).
- A 302 reply whose `Location` is absent and one whose `Location` is empty are
  the same case, because `http.Header.Get` returns "" for both
  (`Types.HeaderGet`).

## Model

| member | source | states |
|---|---|---|
| `Util.FileToObj` | drivers/modelscope/util.go:12-22 | the object's ID and Path are the entry's path; Name and Size are copied; the modification time is Go's zero time whatever the committed date; it is a folder iff `Type == "tree"` |
| `Util.ListedObj` | drivers/modelscope/util.go:27-33 | the loop's object for one entry: no ID, Name/Path/Size copied, modification time = committed date in epoch seconds, folder iff `Type == "tree"` |
| `Util.ListedObjs` | drivers/modelscope/util.go:24-37 | the listing has exactly one object per entry, and the i-th object is built from the i-th entry |
| `Util.FilesToObjs` | drivers/modelscope/util.go:24-37 | the append loop returns `ListedObjs(files)`: same length, same order, Name/Path/Size copied, ID empty, modification time = committed date in epoch seconds, folder iff `"tree"` |
| `Util.ListedObjsAppend` | drivers/modelscope/util.go:26-35 | mapping a concatenation of entry lists gives the concatenation of the mapped lists, so every appended entry contributes exactly its own object |
| `Util.ListedFolders` | drivers/modelscope/util.go:32 | in a listing, object i is a folder iff entry i has `Type == "tree"` |
| `Util.ListedModified` | drivers/modelscope/util.go:31 | a listed object's modification time is never `==` to `time.Time{}`; a committed date of 0 gives the epoch |
| `Util.FileToObjVersusListedObj` | drivers/modelscope/util.go:12-33 | `fileToObj` and the loop of `filesToObjs` agree on every field except ID (path vs empty) and modification time (zero time vs committed date), and so never give the same object |
| `Util.ListedPathsDistinct` | drivers/modelscope/util.go:28-29 | entries with pairwise distinct paths give objects with pairwise distinct paths |
| `Util.GetRelativePath` | drivers/modelscope/util.go:40-45 | "" for no object and for the path "/"; otherwise the cleaned path |
| `Driver.GetRootPath` | drivers/modelscope/driver.go:158-160 | the driver's root path is the model ID |
| `Types.HeaderGet` | drivers/modelscope/driver.go:96 | the `Location` lookup gives the field's first value, and "" when the field is absent or has no value |
| `Driver.ListRoot` | drivers/modelscope/driver.go:44-47 | the `Root` value is "" when the directory is the driver's root path, and the directory's path unchanged otherwise |
| `Driver.ListURL` | drivers/modelscope/driver.go:49-50 | the listing URL starts with the API endpoint and ends with `&Recursive=false&Root=` followed by the root, unescaped |
| `Driver.List` | drivers/modelscope/driver.go:43-76 | for the root directory the reply to `ListURL(d, "")` is processed; for any other directory the reply to `ListURL(d, path)` with the path unchanged |
| `Driver.ListRootClearsRoot` | drivers/modelscope/driver.go:44-52 | listing the root directory sends the request with `Root=""`, whatever the model ID |
| `Driver.ListPathVerbatim` | drivers/modelscope/driver.go:44-52 | listing any other directory sends its path verbatim as `Root` |
| `Driver.ListURLEndsWithRoot` | drivers/modelscope/driver.go:49-50 | the listing URL is the fixed prefix for the model and revision, ending in `&Recursive=false&Root=`, followed by the unescaped root |
| `Driver.ListURLInjective` | drivers/modelscope/driver.go:49-50 | for one configuration, different roots give different listing URLs |
| `Driver.ListFromReply` | drivers/modelscope/driver.go:52-75 | a listing succeeds iff there is no client error, the status is 200, the body decodes and the payload says `Success`; then the result is exactly the mapped entries |
| `Driver.ListTransportError` | drivers/modelscope/driver.go:53-56 | a client error is returned unchanged, whatever the status |
| `Driver.ListStatusBeforeDecode` | drivers/modelscope/driver.go:58-64 | when the client reported no error, a status other than 200 gives a status error carrying the code, and the outcome does not depend on the decoder (the body is not decoded) |
| `Driver.ListDecodeFailure` | drivers/modelscope/driver.go:63-68 | a body that does not decode gives the decoder's error and no objects |
| `Driver.ListApiFailure` | drivers/modelscope/driver.go:70-73 | a payload with `Success: false` gives an error carrying its `Message` and never a partial list |
| `Driver.ListSuccess` | drivers/modelscope/driver.go:75 | a successful listing has one object per entry in order, with fields copied and folder iff `"tree"` |
| `Driver.ListExample` | drivers/modelscope/driver.go:43-76 | listing the root of "org/model" with a file entry and a tree entry gives a file of size 120 dated 1700000000 and a folder dated at the epoch |
| `Driver.LinkURL` | drivers/modelscope/driver.go:79-80 | the content URL starts with the API endpoint and ends with `&FilePath=` followed by the file's path, unescaped |
| `Driver.Link` | drivers/modelscope/driver.go:78-110 | for the reply to `LinkURL(d, path)`: a client error with a status other than 302 and 200 is returned; a 302 gives its `Location`, or an error when it is empty; every other status gives `LinkURL(d, path)` |
| `Driver.LinkFromReply` | drivers/modelscope/driver.go:88-109 | a link is produced iff (there is no client error or the status is 302 or 200) and (a 302 carries a non-empty `Location`); it is the `Location` on 302 and the request URL otherwise |
| `Driver.LinkRedirect` | drivers/modelscope/driver.go:94-100 | a 302 reply yields its `Location` value even when the client reported an error; an empty `Location` is an error |
| `Driver.LinkDirect` | drivers/modelscope/driver.go:88-104 | any status other than 302 that passes the error guard yields the request URL `.../repo?Revision=...&FilePath=<path>` as the link |
| `Driver.LinkTransportError` | drivers/modelscope/driver.go:88-91 | a client error with a status other than 302 and 200 is returned unchanged |
| `Driver.LinkNeverEmpty` | drivers/modelscope/driver.go:93-108 | a returned link URL is never empty |
| `Driver.LinkNotFoundStillLinks` | drivers/modelscope/driver.go:88-104 | an error-free 404 reply still yields the request URL as the link |
| `Driver.LinkURLInjective` | drivers/modelscope/driver.go:79-80 | for one configuration, different file paths give different content-request URLs |
| `Driver.MakeDir` | drivers/modelscope/driver.go:112-114 | always `NotImplement` and no object |
| `Driver.Move` | drivers/modelscope/driver.go:116-118 | always `NotImplement` and no object |
| `Driver.Rename` | drivers/modelscope/driver.go:120-122 | always `NotImplement` and no object |
| `Driver.Copy` | drivers/modelscope/driver.go:124-126 | always `NotImplement` and no object |
| `Driver.Remove` | drivers/modelscope/driver.go:128-130 | always `NotImplement` |
| `Driver.Put` | drivers/modelscope/driver.go:132-134 | always `NotImplement` and no object, whatever the stream |
| `Driver.GetArchiveMeta` | drivers/modelscope/driver.go:136-139 | always `NotImplement` and no metadata |
| `Driver.ListArchive` | drivers/modelscope/driver.go:141-144 | always `NotImplement` and no objects |
| `Driver.Extract` | drivers/modelscope/driver.go:146-149 | always `NotImplement` and no link |
| `Driver.ArchiveDecompress` | drivers/modelscope/driver.go:151-156 | always `NotImplement` and no objects |

## Left out

- The HTTP client: the client that `Init` creates, the per-call client with redirects turned off, and the `context` passed to each request. A request is the parameter `get`. Its `Reply` carries the client's error, the status (0 when no response arrived), the headers under their canonical names, and the body.
- JSON decoding is the parameter `unmarshal`. The model does not parse JSON.
- `path.Clean` is the parameter `clean`. `time.Unix` and `time.Time` are reduced to `Unix(seconds)` and `ZeroTime`.
- Logging: it has no effect on results.
- The exact text of the error messages. Errors are kept as constructors that carry their data: the status code, the API `Message`, the client's or decoder's error text.
- Driver registration and the static driver config in `meta.go`, and `Init`, `Drop`, `Config` and `GetAddition`. These are host plumbing with no decision logic.
- The `ListArgs` and `LinkArgs` parameters and the embedded `driver.RootPath` field of `Addition`. The driver never reads them.
- The host's object fields that the driver never sets, such as the hash info, except `Ctime`, which is modelled as `ZeroTime`.
- The `Revision` default "master" in `meta.go`: the host applies it to the configuration.
- Driver.LinkFromReply: a `Reply` always exists, so the model does not capture the panic of the source when the client returns no response at all. resty returns a nil response when it cannot build the request (for instance a file path or model ID that `url.Parse` rejects), and `Link` then calls `StatusCode()` on it at driver.go:88. The model returns `TransportError` there instead. `List` returns the error before touching the response, so it has no such path.
- `Time` compares values as Go's `==` does. `Unix(-62135596800)` is the zero instant (`IsZero()` holds of it) but differs from `ZeroTime` in its location; the model keeps them apart and does not model `IsZero` or `Equal`.
