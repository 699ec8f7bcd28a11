/** Value types of the ModelScope storage driver: the remote API's listing
    payload, the driver's configuration, the host's generic object, and the
    HTTP reply and error values the driver's operations work with. */
module Types {

  /** Go's `int64`, used for `File.Size` and `File.CommittedDate`. */
  newtype int64 = x: int | -0x8000_0000_0000_0000 <= x < 0x8000_0000_0000_0000

  /** A byte of an HTTP response body. */
  newtype byte = x: int | 0 <= x < 256

  type Bytes = seq<byte>

  datatype Option<+T> = None | Some(value: T)

  datatype Result<+T, +E> = Success(value: T) | Failure(error: E)

  /** Result of an operation that returns only a Go `error`. */
  datatype Outcome<+E> = Pass | Fail(error: E)

  /** A Go `time.Time` as far as the driver sets it: the zero value
      `time.Time{}`, or `time.Unix(seconds, 0)`. Equality here is Go's `==`
      on these values: `Unix(0)` is the epoch and differs from `ZeroTime`.
      `Unix(-62135596800)` is the same instant as `ZeroTime` (Go's `IsZero`
      holds of it) but carries the local location, so `==` tells the two
      apart, and so does this datatype. */
  datatype Time = ZeroTime | Unix(seconds: int64)

  /** One entry of the listing payload: a file (`Type == "file"`) or a
      directory (`Type == "tree"`) of the model repository. */
  datatype File = File(Name: string, Path: string, Type: string, Size: int64, CommittedDate: int64)

  /** The `Data` object of the listing payload. */
  datatype FileListData = FileListData(Files: seq<File>)

  /** The decoded body of the file-listing endpoint. */
  datatype FileListResponse = FileListResponse(Data: FileListData, Success: bool, Message: string, RequestId: string)

  /** The driver's configuration: which model and which revision of it. */
  datatype Addition = Addition(ModelID: string, Revision: string)

  /** The host's generic object (`model.Object`) with the fields this driver sets
      or reads; fields the driver never sets keep their Go zero values. */
  datatype Obj = Obj(ID: string, Path: string, Name: string, Size: int64, Modified: Time, Ctime: Time, IsFolder: bool)

  /** The host's download link (`model.Link`); only `URL` is set here. */
  datatype DownloadLink = DownloadLink(URL: string)

  /** An HTTP reply as the client library hands it back: the error of the call
      (if any), the status code (0 when no response was received), the header
      fields under their canonical names, and the raw body. */
  datatype Reply = Reply(err: Option<string>, status: int, header: map<string, seq<string>>, body: Bytes)

  /** The errors the driver returns. */
  datatype Error =
    | TransportError(detail: string)  // the client's own error, returned unchanged
    | StatusError(code: int)          // listing answered with a status other than 200
    | DecodeError(detail: string)     // the listing body is not the expected JSON
    | ApiError(message: string)       // the payload says `Success: false`
    | LocationMissing                 // a 302 reply without a `Location` value
    | NotImplement                    // the operation is not supported by this driver

  const StatusOK: int := 200
  const StatusFound: int := 302

  /** `http.Header.Get`: the first value of the field, or "" when there is none. */
  function HeaderGet(header: map<string, seq<string>>, key: string): (v: string)
    ensures key in header && |header[key]| > 0 ==> v == header[key][0]
    ensures key !in header || header[key] == [] ==> v == ""
  {
    if key in header && |header[key]| > 0 then header[key][0] else ""
  }
}
