/** The error kinds an upload session throws. Only the kind and the values each
    error is built with matter; their messages and class hierarchy are not modelled. */
module Errors {
  import opened Prelude

  datatype UploadError =
    | DifferentChunk(chunkIndex: nat, originalChecksum: Option<Checksum>, newChecksum: Checksum)
    | FileAlreadyUploaded(id: string, url: string)
    | UrlNotFound(url: string)
    | UploadFailed(status: int)
    | UnknownResponse(status: int)
    | MissingOptions
    | UploadIncomplete
    | InvalidChunkSize(chunkSize: int)
    | UploadAlreadyFinished
      /** The transport rejected the request (the request's `onerror`). */
    | TransportFailed
      /** A status reply whose `range` header is missing or does not end in `<digits>-<digits>`:
          the header parse dereferences a missing value and throws a TypeError. */
    | MalformedRange
}
