/**
 * The image probe shared by every `addRemoteImageDimensions` hook:
 * `fetch(url)`, a check of `response.ok`, `Buffer.from(await response.arrayBuffer())`
 * and `sharp(buffer).metadata()`, wrapped in a try/catch whose catch branch
 * writes `{ width: null, height: null }`.  Network access and decoding are
 * replaced by the outcome they produce.
 */
module RemoteImage {
  import opened Wrappers
  import Js

  /** What reading the body and asking sharp for its metadata gives. */
  datatype ImageBody =
    | Undecodable                                          // arrayBuffer() or sharp rejected
    | Metadata(width: Option<nat>, height: Option<nat>)    // sharp's metadata.width / .height

  /** The outcome of `fetch(url)` for one image URL. */
  datatype ImageFetch =
    | FetchRejected                                        // network error, malformed URL
    | Responded(status: nat, body: ImageBody)

  /** One coordinate of `imageDimensions`: a pixel count, `null`, or `undefined` (sharp gave none). */
  datatype Extent = Px(n: nat) | Null | Undefined

  datatype ImageDimensions = ImageDimensions(width: Extent, height: Extent)

  /** `{ width: null, height: null }`: attempted and failed. */
  const NullDimensions := ImageDimensions(Null, Null)

  /** The try block throws: fetch rejects, the status is not ok, or decoding rejects. */
  predicate ProbeFailed(f: ImageFetch) {
    f.FetchRejected? || !Js.OkStatus(f.status) || f.body.Undecodable?
  }

  function ExtentOf(m: Option<nat>): Extent {
    match m
    case Some(n) => Px(n)
    case None => Undefined
  }

  /** The `imageDimensions` value the hooks write for one probe. */
  function DimensionsOf(f: ImageFetch): (d: ImageDimensions)
    ensures d == NullDimensions <==> ProbeFailed(f)
    ensures !ProbeFailed(f) ==> d.width == ExtentOf(f.body.width) && d.height == ExtentOf(f.body.height)
  {
    match f
    case FetchRejected => NullDimensions
    case Responded(status, body) =>
      if !Js.OkStatus(status) then NullDimensions
      else
        match body
        case Undecodable => NullDimensions
        case Metadata(w, h) => ImageDimensions(ExtentOf(w), ExtentOf(h))
  }
}
