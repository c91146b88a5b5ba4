/**
 * The content blocks of a text page and the global `addRemoteImageDimensions`
 * beforeChange hook: every image-bearing block with a non-empty `imageUrl`
 * gets the probed `imageDimensions`; everything else passes through.
 * `Promise.all` over the per-block promises is modelled as an ordered map:
 * the branches share nothing, so the joined result is the same.
 */
module TextPage {
  import opened Wrappers
  import Js
  import opened RemoteImage

  datatype Alignment = Left | Center | Right

  /**
   * The `ContentBlockType` union.  The `blockType` tag is the constructor.
   * Rich-text editor states are kept as opaque JSON values; the `label`
   * field is named `blockLabel`, `label` being a Dafny keyword.
   */
  datatype ContentBlock =
    | RichTextBlock(blockLabel: string, blockName: Option<string>, richText: Js.Value)
    | ImageBlock(blockLabel: string, blockName: Option<string>, imageUrl: string, altText: string,
                 width: Option<int>, height: Option<int>,
                 imageDimensions: Option<ImageDimensions>, alignment: Option<Alignment>)
    | TextWithImageBlock(blockLabel: string, blockName: Option<string>, imageUrl: string, altText: string,
                         alignment: Option<Alignment>, horizontalTextSpace: Option<int>,
                         imagePadding: Option<Alignment>, usePercentageBasedPadding: Option<bool>,
                         percentageImagePadding: Option<int>,
                         imageDimensions: Option<ImageDimensions>, richText: Js.Value)
    | TextWithVideo(blockLabel: string, blockName: Option<string>, videoUrl: string,
                    videoAlignment: Option<Alignment>, horizontalTextSpace: Option<int>,
                    videoPadding: Option<Alignment>, usePercentageBasedPadding: Option<bool>,
                    percentageVideoPadding: Option<int>, description: Js.Value)

  /** `blockType` is `'imageBlock'` or `'textWithImageBlock'`. */
  predicate BearsImage(b: ContentBlock) {
    b.ImageBlock? || b.TextWithImageBlock?
  }

  /** The guard of the hook: an image-bearing block whose `imageUrl` is truthy. */
  predicate Applicable(b: ContentBlock) {
    BearsImage(b) && b.imageUrl != ""
  }

  /** `a` is `b` with at most its `imageDimensions` replaced (`{...b, imageDimensions}`). */
  predicate SameApartFromDimensions(a: ContentBlock, b: ContentBlock) {
    BearsImage(a) && BearsImage(b) && a == b.(imageDimensions := a.imageDimensions)
  }

  /** The per-block arrow function of the hook. */
  function EnrichBlock(b: ContentBlock, probe: string -> ImageFetch): (r: ContentBlock)
    ensures !Applicable(b) ==> r == b
    ensures Applicable(b) ==> SameApartFromDimensions(r, b) && r.imageDimensions.Some?
    ensures Applicable(b) ==>
              (r.imageDimensions.value == NullDimensions <==> ProbeFailed(probe(b.imageUrl)))
    ensures Applicable(b) && !ProbeFailed(probe(b.imageUrl)) ==>
              r.imageDimensions.value.width == ExtentOf(probe(b.imageUrl).body.width) &&
              r.imageDimensions.value.height == ExtentOf(probe(b.imageUrl).body.height)
  {
    if Applicable(b) then b.(imageDimensions := Some(DimensionsOf(probe(b.imageUrl)))) else b
  }

  /** `data.content.map(...)` joined by `Promise.all`. */
  function EnrichContent(blocks: seq<ContentBlock>, probe: string -> ImageFetch): (r: seq<ContentBlock>)
    ensures |r| == |blocks|
    ensures forall i :: 0 <= i < |blocks| ==> r[i] == EnrichBlock(blocks[i], probe)
  {
    if blocks == [] then [] else [EnrichBlock(blocks[0], probe)] + EnrichContent(blocks[1..], probe)
  }

  /**
   * A document the hook receives: its `content` list (`None` when the key is
   * absent or null) and every other top-level field.
   */
  datatype Document = Document(content: Option<seq<ContentBlock>>, fields: map<string, Js.Value>)

  /** The global beforeChange hook `addRemoteImageDimensions`. */
  function AddRemoteImageDimensions(data: Document, probe: string -> ImageFetch): (r: Document)
    ensures data.content.None? ==> r == data
    ensures r.fields == data.fields
    ensures r.content.Some? <==> data.content.Some?
    ensures data.content.Some? ==>
              |r.content.value| == |data.content.value| &&
              forall i :: 0 <= i < |data.content.value| ==>
                r.content.value[i] == EnrichBlock(data.content.value[i], probe)
  {
    match data.content
    case None => data
    case Some(blocks) => data.(content := Some(EnrichContent(blocks, probe)))
  }

  /**
   * "Never attempted" stays distinct from "attempted and failed": for an
   * image-bearing block without dimensions, the output has none exactly
   * when its `imageUrl` is empty.
   */
  lemma AbsentUnlessAttempted(b: ContentBlock, probe: string -> ImageFetch)
    requires BearsImage(b) && b.imageDimensions.None?
    ensures EnrichBlock(b, probe).imageDimensions.None? <==> b.imageUrl == ""
  {
  }

  /**
   * Isolation: block `i` of the output depends only on block `i` and the
   * probe of its own URL, so a failure elsewhere cannot change it.
   */
  lemma {:induction false} EnrichIsolated(blocks: seq<ContentBlock>, p: string -> ImageFetch,
                                          q: string -> ImageFetch, i: nat)
    requires i < |blocks|
    requires Applicable(blocks[i]) ==> p(blocks[i].imageUrl) == q(blocks[i].imageUrl)
    ensures EnrichContent(blocks, p)[i] == EnrichContent(blocks, q)[i]
  {
  }

  lemma EnrichBlockIdempotent(b: ContentBlock, probe: string -> ImageFetch)
    ensures EnrichBlock(EnrichBlock(b, probe), probe) == EnrichBlock(b, probe)
  {
  }

  /** Running the hook again with the same remote images changes nothing. */
  lemma {:induction false} EnrichContentIdempotent(blocks: seq<ContentBlock>, probe: string -> ImageFetch)
    ensures EnrichContent(EnrichContent(blocks, probe), probe) == EnrichContent(blocks, probe)
  {
    var once := EnrichContent(blocks, probe);
    var twice := EnrichContent(once, probe);
    forall i | 0 <= i < |blocks|
      ensures twice[i] == once[i]
    {
      EnrichBlockIdempotent(blocks[i], probe);
    }
  }

  lemma HookIdempotent(data: Document, probe: string -> ImageFetch)
    ensures AddRemoteImageDimensions(AddRemoteImageDimensions(data, probe), probe)
            == AddRemoteImageDimensions(data, probe)
  {
    if data.content.Some? {
      EnrichContentIdempotent(data.content.value, probe);
    }
  }
}
