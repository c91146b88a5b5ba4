/**
 * The `pages` collection: its own copy of `addRemoteImageDimensions` (the
 * same transform as the global hook of TextPage.ts) and the order of its
 * beforeChange chain, `[populatePublishedAt, addRemoteImageDimensions]`.
 */
module Pages {
  import opened Wrappers
  import opened RemoteImage
  import opened TextPage

  /** The collection hook; its body is the global hook's, line for line. */
  function AddRemoteImageDimensions(data: Document, probe: string -> ImageFetch): (r: Document)
    ensures data.content.None? ==> r == data
    ensures r.fields == data.fields
    ensures data.content.Some? ==> r.content.Some? && |r.content.value| == |data.content.value|
    ensures data.content.Some? ==>
              forall i :: 0 <= i < |data.content.value| ==>
                var b, e := data.content.value[i], r.content.value[i];
                (!Applicable(b) ==> e == b) &&
                (Applicable(b) ==> SameApartFromDimensions(e, b) &&
                                   e.imageDimensions == Some(DimensionsOf(probe(b.imageUrl))))
  {
    TextPage.AddRemoteImageDimensions(data, probe)
  }

  /**
   * The beforeChange chain.  `populatePublishedAt` is not part of this model
   * and is a parameter; the enrichment runs on its output.
   */
  function BeforeChange(data: Document, populatePublishedAt: Document -> Document,
                        probe: string -> ImageFetch): (r: Document)
    ensures r.fields == populatePublishedAt(data).fields
    ensures populatePublishedAt(data).content.None? ==> r == populatePublishedAt(data)
    ensures r.content.Some? <==> populatePublishedAt(data).content.Some?
    ensures populatePublishedAt(data).content.Some? ==>
              |r.content.value| == |populatePublishedAt(data).content.value| &&
              forall i :: 0 <= i < |r.content.value| ==>
                r.content.value[i] == EnrichBlock(populatePublishedAt(data).content.value[i], probe)
  {
    AddRemoteImageDimensions(populatePublishedAt(data), probe)
  }

  /**
   * Because enrichment runs second, whatever `populatePublishedAt` writes
   * (`publishedAt` among the other fields) reaches the database, and the
   * blocks it leaves are the ones enriched.
   */
  lemma EnrichmentSeesPublishedAt(data: Document, populatePublishedAt: Document -> Document,
                                  probe: string -> ImageFetch, key: string)
    requires key in populatePublishedAt(data).fields
    ensures key in BeforeChange(data, populatePublishedAt, probe).fields
    ensures BeforeChange(data, populatePublishedAt, probe).fields[key]
            == populatePublishedAt(data).fields[key]
  {
  }
}
