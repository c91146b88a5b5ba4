/**
 * The `socialmedia` collection's beforeChange hook, which always probes the
 * document's `iconUrl` (there is no empty-URL guard) and records the
 * outcome in `imageDimensions`.
 */
module SocialMedia {
  import opened Wrappers
  import opened RemoteImage

  /** A social-media document: the collection's fields. */
  datatype SocialMediaDoc = SocialMediaDoc(
    name: string, url: string, iconUrl: string, redimensionIcon: Option<bool>,
    redimensionWidth: Option<int>, redimensionHeight: Option<int>, priority: Option<int>,
    imageDimensions: Option<ImageDimensions>)

  function AddRemoteImageDimensions(data: SocialMediaDoc, probe: string -> ImageFetch): (r: SocialMediaDoc)
    ensures r.imageDimensions.Some?
    ensures r == data.(imageDimensions := r.imageDimensions)
    ensures r.imageDimensions.value == NullDimensions <==> ProbeFailed(probe(data.iconUrl))
    ensures !ProbeFailed(probe(data.iconUrl)) ==>
              r.imageDimensions.value.width == ExtentOf(probe(data.iconUrl).body.width) &&
              r.imageDimensions.value.height == ExtentOf(probe(data.iconUrl).body.height)
  {
    data.(imageDimensions := Some(DimensionsOf(probe(data.iconUrl))))
  }

  /**
   * Unlike the content-block hook, an empty `iconUrl` is still fetched:
   * the result depends on the probe of `""`, and a second run with the
   * same remote content gives the same document.
   */
  lemma EmptyIconUrlIsProbed(data: SocialMediaDoc, probe: string -> ImageFetch)
    requires data.iconUrl == ""
    ensures AddRemoteImageDimensions(data, probe).imageDimensions == Some(DimensionsOf(probe("")))
  {
  }

  lemma HookIdempotent(data: SocialMediaDoc, probe: string -> ImageFetch)
    ensures AddRemoteImageDimensions(AddRemoteImageDimensions(data, probe), probe)
            == AddRemoteImageDimensions(data, probe)
  {
  }
}
