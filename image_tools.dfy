/**
 * The image search tool and the image generation tool: how a provider's
 * reply and the object store's outcomes become either no result (`None`)
 * or a success record. The providers, the upload of a URL into the store
 * and the signing of a stored path are parameters of each operation.
 */
module ImageTools {
  import opened Wrappers
  import opened Text
  import Storage

  /** Namespace under which found reference images are stored. */
  const SearchPrefix: string := "search-results"
  /** Namespace under which generated images are stored. */
  const GeneratedPrefix: string := "generated-images"
  /** The search asks the provider for this many images. */
  const SearchResultCount: int := 1
  /** The model named in every generation request. */
  const GenerationModel: string := "stable-diffusion"
  const PlaceholderPath: string := "generated-images/placeholder.jpg"
  const PlaceholderUrl: string := "https://placeholder.com/generated-image.jpg"
  const PlaceholderMessage: string := "Image generation placeholder - replace with actual API call"

  /** The success records the two tools return (each with `success` = true). */
  datatype ImageRecord =
    | SearchHit(originalUrl: string, minioPath: string, presignedUrl: Option<string>,
                title: string, source: string)
    | Generated(minioPath: string, presignedUrl: Option<string>, prompt: string,
                message: Option<string>)

  /** The JSON body posted to the search provider: `{"q": query, "num": n}`. */
  datatype SearchPayload = SearchPayload(q: string, num: int)

  /** One entry of the provider's `images` list; `None` is a missing key. */
  datatype ProviderImage = ProviderImage(imageUrl: Option<string>, title: Option<string>, source: Option<string>)

  /** What the search provider call ends in: an exception (HTTP error status,
      timeout, unreachable host) or a decoded body whose `images` list may be
      missing (given here as empty). */
  datatype SearchReply = SearchError | SearchData(images: seq<ProviderImage>)

  /** What the generation provider call ends in: an exception, or a decoded
      body with its optional `image_url` and `url` fields. */
  datatype GenerationReply = GenerationError | GenerationData(imageUrl: Option<string>, url: Option<string>)

  /** An upload oracle that behaves like the storage adapter: every path it
      returns lies under the prefix it was given. */
  ghost predicate StoresUnderPrefix(upload: (string, string) -> Option<string>) {
    forall url, prefix :: upload(url, prefix).Some? ==> StartsWith(upload(url, prefix).value, prefix + "/")
  }

  /** `ImageSearchTool.search_image`: ask the provider for one image; when the
      first image has a non-empty URL and storing it succeeds, return a
      success record with the stored path and its signed URL. */
  function SearchImage(query: string, provider: SearchPayload -> SearchReply,
                       upload: (string, string) -> Option<string>,
                       sign: string -> Option<string>): (r: Option<ImageRecord>)
    ensures var reply := provider(SearchPayload(query, SearchResultCount));
      r.Some? <==>
        && reply.SearchData? && |reply.images| > 0
        && Present(reply.images[0].imageUrl)
        && Present(upload(reply.images[0].imageUrl.value, SearchPrefix))
    ensures r.Some? ==>
      var first := provider(SearchPayload(query, SearchResultCount)).images[0];
      && r.value.SearchHit?
      && r.value.originalUrl == first.imageUrl.value
      && r.value.minioPath == upload(first.imageUrl.value, SearchPrefix).value
      && r.value.presignedUrl == sign(r.value.minioPath)
      && r.value.title == first.title.GetOr("")
      && r.value.source == first.source.GetOr("")
  {
    match provider(SearchPayload(query, SearchResultCount))
    case SearchError => None
    case SearchData(images) =>
      if |images| == 0 then None
      else
        var first := images[0];
        if !Present(first.imageUrl) then None
        else
          var path := upload(first.imageUrl.value, SearchPrefix);
          if !Present(path) then None
          else
            Some(SearchHit(first.imageUrl.value, path.value, sign(path.value),
                           first.title.GetOr(""), first.source.GetOr("")))
  }

  /** The storage adapter's `upload_image_from_url`, seen as the upload the
      tools call: every path it returns lies under the prefix it was given.
      The server's answers to each URL are fixed by `fetch`, the fresh ids
      and put outcomes by `freshId` and `putOk`. */
  lemma AdapterStoresUnderPrefix(bucket: string, s: Storage.ClientState, init: Storage.InitOutcome,
                                 fetch: string -> Storage.FetchOutcome,
                                 freshId: (string, string) -> string, putOk: (string, string) -> bool)
    ensures StoresUnderPrefix((url: string, prefix: string) =>
      Storage.UploadFromUrlStep(bucket, s, url, prefix, init, fetch(url), freshId(url, prefix), putOk(url, prefix)).1)
  {
    forall url: string, prefix: string {
      Storage.UploadFromUrlAddsOne(bucket, s, url, prefix, init, fetch(url), freshId(url, prefix), putOk(url, prefix));
    }
  }

  /** A found image is always kept under the search namespace. */
  lemma SearchHitStoredUnderPrefix(query: string, provider: SearchPayload -> SearchReply,
                                   upload: (string, string) -> Option<string>,
                                   sign: string -> Option<string>)
    requires StoresUnderPrefix(upload)
    ensures var r := SearchImage(query, provider, upload, sign);
      r.Some? ==> StartsWith(r.value.minioPath, SearchPrefix + "/") && r.value.originalUrl != ""
  {
    var r := SearchImage(query, provider, upload, sign);
    if r.Some? {
      var url := provider(SearchPayload(query, SearchResultCount)).images[0].imageUrl.value;
      assert upload(url, SearchPrefix).Some?;
    }
  }

  /** The request body posted to the generation provider:
      `{"prompt": ..., "model": "stable-diffusion"}`, plus `reference_image`
      when a truthy reference URL is given. */
  function GenerationPayload(prompt: string, referenceUrl: Option<string>): (p: map<string, string>)
    ensures p.Keys <= {"prompt", "model", "reference_image"}
    ensures "prompt" in p && p["prompt"] == prompt
    ensures "model" in p && p["model"] == GenerationModel
    ensures "reference_image" in p <==> Present(referenceUrl)
    ensures "reference_image" in p ==> p["reference_image"] == referenceUrl.value
  {
    var payload := map["prompt" := prompt, "model" := GenerationModel];
    if Present(referenceUrl) then payload["reference_image" := referenceUrl.value] else payload
  }

  /** The URL a generation reply names: `image_url`, or else `url`. */
  function GeneratedUrl(reply: GenerationReply): (u: Option<string>)
    requires reply.GenerationData?
    ensures Present(reply.imageUrl) ==> u == reply.imageUrl
    ensures !Present(reply.imageUrl) ==> u == reply.url
  {
    if Present(reply.imageUrl) then reply.imageUrl else reply.url
  }

  /** `ImageGenerationTool.generate_image`: post the payload; when the reply
      names an image URL and storing it succeeds, return a success record
      echoing the prompt. A storage failure gives no result at all. */
  function GenerateImage(prompt: string, referenceUrl: Option<string>,
                         provider: map<string, string> -> GenerationReply,
                         upload: (string, string) -> Option<string>,
                         sign: string -> Option<string>): (r: Option<ImageRecord>)
    ensures var reply := provider(GenerationPayload(prompt, referenceUrl));
      r.Some? <==>
        && reply.GenerationData?
        && Present(GeneratedUrl(reply))
        && Present(upload(GeneratedUrl(reply).value, GeneratedPrefix))
    ensures r.Some? ==>
      var url := GeneratedUrl(provider(GenerationPayload(prompt, referenceUrl))).value;
      r.value == Generated(upload(url, GeneratedPrefix).value, sign(upload(url, GeneratedPrefix).value), prompt, None)
  {
    var reply := provider(GenerationPayload(prompt, referenceUrl));
    match reply
    case GenerationError => None
    case GenerationData(_, _) =>
      var url := GeneratedUrl(reply);
      if !Present(url) then None
      else
        var path := upload(url.value, GeneratedPrefix);
        if !Present(path) then None
        else Some(Generated(path.value, sign(path.value), prompt, None))
  }

  /** No degraded success: a generation whose image cannot be stored is
      reported exactly like a failed generation. */
  lemma NoDegradedSuccess(prompt: string, referenceUrl: Option<string>,
                          provider: map<string, string> -> GenerationReply,
                          upload: (string, string) -> Option<string>,
                          sign: string -> Option<string>)
    requires provider(GenerationPayload(prompt, referenceUrl)).GenerationData?
    requires !Present(upload(GeneratedUrl(provider(GenerationPayload(prompt, referenceUrl))).GetOr(""), GeneratedPrefix))
    ensures GenerateImage(prompt, referenceUrl, provider, upload, sign).None?
  {
  }

  /** `ImageGenerationTool.generate_image_simple`, the call the agent makes:
      a placeholder success record that echoes the prompt. */
  function GenerateImageSimple(prompt: string, referenceUrl: Option<string>): (r: Option<ImageRecord>)
    ensures r.Some? && r.value.Generated?
    ensures r.value.prompt == prompt
    ensures r.value.minioPath == PlaceholderPath && r.value.presignedUrl == Some(PlaceholderUrl)
  {
    Some(Generated(PlaceholderPath, Some(PlaceholderUrl), prompt, Some(PlaceholderMessage)))
  }

  /** The placeholder generation ignores the reference image entirely. */
  lemma SimpleIgnoresReference(prompt: string, a: Option<string>, b: Option<string>)
    ensures GenerateImageSimple(prompt, a) == GenerateImageSimple(prompt, b)
  {
  }
}
