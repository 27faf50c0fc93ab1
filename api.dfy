/**
 * The view types of the Bluesky XRPC API (the `atrium_api` crate) that the
 * client reads, each with only the fields the core looks at.  The embed and
 * quoted-record unions are closed and mutually recursive: a resolved quoted
 * record carries embeds of its own, although the renderer never descends
 * into them.
 */
module Api {
  import opened Wrappers

  /** app.bsky.actor.defs#profileViewBasic */
  datatype ProfileViewBasic = ProfileViewBasic(did: string, handle: string, displayName: Option<string>)

  /** app.bsky.actor.getProfile output (profileViewDetailed): the stable identifier of an actor. */
  datatype ProfileViewDetailed = ProfileViewDetailed(did: string, handle: string)

  /** app.bsky.feed.post record */
  datatype PostRecord = PostRecord(text: string, createdAt: string)

  /** `records::Record`: a feed post, or a record of any other collection, named by its NSID. */
  datatype Record = AppBskyFeedPost(post: PostRecord) | OtherRecord(nsid: string)

  /** app.bsky.embed.images#viewImage */
  datatype ViewImage = ViewImage(thumb: string, fullsize: string, alt: string)

  /** app.bsky.embed.external#viewExternal */
  datatype ViewExternal = ViewExternal(uri: string, title: string, description: string)

  /** app.bsky.feed.defs#generatorView */
  datatype GeneratorView = GeneratorView(uri: string, creator: ProfileViewBasic, displayName: string)

  /** app.bsky.embed.record#view, its `record` union */
  datatype ViewRecordEnum =
    | ViewRecord(uri: string, author: ProfileViewBasic, value: Record, embeds: seq<PostViewEmbed>)
    | ViewNotFound(uri: string)
    | ViewBlocked(uri: string)
    | AppBskyFeedDefsGeneratorView(feed: GeneratorView)

  /** app.bsky.embed.recordWithMedia#view, its `media` union */
  datatype ViewMediaEnum =
    | MediaImagesView(images: seq<ViewImage>)
    | MediaExternalView(external: ViewExternal)

  /** app.bsky.feed.defs#postView, its `embed` union */
  datatype PostViewEmbed =
    | AppBskyEmbedImagesView(images: seq<ViewImage>)
    | AppBskyEmbedExternalView(external: ViewExternal)
    | AppBskyEmbedRecordView(record: ViewRecordEnum)
    | AppBskyEmbedRecordWithMediaView(quoted: ViewRecordEnum, media: ViewMediaEnum)

  /** app.bsky.feed.defs#postView */
  datatype PostView = PostView(uri: string, author: ProfileViewBasic, record: Record, embed: Option<PostViewEmbed>)
}
