/**
 * The renderer: a fetched post and its embed, as display text.  Terminal
 * colours and underlining are left out, so every coloured fragment is its
 * plain text.  Parsing `created_at` (an RFC 3339 date-time) and writing the
 * instant in local time are library calls, passed in as a TimeFormat.
 */
module Formatters {
  import opened Wrappers
  import opened Api
  import opened Text
  import Session
  import Client

  /**
   * `DateTime::parse_from_rfc3339` (None when the text is not an RFC 3339
   * date-time) and the local-time rendering `"%Y-%m-%d %I:%M:%S %P"`.
   */
  datatype TimeFormat = TimeFormat(parseRfc3339: string -> Option<Session.Instant>, formatLocal: Session.Instant -> string)

  datatype FormatError =
    | UnexpectedRecordKind(record: Record)  // "Whoa, got .. instead of AppBskyFeedPost"
    | BadTimestamp(createdAt: string)       // the RFC 3339 parse error

  /** What the interactive caller sees: the fetch failed, or the post could not be rendered. */
  datatype AppError = FetchFailed(fetchError: Client.ClientError) | FormatFailed(formatError: FormatError)

  const EmbedsHeader := "\n\tembeds:\n\t"
  const NoAltText := "<no alt text>"

  /** The author's display name when it has one, otherwise the handle. */
  function DisplayName(author: ProfileViewBasic): string {
    author.displayName.GetOr(author.handle)
  }

  /** The header line of a post: `[<time>] <name> (<handle>): <text>`. */
  function ContentLine(time: string, name: string, handle: string, text: string): string {
    "[" + time + "] " + name + " (" + handle + "): " + text
  }

  /** `summarize_post_content`: fails exactly when `created_at` is not a date-time. */
  function SummarizePostContent(tf: TimeFormat, author: ProfileViewBasic, record: PostRecord): (r: Result<string, FormatError>)
    ensures r.Failure? <==> tf.parseRfc3339(record.createdAt).None?
    ensures r.Failure? ==> r.error == BadTimestamp(record.createdAt)
    ensures r.Success? ==>
      r.value == ContentLine(tf.formatLocal(tf.parseRfc3339(record.createdAt).value), DisplayName(author), author.handle, record.text)
  {
    match tf.parseRfc3339(record.createdAt)
    case None => Failure(BadTimestamp(record.createdAt))
    case Some(t) => Success(ContentLine(tf.formatLocal(t), DisplayName(author), author.handle, record.text))
  }

  /** The number of line breaks in `s`. */
  function NewlineCount(s: string): nat
    decreases |s|
  {
    if s == [] then 0 else (if s[0] == '\n' then 1 else 0) + NewlineCount(s[1..])
  }

  /** `alt.replace('\n', "\n\t\t")`: every line break followed by two tabs, so two characters longer per break. */
  function IndentNewlines(s: string): (r: string)
    ensures |r| == |s| + 2 * NewlineCount(s)
    decreases |s|
  {
    if s == [] then []
    else (if s[0] == '\n' then "\n\t\t" else [s[0]]) + IndentNewlines(s[1..])
  }

  /** Undoes IndentNewlines: each "\n\t\t" back to a single line break. */
  function UnindentNewlines(s: string): string
    decreases |s|
  {
    if s == [] then []
    else if |s| >= 3 && s[..3] == "\n\t\t" then "\n" + UnindentNewlines(s[3..])
    else [s[0]] + UnindentNewlines(s[1..])
  }

  /** The replacement works character by character, so it distributes over concatenation. */
  lemma {:induction false} IndentNewlinesAppend(a: string, b: string)
    ensures IndentNewlines(a + b) == IndentNewlines(a) + IndentNewlines(b)
    decreases |a|
  {
    if a != [] {
      var head := if a[0] == '\n' then "\n\t\t" else [a[0]];
      assert (a + b)[0] == a[0];
      assert (a + b)[1..] == a[1..] + b;
      IndentNewlinesAppend(a[1..], b);
      calc {
        IndentNewlines(a + b);
        head + IndentNewlines(a[1..] + b);
        head + (IndentNewlines(a[1..]) + IndentNewlines(b));
        (head + IndentNewlines(a[1..])) + IndentNewlines(b);
        IndentNewlines(a) + IndentNewlines(b);
      }
    } else {
      assert a + b == b;
    }
  }

  /** Text without line breaks is left exactly as it is. */
  lemma {:induction false} IndentNewlinesWithoutBreaks(s: string)
    ensures '\n' !in s ==> IndentNewlines(s) == s
    decreases |s|
  {
    if s != [] && '\n' !in s {
      assert '\n' !in s[1..] by {
        forall i | 0 <= i < |s[1..]| ensures s[1..][i] != '\n' { assert s[1..][i] == s[i + 1]; }
      }
      IndentNewlinesWithoutBreaks(s[1..]);
    }
  }

  /** Nothing is lost: removing the inserted tabs gives the alt text back. */
  lemma {:induction false} UnindentIndentNewlines(s: string)
    ensures UnindentNewlines(IndentNewlines(s)) == s
    decreases |s|
  {
    if s != [] {
      var rest := IndentNewlines(s[1..]);
      UnindentIndentNewlines(s[1..]);
      if s[0] == '\n' {
        var t := "\n\t\t" + rest;
        assert IndentNewlines(s) == t;
        assert t[..3] == "\n\t\t" && t[3..] == rest;
        assert s == "\n" + s[1..];
      } else {
        var t := [s[0]] + rest;
        assert IndentNewlines(s) == t;
        assert t[0] == s[0] && t[1..] == rest;
        assert s == [s[0]] + s[1..];
      }
    }
  }

  /** The alt text of one image: the marker when empty, otherwise re-indented. */
  function AltText(alt: string): (r: string)
    ensures alt == [] ==> r == NoAltText
    ensures alt != [] ==> r == IndentNewlines(alt)
    ensures alt != [] ==> UnindentNewlines(r) == alt
    ensures alt != [] && '\n' !in alt ==> r == alt
  {
    if alt == [] then NoAltText
    else
      UnindentIndentNewlines(alt);
      IndentNewlinesWithoutBreaks(alt);
      IndentNewlines(alt)
  }

  /** One line of the image summary: `- Image <n> alt text: <alt>`. */
  function ImageLine(n: nat, image: ViewImage): string {
    "- Image " + NatToString(n) + " alt text: " + AltText(image.alt)
  }

  /** `view.images.iter().enumerate().map(..)`: one line per image, numbered from 1. */
  function ImageLines(images: seq<ViewImage>): seq<string> {
    seq(|images|, k requires 0 <= k < |images| => ImageLine(k + 1, images[k]))
  }

  /** `summarize_images`: the image lines joined by "\n\t". */
  function SummarizeImages(images: seq<ViewImage>): (r: string)
    ensures images == [] ==> r == ""
    ensures |images| == 1 ==> r == ImageLine(1, images[0])
  {
    Join(ImageLines(images), "\n\t")
  }

  /** One more image adds one more line, numbered after all the others, at the end. */
  lemma SummarizeImagesSnoc(images: seq<ViewImage>, image: ViewImage)
    ensures SummarizeImages(images + [image]) ==
      if images == [] then ImageLine(1, image)
      else SummarizeImages(images) + "\n\t" + ImageLine(|images| + 1, image)
  {
    assert ImageLines(images + [image]) == ImageLines(images) + [ImageLine(|images| + 1, image)];
    if images != [] {
      JoinSnoc(ImageLines(images), ImageLine(|images| + 1, image), "\n\t");
    }
  }

  /** `summarize_external`: `- Links to <title> (<uri>)`. */
  function SummarizeExternal(external: ViewExternal): (r: string)
    ensures |r| == 14 + |external.title| + |external.uri|
    ensures r[..11] == "- Links to " && r[11..11 + |external.title|] == external.title
    ensures r[11 + |external.title|..13 + |external.title|] == " ("
    ensures r[|r| - 1 - |external.uri|..|r| - 1] == external.uri && r[|r| - 1] == ')'
  {
    "- Links to " + external.title + " (" + external.uri + ")"
  }

  /** `summarize_media`: only the media part of a record-with-media embed. */
  function SummarizeMedia(media: ViewMediaEnum): (r: string)
    ensures media.MediaImagesView? ==> r == SummarizeImages(media.images)
    ensures media.MediaExternalView? ==> r == SummarizeExternal(media.external)
  {
    match media
    case MediaImagesView(images) => SummarizeImages(images)
    case MediaExternalView(external) => SummarizeExternal(external)
  }

  /**
   * `summarize_quoted_post`: a resolved post is its header line (its own
   * embeds are not rendered), a resolved record of another kind is an
   * error, and the other three variants are fixed texts.
   */
  function SummarizeQuotedPost(tf: TimeFormat, quoted: ViewRecordEnum): (r: Result<string, FormatError>)
    ensures quoted.ViewNotFound? ==> r == Success("Couldn't find embed")
    ensures quoted.ViewBlocked? ==> r == Success("Blocked by the embed")
    ensures quoted.AppBskyFeedDefsGeneratorView? ==>
      r == Success("- Embeds feed " + quoted.feed.displayName + " by " + quoted.feed.creator.handle)
    ensures quoted.ViewRecord? && quoted.value.OtherRecord? ==> r == Failure(UnexpectedRecordKind(quoted.value))
    ensures quoted.ViewRecord? && quoted.value.AppBskyFeedPost? ==> r == SummarizePostContent(tf, quoted.author, quoted.value.post)
  {
    match quoted
    case ViewRecord(_, author, value, _) =>
      (match value
       case AppBskyFeedPost(post) => SummarizePostContent(tf, author, post)
       case OtherRecord(_) => Failure(UnexpectedRecordKind(value)))
    case ViewNotFound(_) => Success("Couldn't find embed")
    case ViewBlocked(_) => Success("Blocked by the embed")
    case AppBskyFeedDefsGeneratorView(feed) => Success("- Embeds feed " + feed.displayName + " by " + feed.creator.handle)
  }

  /** The body of an embed block, by variant. */
  function EmbedBody(tf: TimeFormat, embed: PostViewEmbed): (r: Result<string, FormatError>)
    ensures r.Failure? ==> embed.AppBskyEmbedRecordView?
    ensures embed.AppBskyEmbedImagesView? ==> r == Success(SummarizeImages(embed.images))
    ensures embed.AppBskyEmbedRecordView? ==> r == SummarizeQuotedPost(tf, embed.record)
    ensures embed.AppBskyEmbedExternalView? ==> r == Success(SummarizeExternal(embed.external))
    ensures embed.AppBskyEmbedRecordWithMediaView? ==> r == Success(SummarizeMedia(embed.media))
  {
    match embed
    case AppBskyEmbedImagesView(images) => Success(SummarizeImages(images))
    case AppBskyEmbedExternalView(external) => Success("- Links to " + external.title + " (" + external.uri + ")")
    case AppBskyEmbedRecordView(quoted) => SummarizeQuotedPost(tf, quoted)
    case AppBskyEmbedRecordWithMediaView(_, media) => Success(SummarizeMedia(media))
  }

  /** `summarize_post_embeds`: the "embeds" header, then the body; fails only when the body does. */
  function SummarizePostEmbeds(tf: TimeFormat, embed: PostViewEmbed): (r: Result<string, FormatError>)
    ensures r.Success? <==> EmbedBody(tf, embed).Success?
    ensures r.Success? ==> r.value == EmbedsHeader + EmbedBody(tf, embed).value
    ensures r.Failure? ==> r.error == EmbedBody(tf, embed).error
  {
    match EmbedBody(tf, embed)
    case Failure(e) => Failure(e)
    case Success(body) => Success(EmbedsHeader + body)
  }

  /** The rendering part of `get_formatted_post`: header line, then the embed block if there is one. */
  function FormatPost(tf: TimeFormat, post: PostView): (r: Result<string, FormatError>)
    ensures r.Success? <==> Renderable(tf, post)
    ensures post.record.OtherRecord? ==> r == Failure(UnexpectedRecordKind(post.record))
  {
    match post.record
    case OtherRecord(_) => Failure(UnexpectedRecordKind(post.record))
    case AppBskyFeedPost(record) =>
      match SummarizePostContent(tf, post.author, record)
      case Failure(e) => Failure(e)
      case Success(content) =>
        match post.embed
        case None => Success(content)
        case Some(embed) =>
          match SummarizePostEmbeds(tf, embed)
          case Failure(e) => Failure(e)
          case Success(block) => Success(content + block)
  }

  /** A top-level record that is not a feed post is an error, never text. */
  lemma NonPostIsRejected(tf: TimeFormat, post: PostView)
    requires post.record.OtherRecord?
    ensures FormatPost(tf, post) == Failure(UnexpectedRecordKind(post.record))
  {
  }

  /** The output is the header line alone, or the header line, the "embeds" header and the embed body. */
  lemma FormatPostShape(tf: TimeFormat, post: PostView)
    requires post.record.AppBskyFeedPost?
    requires SummarizePostContent(tf, post.author, post.record.post).Success?
    ensures var content := SummarizePostContent(tf, post.author, post.record.post).value;
      match post.embed
      case None => FormatPost(tf, post) == Success(content)
      case Some(e) =>
        match EmbedBody(tf, e)
        case Success(body) => FormatPost(tf, post) == Success(content + "\n\tembeds:\n\t" + body)
        case Failure(err) => FormatPost(tf, post) == Failure(err)
  {
    var content := SummarizePostContent(tf, post.author, post.record.post).value;
    if post.embed.Some? && EmbedBody(tf, post.embed.value).Success? {
      var body := EmbedBody(tf, post.embed.value).value;
      assert content + (EmbedsHeader + body) == content + "\n\tembeds:\n\t" + body;
    }
  }

  /** A `created_at` that is not a date-time fails the whole post, whatever its embed. */
  lemma BadTimestampFailsPost(tf: TimeFormat, post: PostView)
    requires post.record.AppBskyFeedPost?
    requires tf.parseRfc3339(post.record.post.createdAt).None?
    ensures FormatPost(tf, post) == Failure(BadTimestamp(post.record.post.createdAt))
  {
  }

  /** The posts that render: an independent statement of every way rendering can fail. */
  predicate Renderable(tf: TimeFormat, post: PostView) {
    && post.record.AppBskyFeedPost?
    && tf.parseRfc3339(post.record.post.createdAt).Some?
    && (post.embed.Some? && post.embed.value.AppBskyEmbedRecordView? && post.embed.value.record.ViewRecord? ==>
          && post.embed.value.record.value.AppBskyFeedPost?
          && tf.parseRfc3339(post.embed.value.record.value.post.createdAt).Some?)
  }

  /** External links read the same whether embedded directly or as the media of a record-with-media embed. */
  lemma ExternalSameEitherWay(tf: TimeFormat, external: ViewExternal, quoted: ViewRecordEnum)
    ensures EmbedBody(tf, AppBskyEmbedExternalView(external)) == Success(SummarizeExternal(external))
    ensures EmbedBody(tf, AppBskyEmbedRecordWithMediaView(quoted, MediaExternalView(external))) == Success(SummarizeExternal(external))
  {
  }

  /** A record-with-media embed renders its media only: the quoted record makes no difference and cannot fail it. */
  lemma RecordWithMediaIgnoresRecord(tf: TimeFormat, q1: ViewRecordEnum, q2: ViewRecordEnum, media: ViewMediaEnum)
    ensures EmbedBody(tf, AppBskyEmbedRecordWithMediaView(q1, media)) == EmbedBody(tf, AppBskyEmbedRecordWithMediaView(q2, media))
    ensures EmbedBody(tf, AppBskyEmbedRecordWithMediaView(q1, media)) == Success(SummarizeMedia(media))
  {
  }

  /** A quoted post renders as its header line alone: its own embeds make no difference. */
  lemma QuotedPostIgnoresNestedEmbeds(tf: TimeFormat, uri: string, author: ProfileViewBasic, record: PostRecord, e1: seq<PostViewEmbed>, e2: seq<PostViewEmbed>)
    ensures SummarizeQuotedPost(tf, ViewRecord(uri, author, AppBskyFeedPost(record), e1))
         == SummarizeQuotedPost(tf, ViewRecord(uri, author, AppBskyFeedPost(record), e2))
  {
  }

  /** With no display name the handle stands in for it: `[<time>] alice (alice): hello`. */
  lemma HandleStandsInForName(tf: TimeFormat, t: Session.Instant, did: string)
    requires tf.parseRfc3339("2023-05-01T12:00:00Z") == Some(t)
    ensures FormatPost(tf, PostView("", ProfileViewBasic(did, "alice", None), AppBskyFeedPost(PostRecord("hello", "2023-05-01T12:00:00Z")), None))
         == Success("[" + tf.formatLocal(t) + "] alice (alice): hello")
  {
    var time := tf.formatLocal(t);
    assert ContentLine(time, "alice", "alice", "hello") == "[" + time + "] alice (alice): hello";
  }

  lemma FirstImageLine(a: ViewImage)
    requires a.alt == "cat"
    ensures ImageLine(1, a) == "- Image " + "1" + " alt text: " + "cat"
  {
    assert NatToString(1) == "1";
    assert '\n' !in a.alt;
  }

  lemma SecondImageLine(b: ViewImage)
    requires b.alt == ""
    ensures ImageLine(2, b) == "- Image " + "2" + " alt text: " + "<no alt text>"
  {
    assert NatToString(2) == "2";
  }

  /** Two images, the second without alt text: two lines, numbered 1 and 2, the second with the marker. */
  lemma TwoImages(a: ViewImage, b: ViewImage)
    requires a.alt == "cat" && b.alt == ""
    ensures SummarizeImages([a, b])
         == ("- Image " + "1" + " alt text: " + "cat") + "\n\t" + ("- Image " + "2" + " alt text: " + "<no alt text>")
  {
    SummarizeImagesSnoc([a], b);
    assert [a] + [b] == [a, b];
    FirstImageLine(a);
    SecondImageLine(b);
  }

  /**
   * `get_formatted_post`: fetch the post through the client, then render
   * it; no text is produced unless both succeed.
   */
  method GetFormattedPost(client: Client.BSky, net: Client.Network, tf: TimeFormat, now: Session.Instant, handle: string, id: string)
    returns (r: Result<string, AppError>, calls: seq<Client.Call>)
    requires client.Valid()
    modifies client`session
    ensures client.Valid()
    ensures var f := Client.GetPostSpec(client.codec, net, client.poisoned, old(client.session), now, handle, id);
      && client.session == f.session && calls == f.calls
      && (f.result.Failure? ==> r == Failure(FetchFailed(f.result.error)))
      && (f.result.Success? ==>
            r == match FormatPost(tf, f.result.value)
                 case Success(s) => Success(s)
                 case Failure(e) => Failure(FormatFailed(e)))
  {
    var post;
    post, calls := client.GetPost(net, now, handle, id);
    if post.Failure? {
      return Failure(FetchFailed(post.error)), calls;
    }
    var text := FormatPost(tf, post.value);
    if text.Failure? {
      return Failure(FormatFailed(text.error)), calls;
    }
    r := Success(text.value);
  }
}
